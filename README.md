# Chunk scanning in BlockLimiter and Insights

This project models two chunk scanners in Dafny.

**`ScanChunksTask` (BlockLimiter).** This is a flood fill over a two-dimensional array of chunk snapshots.
- It clears a `width × maxHeight × width` grid of `examined` flags, where `width` is 16 times the number of chunk rows. Nothing requires the rows to have that many chunks: a cell past the end of a short row reads no material.
- It marks and queues the topmost voxel of the corner column.
- It then runs a breadth-first search. Each voxel taken off the queue that holds some material, at or above the floor, queues its six face neighbours that lie inside the grid and are not yet marked. Each such voxel whose material is the target adds one to `materialCount`.
- `getMaterialAt` reads chunk `(x / 16, z / 16)` at local coordinates `(x % 16, y, z % 16)`, with Java's truncating division. It gives nothing when the chunk index falls outside the array.

The model keeps the `examined` grid as an `array3<bool>` and the queue as a sequence. `Run` proves these results:
- the positions taken off the queue are distinct and stay inside the grid (or are the seed);
- no step of the search leaves them;
- they are exactly the voxels reachable from the seed;
- the count grows by the number of distinct reachable voxels whose material is the target.

**`ScanTask` (Insights).** This is an incremental scan scheduler, driven by a repeating server timer.
- **Each tick:**
  - It may send a progress `Info` once the info interval has passed.
  - It stops the timer once every chunk part has come back. At that point it sends a final report and hands the aggregate distribution storage to its consumer.
  - Otherwise it takes a budget of `min(iterationChunks, chunksPerIteration)` and hands up to that many parts from the front of its queue to the chunk executor.
- **Each completed part** merges its storage into the aggregate and gives one unit of budget back.
- **`scanAndDisplay`** refuses a player who is already scanning. When the scan finishes, it lists the items to display: those asked for, or every key of the aggregate. Items counted zero are dropped unless zeros are to be shown. The list is sorted by name. It then removes the player from the scanners.

The task is a class whose fields are the source's fields. Its executor futures are the sequence `inFlight`, and a completion is a call of `Complete` that names any in-flight part, so every interleaving of ticks and completions is a sequence of calls. The consumers are logs of what they received. The whole state is also a value, `TaskState`:
- each method is proved to move it exactly as a pure transition function does: `Tick` as `AfterTick`, `CheckNotify` as `AfterCheckNotify`, `SendInfo` as `AfterSendInfo`, `Cancel` as `AfterCancel`, `Iterate` as `AfterIterate`, `Dispatch` as `AfterDispatch`, `Complete` as `AfterComplete` and `Start` as `AfterStart`, and the constructor builds `Initial`;
- an invariant on `TaskState` is proved to hold after every transition.

The invariant says:
- each part is queued, in flight or completed, exactly once;
- the aggregate is the merge of the storages that came back;
- budget plus work in flight never exceeds the per-tick limit;
- reports never run ahead of the completions;
- the aggregate is handed over once, and only when the scan is finished.

On top of the invariant:
- a finished task has handed over the merge of every part's storage, whatever the order the completions came in;
- with a positive limit, a tick of a task with parts queued and none in flight hands out `min(limit, queued)` parts;
- with a limit of zero or less, a scan with parts never finishes.

Files:
- `wrappers.dfy`: `Option`.
- `sequences.dfy`: sequences without repeats.
- `flood_fill.dfy`: `ScanChunksTask`.
- `storage.dfy`: scan objects and the distribution storage as a map from scan object to count, with merging.
- `display.dfy`: the name order and the display list.
- `scan_task.dfy`: `ScanTask`, its `Info` reports and the set of scanning players.

## Model

| member | source | states |
|---|---|---|
| FloodFill.MaterialAt | src/main/java/net/frankheijden/blocklimiter/tasks/ScanChunksTask.java:107-117 | a material is found only when `x / 16` and `z / 16` (truncating) index a chunk of the array; otherwise the result is absent |
| FloodFill.MaterialAtCell | src/main/java/net/frankheijden/blocklimiter/tasks/ScanChunksTask.java:107-117 | on a cell of the grid of a square array, the lookup reads the chunk holding the cell at local coordinates in `0..15` that put the position back together |
| FloodFill.MaterialAtPastLastRow | src/main/java/net/frankheijden/blocklimiter/tasks/ScanChunksTask.java:108-116 | a column beyond the last chunk row reads nothing |
| FloodFill.Neighbours | src/main/java/net/frankheijden/blocklimiter/tasks/ScanChunksTask.java:79-85 | six distinct face-adjacent voxels, queued one step up and down x, then z, then y |
| FloodFill.NeighboursAreAdjacent | src/main/java/net/frankheijden/blocklimiter/tasks/ScanChunksTask.java:79-85 | the six positions queued for examination are exactly the face-adjacent voxels |
| FloodFill.ClearGrid | src/main/java/net/frankheijden/blocklimiter/tasks/ScanChunksTask.java:47-54 | after the three nested loops every cell of `examined` is false |
| FloodFill.MarkSeed | src/main/java/net/frankheijden/blocklimiter/tasks/ScanChunksTask.java:56-71 | the seed is marked when it lies in the grid and is queued either way; the queue is `[seed]` and the search invariant holds |
| FloodFill.Enqueue | src/main/java/net/frankheijden/blocklimiter/tasks/ScanChunksTask.java:91-94 | an unmarked neighbour inside the grid is marked and appended to the queue; the queue stays free of repeats and each queued voxel has a path from the seed |
| FloodFill.TryEnqueue | src/main/java/net/frankheijden/blocklimiter/tasks/ScanChunksTask.java:90-95 | the neighbour is dropped, or appended when it is a step of the search not queued before; afterwards every neighbour inside the grid has been queued |
| FloodFill.ExamineNeighbours | src/main/java/net/frankheijden/blocklimiter/tasks/ScanChunksTask.java:79-96 | the queue only grows at its end; what it gains are steps out of the expanded voxel, inside the grid and not queued before; and every such step is then queued |
| FloodFill.PathExtends | src/main/java/net/frankheijden/blocklimiter/tasks/ScanChunksTask.java:91-93 | a path to a voxel followed by a step of the search is a path to the next voxel |
| FloodFill.QueueGrows | src/main/java/net/frankheijden/blocklimiter/tasks/ScanChunksTask.java:73-96 | after a voxel is expanded, every voxel taken so far has all its steps queued, and the pending queue is the old one plus the new positions |
| FloodFill.SearchFinished | src/main/java/net/frankheijden/blocklimiter/tasks/ScanChunksTask.java:73-101 | once the queue is empty, the positions taken form a region that no step leaves, all reachable from the seed |
| FloodFill.ClosedHoldsPath | src/main/java/net/frankheijden/blocklimiter/tasks/ScanChunksTask.java:73-101 | a region holding the seed that no step leaves holds the end of every path |
| FloodFill.RegionIsConnectedRegion | src/main/java/net/frankheijden/blocklimiter/tasks/ScanChunksTask.java:73-101 | such a region whose voxels are all reachable is exactly the set of reachable voxels |
| FloodFill.Expands | src/main/java/net/frankheijden/blocklimiter/tasks/ScanChunksTask.java:75-77 | a voxel that passes the filter lies at or above the floor, and its chunk row `x / 16` exists |
| FloodFill.Matches | src/main/java/net/frankheijden/blocklimiter/tasks/ScanChunksTask.java:98-100 | a voxel that adds to the count is one that passed the filter of line 77 |
| FloodFill.CountMatchingTake | src/main/java/net/frankheijden/blocklimiter/tasks/ScanChunksTask.java:98-100 | taking one more voxel adds one to the count exactly when it lies at or above the floor and holds the target |
| FloodFill.CountMatchingIsCardinality | src/main/java/net/frankheijden/blocklimiter/tasks/ScanChunksTask.java:98-100 | over positions without repeats, the count is the number of distinct matching voxels, and no more than the positions |
| FloodFill.UniverseSize | src/main/java/net/frankheijden/blocklimiter/tasks/ScanChunksTask.java:47 | the grid has `width × maxHeight × width` cells, and the seed is one of them unless the grid is empty |
| FloodFill.ScanChunksTask.constructor | src/main/java/net/frankheijden/blocklimiter/tasks/ScanChunksTask.java:18-25 | stores the chunks and the material; the count starts at zero |
| FloodFill.ScanChunksTask.Run | src/main/java/net/frankheijden/blocklimiter/tasks/ScanChunksTask.java:44-101 | the positions taken are distinct, start at the seed, lie in the grid and number at most its cells plus one; they are exactly the voxels reachable from the seed; the count grows by the number of them that match the target |
| Storage.Count | Insights-API/src/main/java/dev/frankheijden/insights/api/tasks/ScanTask.java:183 | the count of an object with an entry is that entry, and zero otherwise |
| Storage.Merge | Insights-API/src/main/java/dev/frankheijden/insights/api/tasks/ScanTask.java:270 | the merged storage has the keys of both, and each count is the sum of the two counts |
| Storage.MergeCommutes | Insights-API/src/main/java/dev/frankheijden/insights/api/tasks/ScanTask.java:270 | merging is commutative |
| Storage.MergeAssociates | Insights-API/src/main/java/dev/frankheijden/insights/api/tasks/ScanTask.java:270 | merging is associative |
| Storage.MergeEmpty | Insights-API/src/main/java/dev/frankheijden/insights/api/tasks/ScanTask.java:65 | the new empty storage is the unit of merging |
| Storage.MergeAllCounts | Insights-API/src/main/java/dev/frankheijden/insights/api/tasks/ScanTask.java:269-273 | the aggregate count of each object is the sum of its counts over the merged storages |
| Storage.MergeAllKeys | Insights-API/src/main/java/dev/frankheijden/insights/api/tasks/ScanTask.java:269-273 | an object is a key of the aggregate exactly when it is a key of some merged storage |
| Storage.SumCountsPermutation | Insights-API/src/main/java/dev/frankheijden/insights/api/tasks/ScanTask.java:269-273 | the summed count does not depend on the order of the storages |
| Storage.MergeAllPermutation | Insights-API/src/main/java/dev/frankheijden/insights/api/tasks/ScanTask.java:269-273 | the aggregate does not depend on the order in which storages are merged |
| Display.NameLeIsLexicographic | Insights-API/src/main/java/dev/frankheijden/insights/api/tasks/ScanTask.java:184 | the recursive name comparison `NameLe`, standing for `compareTo(..) <= 0`, holds exactly when one name is a prefix of the other or has the smaller character where they first differ |
| Display.NameLeReflexive | Insights-API/src/main/java/dev/frankheijden/insights/api/tasks/ScanTask.java:184 | the name order is reflexive |
| Display.NameLeTotal | Insights-API/src/main/java/dev/frankheijden/insights/api/tasks/ScanTask.java:184 | any two names are comparable |
| Display.NameLeTransitive | Insights-API/src/main/java/dev/frankheijden/insights/api/tasks/ScanTask.java:184 | the name order is transitive |
| Display.NameLeAntisymmetric | Insights-API/src/main/java/dev/frankheijden/insights/api/tasks/ScanTask.java:184 | names that compare equal both ways are equal |
| Display.FirstByNameExists | Insights-API/src/main/java/dev/frankheijden/insights/api/tasks/ScanTask.java:184 | every non-empty set of scan objects has one whose name comes first |
| Display.SortByName | Insights-API/src/main/java/dev/frankheijden/insights/api/tasks/ScanTask.java:184-185 | the sorted list holds exactly the set's items, each once, in name order |
| Display.Candidates | Insights-API/src/main/java/dev/frankheijden/insights/api/tasks/ScanTask.java:182 | the items asked for, or every object with an entry in the storage when none were named |
| Display.DisplayItems | Insights-API/src/main/java/dev/frankheijden/insights/api/tasks/ScanTask.java:182-185 | an item is listed exactly when it is a candidate (asked for, or a key when none were asked for) and its count is non-zero or zeros are shown; each once, sorted by name |
| Scheduling.ScannedPermutation | Insights-API/src/main/java/dev/frankheijden/insights/api/tasks/ScanTask.java:269-273 | reordering the parts reorders their storages the same way |
| Scheduling.AggregateIsOrderIndependent | Insights-API/src/main/java/dev/frankheijden/insights/api/tasks/ScanTask.java:269-273 | completions of every part, in any order, merge to the storages of the parts merged in queue order |
| Scheduling.InitialInvariant | Insights-API/src/main/java/dev/frankheijden/insights/api/tasks/ScanTask.java:44-73 | a new task meets the invariant |
| Scheduling.SendInfoKeepsInvariant | Insights-API/src/main/java/dev/frankheijden/insights/api/tasks/ScanTask.java:285-287 | a report keeps the invariant: it counts the same total and never runs ahead of the completions |
| Scheduling.CheckNotifyKeepsInvariant | Insights-API/src/main/java/dev/frankheijden/insights/api/tasks/ScanTask.java:277-283 | the timed report keeps the invariant |
| Scheduling.CancelKeepsInvariant | Insights-API/src/main/java/dev/frankheijden/insights/api/tasks/ScanTask.java:215-221 | cancelling a running task whose parts have all come back hands the aggregate over once and ends with a report of completion |
| Scheduling.IterateKeepsInvariant | Insights-API/src/main/java/dev/frankheijden/insights/api/tasks/ScanTask.java:236-274 | taking the budget and dispatching keeps every part accounted for once, the queue in order and the budget bounded |
| Scheduling.TickKeepsInvariant | Insights-API/src/main/java/dev/frankheijden/insights/api/tasks/ScanTask.java:224-275 | a tick of a running task keeps the invariant |
| Scheduling.CompleteKeepsInvariant | Insights-API/src/main/java/dev/frankheijden/insights/api/tasks/ScanTask.java:269-273 | a completion moves its part from in flight to completed, merges its storage and returns one unit of budget, keeping the invariant |
| Scheduling.TickDispatches | Insights-API/src/main/java/dev/frankheijden/insights/api/tasks/ScanTask.java:236-274 | a tick of an unfinished task takes the budget off `iterationChunks` and moves parts, in queue order, from the front of the queue to the work in flight: up to the budget, fewer only when the queue runs out, none for a budget of zero or less |
| Scheduling.TickFinishes | Insights-API/src/main/java/dev/frankheijden/insights/api/tasks/ScanTask.java:228-232 | a tick of a running task whose parts have all come back cancels the timer, reports completion and hands the aggregate over |
| Scheduling.TickMakesProgress | Insights-API/src/main/java/dev/frankheijden/insights/api/tasks/ScanTask.java:236-248 | with a positive limit and nothing in flight, a tick hands out `min(limit, queued)` parts |
| Scheduling.NonPositiveLimitStalls | Insights-API/src/main/java/dev/frankheijden/insights/api/tasks/ScanTask.java:236-245 | with a limit of zero or less, nothing is in flight and a tick hands nothing out, so an unfinished scan never finishes |
| Scheduling.AllPartsCompleted | Insights-API/src/main/java/dev/frankheijden/insights/api/tasks/ScanTask.java:229-232 | a finished task has nothing queued or in flight and has completed each part exactly once |
| Scheduling.FinalAggregate | Insights-API/src/main/java/dev/frankheijden/insights/api/tasks/ScanTask.java:215-221 | the storage a finished task hands over is the merge of every part's storage, whatever the completion order |
| Scheduling.EmptyScanFinishesOnFirstTick | Insights-API/src/main/java/dev/frankheijden/insights/api/tasks/ScanTask.java:228-232 | a scan of no parts hands over an empty storage and reports `0/0` on its first tick |
| Scheduling.ScanTask.constructor | Insights-API/src/main/java/dev/frankheijden/insights/api/tasks/ScanTask.java:44-73 | the queue holds the parts in order, the budget is the per-tick limit, the interval is in nanoseconds, nothing is counted; the invariant holds |
| Scheduling.ScanTask.Start | Insights-API/src/main/java/dev/frankheijden/insights/api/tasks/ScanTask.java:210-213 | the timer is scheduled; the invariant holds |
| Scheduling.ScanTask.SendInfo | Insights-API/src/main/java/dev/frankheijden/insights/api/tasks/ScanTask.java:285-287 | the consumer receives `Info(chunks, chunkCount)` and nothing else changes |
| Scheduling.ScanTask.CheckNotify | Insights-API/src/main/java/dev/frankheijden/insights/api/tasks/ScanTask.java:277-283 | a report is sent, and `lastInfo` moves to `now`, exactly when the interval since the last report has passed |
| Scheduling.ScanTask.Cancel | Insights-API/src/main/java/dev/frankheijden/insights/api/tasks/ScanTask.java:215-221 | a scheduled timer is cancelled, a report is sent and the aggregate is handed over; an unscheduled task is left alone |
| Scheduling.ScanTask.Tick | Insights-API/src/main/java/dev/frankheijden/insights/api/tasks/ScanTask.java:224-275 | the new state is the tick transition of the old one, and the invariant holds afterwards |
| Scheduling.ScanTask.Iterate | Insights-API/src/main/java/dev/frankheijden/insights/api/tasks/ScanTask.java:236-239 | the budget step: no change for a budget of zero; otherwise the budget comes off `iterationChunks` and is dispatched |
| Scheduling.ScanTask.Dispatch | Insights-API/src/main/java/dev/frankheijden/insights/api/tasks/ScanTask.java:242-274 | the loop moves exactly `min(budget, queued)` parts (none when the budget is not positive) from the front of the queue to the end of the work in flight |
| Scheduling.ScanTask.Submit | Insights-API/src/main/java/dev/frankheijden/insights/api/tasks/ScanTask.java:245-248 | the head of the queue leaves it and joins the end of the work in flight |
| Scheduling.ScanTask.Complete | Insights-API/src/main/java/dev/frankheijden/insights/api/tasks/ScanTask.java:269-273 | the new state is the completion transition of the old one, and the invariant holds afterwards |
| Scheduling.Scanners.constructor | Insights-API/src/main/java/dev/frankheijden/insights/api/tasks/ScanTask.java:32 | no player is scanning |
| Scheduling.Scanners.ScanAndDisplay | Insights-API/src/main/java/dev/frankheijden/insights/api/tasks/ScanTask.java:151-174 | a player already scanning is refused with nothing changed; otherwise the player is added and a new, started task over the given parts is returned |
| Scheduling.Scanners.ScanFinished | Insights-API/src/main/java/dev/frankheijden/insights/api/tasks/ScanTask.java:174-207 | the items shown are the display list of the delivered storage, and the player is no longer scanning |

## Left out

- Messages are not modelled. This covers the progress timer and the total message of `ScanChunksTask` (lines 58-63 and 103-104), the start, already-scanning and finish messages of `scanAndDisplay`, the footer, the paginated message, the scan history, and the floating-point progress and formatting of the `Info` consumer. They are output only.
- The Bukkit scheduler is not modelled. `runTaskTimer` becomes the `Scheduled` state of `task`, and `task.cancel()` becomes `Cancelled`; the tick interval is left out.
- The chunk executor is not modelled. The executor, the loaded-or-not choice between its two `submit` calls and the chunk loading are left out. A submitted part goes to `inFlight`, and its result comes back as an argument of `Complete`.
- `System.nanoTime()` is the `now` parameter of `Tick` and `CheckNotify`. The scan timer of `scanAndDisplay` is left out.
- Concurrency is not modelled. Completions run on executor threads; the model serialises each completion as one atomic call between ticks. Races between the unsynchronised `mergeRight` and `distributionStorage` are not modelled.
- `getMaterial`, a foreign call of the plugin, is an uninterpreted function over the chunk snapshot and local coordinates.
- Java's `int` and `long` overflow is not modelled. This covers `infoTimeoutMillis * 1000000L`, `lastInfo + infoTimeout` and the growth of `iterationChunks` under a negative limit; integers here are unbounded.
- The `DistributionStorage` and `Storage` classes are not modelled. A storage is a map from scan object to count, and `mergeRight` adds counts key by key.
- `scan` and the static `scan` factories are not modelled beyond the construct-and-start step that `ScanAndDisplay` performs. `InsightsAPI.java` is not part of this model.
- The `chunkParts` collection is taken in its iteration order, as a sequence.
- FloodFill.ScanChunksTask.Run requires `maxHeight >= 0`. For a negative height, Java's array allocation throws `NegativeArraySizeException` before anything else happens.
- FloodFill.ScanChunksTask.Run leaves `materialCount`'s `int` width out: the count is unbounded.
- Scheduling.ScanTask.Start requires an unscheduled task. The source calls `start` once, right after construction.
- Scheduling.ScanTask.Tick requires a scheduled task. The timer runs `run` only between `start` and `cancel`.
- Display.DisplayItems leaves the order among items of equal name unspecified. The source's order among them depends on the set's iteration order.
- Display.NameLe compares names by Unicode scalar value, where Java's `String.compareTo` compares UTF-16 code units. The two orders differ only when a character outside the Basic Multilingual Plane meets one in U+E000 to U+FFFF; the names of materials and entity types are plain ASCII.
