/**
 * The incremental scan scheduler of Insights. A scan task holds a queue of
 * chunk parts; every server tick it may report progress, finish once every
 * part has come back, or hand up to its per-tick budget of parts to the chunk
 * executor. Each part the executor finishes merges its storage into the
 * running aggregate and gives one unit of budget back.
 *
 * The executor's futures are the `inFlight` sequence: a completion is a call
 * of `Complete` naming any in-flight part, so every interleaving of ticks and
 * completions is a sequence of method calls. The two consumers are logs of
 * what they were given.
 */
module Scheduling {
  import opened Wrappers
  import opened Storage
  import Display

  /** The block cuboid of a chunk that a part covers. */
  datatype ChunkCuboid = ChunkCuboid(minX: int, minY: int, minZ: int, maxX: int, maxY: int, maxZ: int)

  /** `ChunkPart`: a chunk of a world, and the cuboid of it to scan. */
  datatype ChunkPart = ChunkPart(world: string, chunkX: int, chunkZ: int, cuboid: ChunkCuboid)

  /** `ScanTask.Info`: a progress report, `chunksDone` of `chunks` parts scanned. */
  datatype Info = Info(chunksDone: int, chunks: int)

  /** The Bukkit task of a scan: not started, a repeating timer, or a cancelled timer. */
  datatype TaskHandle = Unscheduled | Scheduled | Cancelled

  /** A player's UUID. */
  datatype Uuid = Uuid(high: int, low: int)

  const NanosPerMilli: int := 1000000

  function Min(a: int, b: int): int
  {
    if a <= b then a else b
  }

  /** The storages that scanning each part yields, in the parts' order. */
  function Scanned(scan: ChunkPart -> Distribution, ps: seq<ChunkPart>): seq<Distribution>
  {
    seq(|ps|, i requires 0 <= i < |ps| => scan(ps[i]))
  }

  /** Reordering the parts reorders their storages the same way. */
  lemma {:induction false} ScannedPermutation(scan: ChunkPart -> Distribution, a: seq<ChunkPart>, b: seq<ChunkPart>)
    requires multiset(a) == multiset(b)
    ensures multiset(Scanned(scan, a)) == multiset(Scanned(scan, b))
    decreases |a|
  {
    if a == [] {
      assert |multiset(b)| == 0;
    } else {
      var last := a[|a| - 1];
      var init := a[..|a| - 1];
      assert a == init + [last];
      assert last in multiset(b);
      var k :| 0 <= k < |b| && b[k] == last;
      var rest := b[..k] + b[k + 1..];
      assert b == b[..k] + [last] + b[k + 1..];
      assert multiset(init) == multiset(a) - multiset{last};
      assert multiset(rest) == multiset(b) - multiset{last};
      ScannedPermutation(scan, init, rest);
      ScannedAppend(scan, init, [last]);
      ScannedAppend(scan, b[..k] + [last], b[k + 1..]);
      ScannedAppend(scan, b[..k], [last]);
      ScannedAppend(scan, b[..k], b[k + 1..]);
    }
  }

  lemma ScannedAppend(scan: ChunkPart -> Distribution, a: seq<ChunkPart>, b: seq<ChunkPart>)
    ensures Scanned(scan, a + b) == Scanned(scan, a) + Scanned(scan, b)
  {
    forall i | 0 <= i < |a| + |b|
      ensures Scanned(scan, a + b)[i] == (Scanned(scan, a) + Scanned(scan, b))[i]
    {
      if i >= |a| {
        assert (a + b)[i] == b[i - |a|];
      }
    }
  }

  /**
   * When every completion delivered the storage of its own part, the aggregate
   * is the merge of all parts' storages in queue order, whatever the order in
   * which the completions arrived.
   */
  lemma AggregateIsOrderIndependent(scan: ChunkPart -> Distribution, parts: seq<ChunkPart>,
                                    completed: seq<ChunkPart>, results: seq<Distribution>)
    requires multiset(completed) == multiset(parts)
    requires |results| == |completed|
    requires forall i :: 0 <= i < |results| ==> results[i] == scan(completed[i])
    ensures MergeAll(results) == MergeAll(Scanned(scan, parts))
  {
    assert results == Scanned(scan, completed);
    ScannedPermutation(scan, completed, parts);
    MergeAllPermutation(results, Scanned(scan, parts));
  }

  /**
   * The whole state of a scan task as one value: the settings fixed when it
   * is created, the fields that ticks and completions update, what the two
   * consumers were given, and where each part is (`dispatched` parts have
   * left the queue; `completed` lists, in completion order, the parts whose
   * storage came back, and `results` those storages).
   */
  datatype TaskState = TaskState(
    parts: seq<ChunkPart>,
    chunksPerIteration: int,
    infoTimeout: int,
    chunkCount: int,
    scanQueue: seq<ChunkPart>,
    distributionStorage: Distribution,
    iterationChunks: int,
    chunks: int,
    lastInfo: int,
    task: TaskHandle,
    inFlight: seq<ChunkPart>,
    infos: seq<Info>,
    delivered: seq<Distribution>,
    dispatched: nat,
    completed: seq<ChunkPart>,
    results: seq<Distribution>)

  /** The state the constructor builds from the parts and the two settings. */
  function Initial(chunkParts: seq<ChunkPart>, chunksPerIteration: int, infoTimeoutMillis: int): TaskState
  {
    TaskState(chunkParts, chunksPerIteration, infoTimeoutMillis * NanosPerMilli, |chunkParts|,
              chunkParts, map[], chunksPerIteration, 0, 0, Unscheduled, [], [], [], 0, [], [])
  }

  /** `start`. */
  function AfterStart(s: TaskState): TaskState
  {
    s.(task := Scheduled)
  }

  /** `sendInfo`. */
  function AfterSendInfo(s: TaskState): TaskState
  {
    s.(infos := s.infos + [Info(s.chunks, s.chunkCount)])
  }

  /** `checkNotify` at time `now`, in nanoseconds. */
  function AfterCheckNotify(s: TaskState, now: int): TaskState
  {
    if s.lastInfo + s.infoTimeout < now then AfterSendInfo(s.(lastInfo := now)) else s
  }

  /** `cancel`. */
  function AfterCancel(s: TaskState): TaskState
  {
    if s.task != Unscheduled then
      AfterSendInfo(s.(task := Cancelled)).(delivered := s.delivered + [s.distributionStorage])
    else
      s
  }

  /** How many parts the dispatch loop of `run` takes, with this budget, from a queue of this length. */
  function DispatchCount(budget: int, queued: nat): nat
  {
    if budget <= 0 then 0 else Min(budget, queued)
  }

  /** The dispatch loop of `run` with budget `budget`. */
  function AfterDispatch(s: TaskState, budget: int): TaskState
  {
    var n := DispatchCount(budget, |s.scanQueue|);
    s.(scanQueue := s.scanQueue[n..], inFlight := s.inFlight + s.scanQueue[..n], dispatched := s.dispatched + n)
  }

  /** The budget step of `run` followed by its dispatch loop. */
  function AfterIterate(s: TaskState): TaskState
  {
    var chunkIterations := Min(s.iterationChunks, s.chunksPerIteration);
    if chunkIterations == 0 then s
    else AfterDispatch(s.(iterationChunks := s.iterationChunks - chunkIterations), chunkIterations)
  }

  /** `run` at time `now`, in nanoseconds. */
  function AfterTick(s: TaskState, now: int): TaskState
  {
    var notified := AfterCheckNotify(s, now);
    if notified.chunks == notified.chunkCount then AfterCancel(notified) else AfterIterate(notified)
  }

  /** The `thenAccept` callback of the in-flight part `k`, whose scan yielded `storage`. */
  function AfterComplete(s: TaskState, k: nat, storage: Distribution): TaskState
    requires k < |s.inFlight|
  {
    s.(inFlight := s.inFlight[..k] + s.inFlight[k + 1..],
       distributionStorage := Merge(s.distributionStorage, storage),
       iterationChunks := s.iterationChunks + 1,
       chunks := s.chunks + 1,
       completed := s.completed + [s.inFlight[k]],
       results := s.results + [storage])
  }

  /**
   * Every part is queued, in flight or completed, and only once; the queue
   * is what is left of the parts, in their order; `chunks` counts the
   * completions, so `chunks + |inFlight| + |scanQueue| == chunkCount`.
   */
  ghost predicate QueueInvariant(s: TaskState)
  {
    && s.chunkCount == |s.parts|
    && s.dispatched <= |s.parts|
    && s.scanQueue == s.parts[s.dispatched..]
    && multiset(s.completed) + multiset(s.inFlight) == multiset(s.parts[..s.dispatched])
    && s.chunks == |s.completed| == |s.results|
    && s.chunks + |s.inFlight| + |s.scanQueue| == s.chunkCount
  }

  /** The aggregate is the merge, in completion order, of the storages that came back. */
  ghost predicate AggregateInvariant(s: TaskState)
  {
    s.distributionStorage == MergeAll(s.results)
  }

  /**
   * The budget plus the work in flight never exceeds the per-tick limit, and
   * equals it while parts are still queued. A negative limit hands out
   * nothing at all.
   */
  ghost predicate BudgetInvariant(s: TaskState)
  {
    if s.chunksPerIteration >= 0 then
      && 0 <= s.iterationChunks
      && s.iterationChunks + |s.inFlight| <= s.chunksPerIteration
      && (s.scanQueue != [] ==> s.iterationChunks + |s.inFlight| == s.chunksPerIteration)
    else
      && s.inFlight == []
      && s.dispatched == 0
      && s.iterationChunks >= s.chunksPerIteration
  }

  /** Reports all count the same total, never run ahead of the completions and never go back. */
  ghost predicate ProgressInvariant(s: TaskState)
  {
    && (forall i :: 0 <= i < |s.infos| ==> s.infos[i].chunks == s.chunkCount && 0 <= s.infos[i].chunksDone <= s.chunks)
    && (forall i, j :: 0 <= i < j < |s.infos| ==> s.infos[i].chunksDone <= s.infos[j].chunksDone)
  }

  /**
   * The aggregate is handed over once, when the timer is cancelled, and only
   * after every part has come back; the last report then says so.
   */
  ghost predicate LifecycleInvariant(s: TaskState)
  {
    && (s.task == Cancelled <==> s.delivered != [])
    && (s.task == Cancelled ==>
          && s.chunks == s.chunkCount
          && s.delivered == [s.distributionStorage]
          && s.infos != []
          && s.infos[|s.infos| - 1] == Info(s.chunkCount, s.chunkCount))
  }

  ghost predicate Invariant(s: TaskState)
  {
    && QueueInvariant(s)
    && AggregateInvariant(s)
    && BudgetInvariant(s)
    && ProgressInvariant(s)
    && LifecycleInvariant(s)
  }

  /** A new task meets the invariant. */
  lemma InitialInvariant(chunkParts: seq<ChunkPart>, chunksPerIteration: int, infoTimeoutMillis: int)
    ensures Invariant(Initial(chunkParts, chunksPerIteration, infoTimeoutMillis))
  {
    assert chunkParts[..0] == [];
  }

  lemma SendInfoKeepsInvariant(s: TaskState)
    requires Invariant(s)
    ensures Invariant(AfterSendInfo(s))
  {
  }

  lemma CheckNotifyKeepsInvariant(s: TaskState, now: int)
    requires Invariant(s)
    ensures Invariant(AfterCheckNotify(s, now))
  {
    if s.lastInfo + s.infoTimeout < now {
      SendInfoKeepsInvariant(s.(lastInfo := now));
    }
  }

  /** Cancelling once every part came back hands over the aggregate and reports completion. */
  lemma CancelKeepsInvariant(s: TaskState)
    requires Invariant(s) && s.chunks == s.chunkCount && s.task != Cancelled
    ensures Invariant(AfterCancel(s))
  {
  }

  /** Taking the budget and dispatching keeps every part accounted for and the budget bounded. */
  lemma IterateKeepsInvariant(s: TaskState)
    requires Invariant(s)
    ensures Invariant(AfterIterate(s))
  {
    var budget := Min(s.iterationChunks, s.chunksPerIteration);
    if budget != 0 {
      var n := DispatchCount(budget, |s.scanQueue|);
      assert s.parts[..s.dispatched + n] == s.parts[..s.dispatched] + s.scanQueue[..n];
    }
  }

  /** A tick of a running task keeps the invariant. */
  lemma TickKeepsInvariant(s: TaskState, now: int)
    requires Invariant(s) && s.task == Scheduled
    ensures Invariant(AfterTick(s, now))
  {
    CheckNotifyKeepsInvariant(s, now);
    var notified := AfterCheckNotify(s, now);
    if notified.chunks == notified.chunkCount {
      CancelKeepsInvariant(notified);
    } else {
      IterateKeepsInvariant(notified);
    }
  }

  /** A completion keeps the invariant: the part moves from in flight to completed. */
  lemma CompleteKeepsInvariant(s: TaskState, k: nat, storage: Distribution)
    requires Invariant(s) && k < |s.inFlight|
    ensures Invariant(AfterComplete(s, k, storage))
  {
    var s' := AfterComplete(s, k, storage);
    assert s.inFlight == s.inFlight[..k] + [s.inFlight[k]] + s.inFlight[k + 1..];
    assert s'.results[..|s'.results| - 1] == s.results;
  }

  /**
   * A tick of an unfinished task takes the budget `min(iterationChunks,
   * chunksPerIteration)` off `iterationChunks` and moves parts from the front
   * of the queue, in order, to the end of the work in flight: as many as the
   * budget allows, or all that were left, and none when the budget is not
   * positive. No completion is counted and nothing is handed over.
   */
  lemma TickDispatches(s: TaskState, now: int)
    requires s.task == Scheduled && s.chunks != s.chunkCount
    ensures var t := AfterTick(s, now);
            var budget := Min(s.iterationChunks, s.chunksPerIteration);
            var n := |s.scanQueue| - |t.scanQueue|;
            && t.task == Scheduled && t.delivered == s.delivered
            && t.chunks == s.chunks && t.distributionStorage == s.distributionStorage
            && t.iterationChunks == s.iterationChunks - budget
            && 0 <= n <= |s.scanQueue|
            && t.scanQueue == s.scanQueue[n..]
            && t.inFlight == s.inFlight + s.scanQueue[..n]
            && (budget <= 0 ==> n == 0)
            && (budget > 0 ==> n <= budget && (n < budget ==> t.scanQueue == []))
  {
    var notified := AfterCheckNotify(s, now);
    assert notified.scanQueue == s.scanQueue && notified.inFlight == s.inFlight;
    assert notified.iterationChunks == s.iterationChunks && notified.chunks == s.chunks;
    assert AfterTick(s, now) == AfterIterate(notified);
  }

  /**
   * A tick of a running task whose parts have all come back cancels the
   * timer, sends a last report of completion and hands the aggregate over.
   */
  lemma TickFinishes(s: TaskState, now: int)
    requires Invariant(s) && s.task == Scheduled && s.chunks == s.chunkCount
    ensures var t := AfterTick(s, now);
            && t.task == Cancelled
            && t.delivered == [s.distributionStorage]
            && t.infos[|t.infos| - 1] == Info(s.chunkCount, s.chunkCount)
            && t.scanQueue == [] && t.inFlight == []
  {
  }

  /**
   * With a positive per-tick limit, a tick of a task with parts queued and
   * none in flight hands out as many parts as the limit allows: the scan
   * never stalls.
   */
  lemma TickMakesProgress(s: TaskState, now: int)
    requires Invariant(s) && s.task == Scheduled
    requires s.chunksPerIteration > 0 && s.scanQueue != [] && s.inFlight == []
    ensures |AfterTick(s, now).inFlight| == Min(s.chunksPerIteration, |s.scanQueue|)
  {
    assert s.chunks != s.chunkCount;
  }

  /**
   * With a per-tick limit of zero or less, a tick of an unfinished task hands
   * out nothing and nothing is in flight, so no completion can come and the
   * task never finishes.
   */
  lemma NonPositiveLimitStalls(s: TaskState, now: int)
    requires Invariant(s) && s.task == Scheduled
    requires s.chunksPerIteration <= 0 && s.chunks != s.chunkCount
    ensures s.inFlight == []
    ensures var t := AfterTick(s, now);
            && t.task == Scheduled && t.chunks == s.chunks
            && t.scanQueue == s.scanQueue && t.inFlight == []
  {
    var notified := AfterCheckNotify(s, now);
    assert notified.scanQueue == s.scanQueue && notified.inFlight == s.inFlight;
    assert notified.iterationChunks == s.iterationChunks && notified.chunks == s.chunks;
  }

  /** A finished task has scanned every part exactly once. */
  lemma AllPartsCompleted(s: TaskState)
    requires Invariant(s) && s.task == Cancelled
    ensures s.scanQueue == [] && s.inFlight == []
    ensures multiset(s.completed) == multiset(s.parts)
  {
    assert s.parts[..|s.parts|] == s.parts;
  }

  /**
   * When the executor's storage for each part is `scan` of that part, a
   * finished task has handed over the merge of all parts' storages, taken in
   * queue order, whatever the order the completions came in.
   */
  lemma FinalAggregate(s: TaskState, scan: ChunkPart -> Distribution)
    requires Invariant(s) && s.task == Cancelled
    requires forall i :: 0 <= i < |s.results| ==> s.results[i] == scan(s.completed[i])
    ensures s.delivered == [MergeAll(Scanned(scan, s.parts))]
  {
    AllPartsCompleted(s);
    AggregateIsOrderIndependent(scan, s.parts, s.completed, s.results);
  }

  /** A scan of no parts finishes, with an empty aggregate, on its first tick. */
  lemma EmptyScanFinishesOnFirstTick(chunksPerIteration: int, infoTimeoutMillis: int, now: int)
    ensures var t := AfterTick(AfterStart(Initial([], chunksPerIteration, infoTimeoutMillis)), now);
            && t.task == Cancelled
            && t.delivered == [map[]]
            && t.infos[|t.infos| - 1] == Info(0, 0)
  {
  }

  class ScanTask {
    /** The parts not yet handed to the executor, in queue order. */
    var scanQueue: seq<ChunkPart>
    /** The running aggregate of every storage that came back. */
    var distributionStorage: Distribution
    const chunksPerIteration: int
    /** The progress interval, in nanoseconds. */
    const infoTimeout: int
    /** The budget of parts that may still be handed out. */
    var iterationChunks: int
    /** The number of parts whose storage came back. */
    var chunks: int
    const chunkCount: int
    var lastInfo: int
    var task: TaskHandle
    /** The parts handed to the executor whose storage has not come back yet. */
    var inFlight: seq<ChunkPart>
    /** Every report given to the info consumer, in order. */
    var infos: seq<Info>
    /** Every aggregate given to the distribution consumer. */
    var delivered: seq<Distribution>

    /** The parts the task was created with. */
    ghost const parts: seq<ChunkPart>
    /** How many parts have been taken off the queue. */
    ghost var dispatched: nat
    /** The parts whose storage came back, in completion order. */
    ghost var completed: seq<ChunkPart>
    /** The storages that came back, in completion order. */
    ghost var results: seq<Distribution>

    ghost function State(): TaskState
      reads this
    {
      TaskState(parts, chunksPerIteration, infoTimeout, chunkCount, scanQueue, distributionStorage,
                iterationChunks, chunks, lastInfo, task, inFlight, infos, delivered,
                dispatched, completed, results)
    }

    ghost predicate Valid()
      reads this
    {
      Invariant(State())
    }

    constructor (chunkParts: seq<ChunkPart>, chunksPerIteration: int, infoTimeoutMillis: int)
      ensures State() == Initial(chunkParts, chunksPerIteration, infoTimeoutMillis)
      ensures Valid()
    {
      scanQueue := chunkParts;
      distributionStorage := map[];
      this.chunksPerIteration := chunksPerIteration;
      infoTimeout := infoTimeoutMillis * NanosPerMilli;
      iterationChunks := chunksPerIteration;
      chunkCount := |chunkParts|;
      chunks := 0;
      lastInfo := 0;
      task := Unscheduled;
      inFlight := [];
      infos := [];
      delivered := [];
      parts := chunkParts;
      dispatched := 0;
      completed := [];
      results := [];
      InitialInvariant(chunkParts, chunksPerIteration, infoTimeoutMillis);
    }

    /** `start`: schedule the repeating timer; called once, right after construction. */
    method Start()
      requires Valid() && task == Unscheduled
      modifies this`task
      ensures State() == AfterStart(old(State()))
      ensures Valid()
    {
      task := Scheduled;
    }

    method SendInfo()
      modifies this`infos
      ensures State() == AfterSendInfo(old(State()))
    {
      infos := infos + [Info(chunks, chunkCount)];
    }

    method CheckNotify(now: int)
      modifies this`lastInfo, this`infos
      ensures State() == AfterCheckNotify(old(State()), now)
    {
      if lastInfo + infoTimeout < now {
        lastInfo := now;
        SendInfo();
      }
    }

    method Cancel()
      modifies this`task, this`infos, this`delivered
      ensures State() == AfterCancel(old(State()))
    {
      if task != Unscheduled {
        task := Cancelled;
        SendInfo();
        delivered := delivered + [distributionStorage];
      }
    }

    /** `run`: one tick of the timer at time `now`. */
    method Tick(now: int)
      requires Valid() && task == Scheduled
      modifies this`lastInfo, this`infos, this`task, this`delivered
      modifies this`iterationChunks, this`scanQueue, this`inFlight, this`dispatched
      ensures State() == AfterTick(old(State()), now)
      ensures Valid()
    {
      TickKeepsInvariant(State(), now);
      CheckNotify(now);
      if chunks == chunkCount {
        Cancel();
        return;
      }
      Iterate();
    }

    method Iterate()
      modifies this`iterationChunks, this`scanQueue, this`inFlight, this`dispatched
      ensures State() == AfterIterate(old(State()))
    {
      var previouslyDone := iterationChunks;
      var chunkIterations := Min(previouslyDone, chunksPerIteration);
      if chunkIterations == 0 {
        return;
      }
      iterationChunks := iterationChunks - chunkIterations;
      Dispatch(chunkIterations);
    }

    method Dispatch(budget: int)
      modifies this`scanQueue, this`inFlight, this`dispatched
      ensures State() == AfterDispatch(old(State()), budget)
    {
      ghost var queued, pending, taken := scanQueue, inFlight, dispatched;
      var i := 0;
      while i < budget
        invariant 0 <= i <= |queued|
        invariant budget <= 0 ==> i == 0
        invariant budget > 0 ==> i <= budget
        invariant scanQueue == queued[i..]
        invariant inFlight == pending + queued[..i]
        invariant dispatched == taken + i
        decreases budget - i
      {
        if scanQueue == [] {
          break;
        }
        Submit();
        i := i + 1;
      }
      assert i == DispatchCount(budget, |queued|);
    }

    /** Take the part at the head of the queue and submit it to the executor. */
    method Submit()
      requires scanQueue != []
      modifies this`scanQueue, this`inFlight, this`dispatched
      ensures scanQueue == old(scanQueue[1..])
      ensures inFlight == old(inFlight) + [old(scanQueue[0])]
      ensures dispatched == old(dispatched) + 1
    {
      var chunkPart := scanQueue[0];
      scanQueue := scanQueue[1..];
      inFlight := inFlight + [chunkPart];
      dispatched := dispatched + 1;
    }

    /** The storage of the in-flight part `k` came back. */
    method Complete(k: nat, storage: Distribution)
      requires Valid() && k < |inFlight|
      modifies this`inFlight, this`distributionStorage, this`iterationChunks, this`chunks
      modifies this`completed, this`results
      ensures State() == AfterComplete(old(State()), k, storage)
      ensures Valid()
    {
      CompleteKeepsInvariant(State(), k, storage);
      var part := inFlight[k];
      inFlight := inFlight[..k] + inFlight[k + 1..];
      distributionStorage := Merge(distributionStorage, storage);
      iterationChunks := iterationChunks + 1;
      chunks := chunks + 1;
      completed := completed + [part];
      results := results + [storage];
    }
  }

  /** The players with a scan running, and the display of a finished scan. */
  class Scanners {
    var scanning: set<Uuid>

    constructor ()
      ensures scanning == {}
    {
      scanning := {};
    }

    /**
     * `scanAndDisplay`: a player already scanning is refused and nothing
     * changes; otherwise the player is marked as scanning and their scan is
     * created and started.
     */
    method ScanAndDisplay(uuid: Uuid, chunkParts: seq<ChunkPart>, chunksPerIteration: int, infoTimeoutMillis: int)
      returns (started: Option<ScanTask>)
      modifies this
      ensures uuid in old(scanning) ==> started == None && scanning == old(scanning)
      ensures uuid !in old(scanning) ==>
                && scanning == old(scanning) + {uuid}
                && started.Some? && fresh(started.value)
                && started.value.Valid()
                && started.value.State() == AfterStart(Initial(chunkParts, chunksPerIteration, infoTimeoutMillis))
    {
      if uuid in scanning {
        return None;
      }
      scanning := scanning + {uuid};
      var t := new ScanTask(chunkParts, chunksPerIteration, infoTimeoutMillis);
      t.Start();
      started := Some(t);
    }

    /**
     * The consumer of a finished scan: list the items to display, in the
     * order shown, and mark the player as no longer scanning.
     */
    method ScanFinished(uuid: Uuid, storage: Distribution, items: Option<set<ScanObject>>, displayZeros: bool)
      returns (ghost displayed: seq<ScanObject>)
      modifies this
      ensures displayed == Display.DisplayItems(storage, items, displayZeros)
      ensures scanning == old(scanning) - {uuid}
    {
      displayed := Display.DisplayItems(storage, items, displayZeros);
      scanning := scanning - {uuid};
    }
  }
}
