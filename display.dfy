/**
 * The list a finished scan shows its player: the candidate items (the ones
 * asked for, or every key of the aggregate when none were named), without
 * those counted zero unless zeros are to be shown, sorted by name.
 */
module Display {
  import opened Wrappers
  import opened Storage
  import opened Sequences

  /**
   * `a.compareTo(b) <= 0` on names: lexicographic, character by character,
   * where a proper prefix comes first.
   */
  predicate NameLe(a: string, b: string)
    decreases |a|
  {
    a == [] || (b != [] && (a[0] < b[0] || (a[0] == b[0] && NameLe(a[1..], b[1..]))))
  }

  /**
   * The textbook lexicographic order: `a` is a prefix of `b`, or at the
   * first place where they differ `a` has the smaller character.
   */
  ghost predicate Lexicographic(a: string, b: string)
  {
    a <= b || exists k :: 0 <= k < |a| && k < |b| && a[..k] == b[..k] && a[k] < b[k]
  }

  /** The recursive comparison is the lexicographic order. */
  lemma {:induction false} NameLeIsLexicographic(a: string, b: string)
    ensures NameLe(a, b) <==> Lexicographic(a, b)
    decreases |a|
  {
    if a == [] || b == [] {
    } else if a[0] < b[0] {
      assert a[..0] == b[..0];
    } else if a[0] == b[0] {
      var a', b' := a[1..], b[1..];
      NameLeIsLexicographic(a', b');
      assert a == [a[0]] + a' && b == [b[0]] + b';
      assert a <= b <==> a' <= b';
      if k :| 0 <= k < |a'| && k < |b'| && a'[..k] == b'[..k] && a'[k] < b'[k] {
        assert a[..k + 1] == [a[0]] + a'[..k];
        assert b[..k + 1] == [b[0]] + b'[..k];
        assert a[k + 1] < b[k + 1];
      }
      if k :| 0 <= k < |a| && k < |b| && a[..k] == b[..k] && a[k] < b[k] {
        assert k > 0;
        assert a'[..k - 1] == a[..k][1..];
        assert b'[..k - 1] == b[..k][1..];
        assert a'[k - 1] < b'[k - 1];
      }
    }
  }

  lemma {:induction false} NameLeReflexive(a: string)
    ensures NameLe(a, a)
    decreases |a|
  {
    if a != [] {
      NameLeReflexive(a[1..]);
    }
  }

  /** Any two names are comparable. */
  lemma {:induction false} NameLeTotal(a: string, b: string)
    ensures NameLe(a, b) || NameLe(b, a)
    decreases |a|
  {
    if a != [] && b != [] && a[0] == b[0] {
      NameLeTotal(a[1..], b[1..]);
    }
  }

  lemma {:induction false} NameLeTransitive(a: string, b: string, c: string)
    requires NameLe(a, b) && NameLe(b, c)
    ensures NameLe(a, c)
    decreases |a|
  {
    if a != [] && a[0] == b[0] && b[0] == c[0] {
      NameLeTransitive(a[1..], b[1..], c[1..]);
    }
  }

  /** Two names that compare equal are the same name. */
  lemma {:induction false} NameLeAntisymmetric(a: string, b: string)
    requires NameLe(a, b) && NameLe(b, a)
    ensures a == b
    decreases |a|
  {
    if a != [] {
      NameLeAntisymmetric(a[1..], b[1..]);
      assert a == [a[0]] + a[1..];
      assert b == [b[0]] + b[1..];
    }
  }

  ghost predicate IsFirstByName(m: ScanObject, s: set<ScanObject>)
  {
    m in s && forall y :: y in s ==> NameLe(m.name, y.name)
  }

  /** A non-empty set of scan objects has an item whose name comes first. */
  lemma {:induction false} FirstByNameExists(s: set<ScanObject>)
    requires s != {}
    ensures exists m :: IsFirstByName(m, s)
    decreases |s|
  {
    var x :| x in s;
    NameLeReflexive(x.name);
    if s == {x} {
      assert IsFirstByName(x, s);
    } else {
      FirstByNameExists(s - {x});
      var m :| IsFirstByName(m, s - {x});
      NameLeTotal(m.name, x.name);
      if NameLe(m.name, x.name) {
        assert IsFirstByName(m, s);
      } else {
        forall y | y in s
          ensures NameLe(x.name, y.name)
        {
          if y != x {
            NameLeTransitive(x.name, m.name, y.name);
          }
        }
        assert IsFirstByName(x, s);
      }
    }
  }

  ghost predicate SortedByName(r: seq<ScanObject>)
  {
    forall i, j :: 0 <= i < j < |r| ==> NameLe(r[i].name, r[j].name)
  }

  /**
   * `stream().sorted(Comparator.comparing(ScanObject::name))` on a set: each
   * item once, in name order. Items with equal names may come in either
   * order, as the set's iteration order decides between them.
   */
  ghost function SortByName(s: set<ScanObject>): (r: seq<ScanObject>)
    ensures forall x :: x in r <==> x in s
    ensures |r| == |s|
    ensures Distinct(r)
    ensures SortedByName(r)
    decreases |s|
  {
    if s == {} then []
    else
      FirstByNameExists(s);
      var m :| IsFirstByName(m, s);
      var rest := SortByName(s - {m});
      PrependFirst(m, s, rest);
      [m] + rest
  }

  /** Putting the first item by name in front of a sorted list of the others keeps it sorted. */
  lemma PrependFirst(m: ScanObject, s: set<ScanObject>, rest: seq<ScanObject>)
    requires IsFirstByName(m, s)
    requires forall x :: x in rest <==> x in s - {m}
    requires Distinct(rest) && SortedByName(rest)
    ensures Distinct([m] + rest) && SortedByName([m] + rest)
  {
    var r := [m] + rest;
    forall i, j | 0 <= i < j < |r|
      ensures r[i] != r[j] && NameLe(r[i].name, r[j].name)
    {
      assert r[j] == rest[j - 1];
      if i > 0 {
        assert r[i] == rest[i - 1];
      } else {
        assert rest[j - 1] in rest;
      }
    }
  }

  /** `items == null ? storage.keys() : items`. */
  function Candidates(storage: Distribution, items: Option<set<ScanObject>>): (r: set<ScanObject>)
    ensures items.Some? ==> r == items.value
    ensures items.None? ==> r == storage.Keys
  {
    if items.None? then storage.Keys else items.value
  }

  /** The items a finished scan lists, in the order it lists them. */
  ghost function DisplayItems(storage: Distribution, items: Option<set<ScanObject>>, displayZeros: bool): (r: seq<ScanObject>)
    ensures forall x :: x in r <==> x in Candidates(storage, items) && (Count(storage, x) != 0 || displayZeros)
    ensures Distinct(r)
    ensures SortedByName(r)
  {
    SortByName(set x | x in Candidates(storage, items) && (Count(storage, x) != 0 || displayZeros))
  }
}
