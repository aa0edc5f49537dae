/** Shared vocabulary: identifiers, options, sums over finite maps, and outside outcomes. */
module Base {
  /** UUIDs and other opaque identifiers. */
  type Id = string

  datatype Option<+T> = None | Some(value: T)

  /** There is always another identifier: one longer than all in use. */
  lemma {:induction false} FreshString(used: set<string>) returns (s: string)
    ensures s !in used && s != ""
  {
    var n := LongerThanAll(used);
    s := seq(n + 1, _ => 'x');
    assert |s| > n;
  }

  lemma {:induction false} LongerThanAll(used: set<string>) returns (n: nat)
    ensures forall s :: s in used ==> |s| <= n
    decreases |used|
  {
    if used == {} {
      n := 0;
    } else {
      var s :| s in used;
      n := LongerThanAll(used - {s});
      n := if |s| > n then |s| else n;
    }
  }

  lemma {:induction false} PrefixOfPrefix<T>(s: seq<T>, n: nat)
    requires n < |s|
    ensures s[..n + 1][..n] == s[..n] && s[..n + 1][n] == s[n]
  {}

  /** The sum of all values of a finite map. */
  ghost function Total(m: map<Id, int>): int
    decreases |m|
  {
    if m == map[] then 0
    else
      var k :| k in m;
      assert (m - {k}).Keys == m.Keys - {k};
      m[k] + Total(m - {k})
  }

  /** Any key may be split off: the sum does not depend on the order of addition. */
  lemma {:induction false} TotalSplit(m: map<Id, int>, k: Id)
    requires k in m
    ensures Total(m) == m[k] + Total(m - {k})
    decreases |m|
  {
    var j :| j in m && Total(m) == m[j] + Total(m - {j});
    if j != k {
      assert (m - {j}).Keys == m.Keys - {j} && (m - {k}).Keys == m.Keys - {k};
      TotalSplit(m - {j}, k);
      TotalSplit(m - {k}, j);
      assert m - {j} - {k} == m - {k} - {j};
    }
  }

  lemma {:induction false} TotalAdd(m: map<Id, int>, k: Id, v: int)
    requires k !in m
    ensures Total(m[k := v]) == Total(m) + v
  {
    TotalSplit(m[k := v], k);
    assert m[k := v] - {k} == m;
  }

  lemma {:induction false} TotalReplace(m: map<Id, int>, k: Id, v: int)
    requires k in m
    ensures Total(m[k := v]) == Total(m) - m[k] + v
  {
    TotalSplit(m, k);
    TotalSplit(m[k := v], k);
    assert m[k := v] - {k} == m - {k};
  }

  lemma {:induction false} TotalUnion(a: map<Id, int>, b: map<Id, int>)
    requires a.Keys !! b.Keys
    ensures Total(a + b) == Total(a) + Total(b)
    decreases |b|
  {
    if b == map[] {
      assert a + b == a;
    } else {
      var k :| k in b;
      assert (b - {k}).Keys == b.Keys - {k};
      TotalUnion(a, b - {k});
      TotalSplit(b, k);
      TotalSplit(a + b, k);
      UnionMinus(a, b, k);
    }
  }

  lemma UnionMinus(a: map<Id, int>, b: map<Id, int>, k: Id)
    requires k !in a
    ensures a + b - {k} == a + (b - {k})
  {}

  ghost predicate NonNegative(m: map<Id, int>) {
    forall k :: k in m ==> m[k] >= 0
  }

  /** Lowering some values lowers the sum. */
  lemma {:induction false} TotalLowers(a: map<Id, int>, b: map<Id, int>)
    requires a.Keys == b.Keys && forall k :: k in a ==> a[k] <= b[k]
    ensures Total(a) <= Total(b)
    ensures forall k :: k in a && a[k] < b[k] ==> Total(a) < Total(b)
    decreases |a|
  {
    if k :| k in a && a[k] < b[k] {
      SplitBoth(a, b, k);
      TotalLowers(a - {k}, b - {k});
    } else if k :| k in a {
      SplitBoth(a, b, k);
      TotalLowers(a - {k}, b - {k});
    } else {
      assert a == b;
    }
  }

  lemma {:induction false} SplitBoth(a: map<Id, int>, b: map<Id, int>, k: Id)
    requires k in a && k in b
    ensures Total(a) == a[k] + Total(a - {k}) && Total(b) == b[k] + Total(b - {k})
    ensures |a - {k}| < |a|
  {
    TotalSplit(a, k);
    TotalSplit(b, k);
    assert (a - {k}).Keys == a.Keys - {k};
  }

  /** Dropping keys of a map of non-negative values never raises the sum. */
  lemma {:induction false} TotalMonotone(part: map<Id, int>, whole: map<Id, int>)
    requires NonNegative(whole)
    requires part.Keys <= whole.Keys && forall k :: k in part ==> part[k] == whole[k]
    ensures 0 <= Total(part) <= Total(whole)
    decreases |whole|
  {
    if whole != map[] {
      var k :| k in whole;
      TotalSplit(whole, k);
      assert (whole - {k}).Keys == whole.Keys - {k};
      if k in part {
        TotalSplit(part, k);
        TotalMonotone(part - {k}, whole - {k});
      } else {
        TotalMonotone(part, whole - {k});
      }
    } else {
      assert part == map[];
    }
  }

  /** The list says yes at place `n`; where it ends it says no. */
  predicate FaultAt(answers: seq<bool>, n: nat) {
    n < |answers| && answers[n]
  }

  /** A source of outcomes outside the program: the acquirer's answers, the database's failures. */
  class Oracle {
    var answers: seq<bool>

    constructor (answers: seq<bool>)
      ensures this.answers == answers
    {
      this.answers := answers;
    }

    method Next() returns (b: bool)
      modifies this
      ensures b == FaultAt(old(answers), 0)
      ensures forall n: nat :: FaultAt(answers, n) == FaultAt(old(answers), n + 1)
    {
      b := answers != [] && answers[0];
      if answers != [] { answers := answers[1..]; }
    }
  }
}
