/** Aggregates over a table, as SQL's SUM computes them. */
module Sums {
  function SumBy<T>(s: seq<T>, f: T -> int): int {
    if s == [] then 0 else SumBy(s[..|s| - 1], f) + f(s[|s| - 1])
  }

  function Grow<T>(s: seq<T>, applies: bool, x: T): seq<T> {
    if applies then s + [x] else s
  }

  lemma SumAppend<T>(s: seq<T>, x: T, f: T -> int)
    ensures SumBy(s + [x], f) == SumBy(s, f) + f(x)
  {
    assert (s + [x])[..|s|] == s;
  }

  lemma SumOfTwo<T>(x: T, y: T, f: T -> int)
    ensures SumBy([x], f) == f(x) && SumBy([x] + [y], f) == f(x) + f(y)
  {
    assert SumBy([], f) == 0;
    assert [x][..0] == [];
    SumAppend([x], y, f);
  }

  lemma {:induction false} SumUpdate<T>(s: seq<T>, i: nat, x: T, f: T -> int)
    requires i < |s|
    ensures SumBy(s[i := x], f) == SumBy(s, f) - f(s[i]) + f(x)
  {
    var n := |s| - 1;
    if i == n {
      assert s[i := x][..n] == s[..n];
    } else {
      SumUpdate(s[..n], i, x, f);
      assert s[i := x][..n] == s[..n][i := x];
    }
  }

  lemma {:induction false} SumNonNegative<T>(s: seq<T>, f: T -> int)
    requires forall k :: 0 <= k < |s| ==> f(s[k]) >= 0
    ensures SumBy(s, f) >= 0
  {
    if s != [] {
      SumNonNegative(s[..|s| - 1], f);
    }
  }

  lemma {:induction false} SumLessEqual<T>(s: seq<T>, f: T -> int, g: T -> int)
    requires forall k :: 0 <= k < |s| ==> f(s[k]) <= g(s[k])
    ensures SumBy(s, f) <= SumBy(s, g)
  {
    if s != [] {
      SumLessEqual(s[..|s| - 1], f, g);
    }
  }

  lemma {:induction false} SumSplit<T>(s: seq<T>, f: T -> int, g: T -> int, h: T -> int)
    requires forall k :: 0 <= k < |s| ==> f(s[k]) == g(s[k]) + h(s[k])
    ensures SumBy(s, f) == SumBy(s, g) + SumBy(s, h)
  {
    if s != [] {
      SumSplit(s[..|s| - 1], f, g, h);
    }
  }

  /** The sum over the rows at the given positions. */
  function SumAmong<T>(s: seq<T>, among: set<nat>, f: T -> int): int {
    if s == [] then 0
    else SumAmong(s[..|s| - 1], among, f) + if |s| - 1 in among then f(s[|s| - 1]) else 0
  }

  lemma AmongAppend<T>(s: seq<T>, x: T, among: set<nat>, f: T -> int)
    ensures SumAmong(s + [x], among, f) == SumAmong(s, among, f) + if |s| in among then f(x) else 0
  {
    assert (s + [x])[..|s|] == s;
  }

  /** A row is replaced and may join or leave the positions; all others stay. */
  lemma {:induction false} AmongUpdate<T>(s: seq<T>, i: nat, x: T, among: set<nat>, among': set<nat>, f: T -> int)
    requires forall k :: k != i ==> (k in among <==> k in among')
    ensures i < |s| ==> SumAmong(s[i := x], among', f)
                        == SumAmong(s, among, f) - (if i in among then f(s[i]) else 0)
                           + (if i in among' then f(x) else 0)
    ensures i >= |s| ==> SumAmong(s, among', f) == SumAmong(s, among, f)
  {
    if s != [] {
      var n := |s| - 1;
      AmongUpdate(s[..n], i, x, among, among', f);
      if i < n {
        assert s[i := x][..n] == s[..n][i := x];
      } else if i == n {
        assert s[i := x][..n] == s[..n];
      }
    }
  }

  /** Positions that differ carry nothing. */
  lemma {:induction false} AmongSame<T>(s: seq<T>, among: set<nat>, among': set<nat>, f: T -> int)
    requires forall k :: 0 <= k < |s| ==> (k in among <==> k in among') || f(s[k]) == 0
    ensures SumAmong(s, among, f) == SumAmong(s, among', f)
  {
    if s != [] {
      AmongSame(s[..|s| - 1], among, among', f);
    }
  }

  lemma {:induction false} AmongNonNegative<T>(s: seq<T>, among: set<nat>, f: T -> int)
    requires forall k :: 0 <= k < |s| ==> f(s[k]) >= 0
    ensures SumAmong(s, among, f) >= 0
  {
    if s != [] {
      AmongNonNegative(s[..|s| - 1], among, f);
    }
  }

  lemma {:induction false} AmongNone<T>(s: seq<T>, f: T -> int)
    ensures SumAmong(s, {}, f) == 0
  {
    if s != [] {
      AmongNone(s[..|s| - 1], f);
    }
  }

  /** A sum over all rows that counts g on some and nothing on the others is a sum of g over those. */
  lemma {:induction false} SumIsAmong<T>(s: seq<T>, f: T -> int, among: set<nat>, g: T -> int)
    requires forall k :: 0 <= k < |s| ==> f(s[k]) == if k in among then g(s[k]) else 0
    ensures SumBy(s, f) == SumAmong(s, among, g)
  {
    if s != [] {
      SumIsAmong(s[..|s| - 1], f, among, g);
    }
  }
}
