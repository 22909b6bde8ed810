/** Sums over sequences of integers, and the small facts about them that the money modules share. */
module Sequences {

  datatype Option<+T> = None | Some(value: T)

  datatype Result<+T, +E> = Ok(value: T) | Err(error: E)

  function Abs(x: int): nat {
    if x < 0 then -x else x
  }

  function Min(x: int, y: int): int {
    if x < y then x else y
  }

  function Max(x: int, y: int): int {
    if x < y then y else x
  }

  function Sum(s: seq<int>): int {
    if s == [] then 0 else s[0] + Sum(s[1..])
  }

  lemma {:induction false} SumAppend(a: seq<int>, b: seq<int>)
    ensures Sum(a + b) == Sum(a) + Sum(b)
  {
    if a == [] {
      assert a + b == b;
    } else {
      assert (a + b)[1..] == a[1..] + b;
      SumAppend(a[1..], b);
    }
  }

  lemma {:induction false} SumUpdate(s: seq<int>, i: nat, v: int)
    requires i < |s|
    ensures Sum(s[i := v]) == Sum(s) - s[i] + v
  {
    if i == 0 {
      assert s[0 := v][1..] == s[1..];
    } else {
      assert s[i := v][1..] == s[1..][i - 1 := v];
      SumUpdate(s[1..], i - 1, v);
    }
  }

  lemma {:induction false} SumBounds(s: seq<int>, lo: int, hi: int)
    requires forall i :: 0 <= i < |s| ==> lo <= s[i] <= hi
    ensures lo * |s| <= Sum(s) <= hi * |s|
  {
    if s != [] {
      SumBounds(s[1..], lo, hi);
      assert lo * |s| == lo + lo * (|s| - 1) && hi * |s| == hi + hi * (|s| - 1);
    }
  }

  ghost predicate Distinct<T>(s: seq<T>) {
    forall i, j :: 0 <= i < j < |s| ==> s[i] != s[j]
  }

  /** `[...new Set(ids)]`: first occurrences, in order. */
  function Dedup(ids: seq<nat>): (r: seq<nat>)
    ensures Distinct(r)
    ensures forall u :: u in r <==> u in ids
    ensures |r| <= |ids|
  {
    if ids == [] then []
    else
      var front := Dedup(ids[..|ids| - 1]);
      var last := ids[|ids| - 1];
      assert ids == ids[..|ids| - 1] + [last];
      if last in front then front else front + [last]
  }

  /** Where a value first stands in a sequence that has it. */
  function FirstAt(ids: seq<nat>, u: nat): (i: nat)
    requires u in ids
    ensures i < |ids| && ids[i] == u && forall j :: 0 <= j < i ==> ids[j] != u
  {
    if ids[0] == u then 0 else 1 + FirstAt(ids[1..], u)
  }

  /** Duplicates go, and what is left stands in the order of first appearance. */
  lemma {:induction false} DedupKeepsOrder(ids: seq<nat>, i: nat, j: nat)
    requires i < j < |Dedup(ids)|
    ensures FirstAt(ids, Dedup(ids)[i]) < FirstAt(ids, Dedup(ids)[j])
  {
    var n := |ids| - 1;
    var front, r := Dedup(ids[..n]), Dedup(ids);
    assert r[i] in front && r[i] == front[i];
    FirstInFront(ids, n, r[i]);
    if j < |front| {
      DedupKeepsOrder(ids[..n], i, j);
      FirstInFront(ids, n, r[j]);
    } else {
      assert r[j] == ids[n] && r[j] !in front;
      assert forall x :: 0 <= x < n ==> ids[x] == ids[..n][x] && ids[x] in front;
    }
  }

  lemma FirstInFront(ids: seq<nat>, n: nat, u: nat)
    requires n <= |ids| && u in ids[..n]
    ensures u in ids && FirstAt(ids, u) == FirstAt(ids[..n], u)
  {
    var k := FirstAt(ids[..n], u);
    assert ids[k] == u;
    forall j | 0 <= j < k ensures ids[j] != u {
      assert ids[..n][j] != u;
    }
  }

  /** A number above all of a finite set. */
  lemma {:induction false} FreshAbove(ids: set<nat>) returns (id: nat)
    ensures forall x :: x in ids ==> x < id
    decreases |ids|
  {
    if x :| x in ids {
      var above := FreshAbove(ids - {x});
      id := if above <= x then x + 1 else above;
      forall y | y in ids ensures y < id {
        assert y == x || y in ids - {x};
      }
    } else {
      id := 0;
    }
  }
}
