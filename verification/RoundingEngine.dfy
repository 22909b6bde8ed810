/**
 * Largest-remainder distribution of a total, in minor units, across integer weights.
 * `Apportion` is the specification; `DistributeMinorByWeights` is the loop that computes it.
 */
module RoundingEngine {
  import opened Sequences
  import opened Decimals
  import Sorting

  datatype RoundingError =
    | SumOfWeightsNotPositive
    | NegativeTotal
    | AllocationInvariantFailed
    | BadScale
    | NegativeWeight
    | CountNotPositive

  // ---------- BigInt division: truncates toward zero, the remainder takes the dividend's sign

  function TruncDiv(a: int, b: int): int
    requires b > 0
  {
    if a >= 0 then a / b else -((-a) / b)
  }

  function TruncMod(a: int, b: int): int
    requires b > 0
  {
    if a >= 0 then a % b else -((-a) % b)
  }

  lemma TruncDivMod(a: int, b: int)
    requires b > 0
    ensures a == TruncDiv(a, b) * b + TruncMod(a, b)
    ensures -b < TruncMod(a, b) < b
    ensures a >= 0 ==> TruncMod(a, b) >= 0
  {
    var m := if a >= 0 then a else -a;
    assert m == (m / b) * b + m % b;
    if a < 0 {
      assert (-(m / b)) * b == -((m / b) * b);
    }
  }

  // ---------- Specification

  function Floors(total: int, weights: seq<int>, sumW: int): (r: seq<int>)
    requires sumW > 0
    ensures |r| == |weights|
  {
    seq(|weights|, i requires 0 <= i < |weights| => TruncDiv(total * weights[i], sumW))
  }

  function Remainders(total: int, weights: seq<int>, sumW: int): (r: seq<int>)
    requires sumW > 0
    ensures |r| == |weights|
  {
    seq(|weights|, i requires 0 <= i < |weights| => TruncMod(total * weights[i], sumW))
  }

  /** What the floors leave over; the top-up loop hands it out one unit at a time. */
  function Leftover(total: int, weights: seq<int>): int
    requires Sum(weights) > 0
  {
    total - Sum(Floors(total, weights, Sum(weights)))
  }

  predicate Precedes(rem: seq<int>, i: nat, j: nat) {
    i < |rem| && j < |rem| && (rem[i] > rem[j] || (rem[i] == rem[j] && i < j))
  }

  /** Index i is topped up exactly when fewer than `leftover` indices precede it. */
  function Rank(rem: seq<int>, i: nat): nat {
    |set j | 0 <= j < |rem| && Precedes(rem, j, i)|
  }

  function Apportion(total: int, weights: seq<int>): (r: seq<int>)
    requires Sum(weights) > 0
    ensures |r| == |weights|
  {
    var floors := Floors(total, weights, Sum(weights));
    var rem := Remainders(total, weights, Sum(weights));
    var left := Leftover(total, weights);
    seq(|weights|, i requires 0 <= i < |weights| => floors[i] + (if Rank(rem, i) < left then 1 else 0))
  }

  // ---------- The index order the loop follows

  function Indices(n: nat): (r: seq<nat>)
    ensures |r| == n && forall i :: 0 <= i < n ==> r[i] == i
  {
    seq(n, i => i)
  }

  function ByFraction(rem: seq<int>): (nat, nat) -> bool {
    (i: nat, j: nat) =>
      var ri := if i < |rem| then rem[i] else 0;
      var rj := if j < |rem| then rem[j] else 0;
      ri > rj || (ri == rj && i <= j)
  }

  lemma OrderFacts(rem: seq<int>, order: seq<nat>)
    requires order == Sorting.Sort(ByFraction(rem), Indices(|rem|))
    ensures |order| == |rem|
    ensures forall k :: 0 <= k < |order| ==> order[k] < |rem|
    ensures forall i :: 0 <= i < |rem| ==> i in order
    ensures forall p, q :: 0 <= p < q < |order| ==> Precedes(rem, order[p], order[q])
    ensures Distinct(order)
  {
    var leq := ByFraction(rem);
    var ids := Indices(|rem|);
    Sorting.SortIsPermutation(leq, ids);
    Sorting.SortSorts(leq, ids);
    forall i | 0 <= i < |rem| ensures i in order { assert ids[i] == i; }
    forall k | 0 <= k < |order| ensures order[k] < |rem| { assert order[k] in ids; }
    DistinctOfMultiset(ids, order);
  }

  lemma DistinctOfMultiset(a: seq<nat>, b: seq<nat>)
    requires forall i, j :: 0 <= i < j < |a| ==> a[i] != a[j]
    requires multiset(a) == multiset(b)
    ensures forall i, j :: 0 <= i < j < |b| ==> b[i] != b[j]
  {
    forall x ensures multiset(a)[x] <= 1 { CountAtMostOne(a, x); }
    forall i, j | 0 <= i < j < |b| ensures b[i] != b[j] {
      assert b == b[..i] + [b[i]] + b[i + 1..j] + [b[j]] + b[j + 1..];
      assert multiset(b)[b[i]] <= 1;
    }
  }

  lemma {:induction false} CountAtMostOne(a: seq<nat>, x: nat)
    requires forall i, j :: 0 <= i < j < |a| ==> a[i] != a[j]
    ensures multiset(a)[x] <= 1
  {
    if a != [] {
      assert a == [a[0]] + a[1..];
      CountAtMostOne(a[1..], x);
      if a[0] == x && x in a[1..] {
        assert false;
      }
    }
  }

  // ---------- Leftover

  lemma {:induction false} FloorsAndRemainders(total: int, weights: seq<int>, sumW: int)
    requires sumW > 0
    ensures Sum(Floors(total, weights, sumW)) * sumW + Sum(Remainders(total, weights, sumW)) == total * Sum(weights)
  {
    var f := Floors(total, weights, sumW);
    var r := Remainders(total, weights, sumW);
    if weights != [] {
      assert Floors(total, weights[1..], sumW) == f[1..];
      assert Remainders(total, weights[1..], sumW) == r[1..];
      FloorsAndRemainders(total, weights[1..], sumW);
      TruncDivMod(total * weights[0], sumW);
      MulAdd(f[0], Sum(f[1..]), sumW);
      MulAdd(weights[0], Sum(weights[1..]), total);
    }
  }

  /** Leftover times the weight sum is the sum of the remainders, so it is always below the number of weights. */
  lemma LeftoverBounds(total: int, weights: seq<int>)
    requires Sum(weights) > 0
    ensures Leftover(total, weights) * Sum(weights) == Sum(Remainders(total, weights, Sum(weights)))
    ensures Leftover(total, weights) < |weights|
    ensures total >= 0 && (forall i :: 0 <= i < |weights| ==> weights[i] >= 0) ==> Leftover(total, weights) >= 0
  {
    var sumW := Sum(weights);
    var left := Leftover(total, weights);
    var r := Remainders(total, weights, sumW);
    FloorsAndRemainders(total, weights, sumW);
    MulSub(total, Sum(Floors(total, weights, sumW)), sumW);
    RemainderSumBounds(total, weights, sumW);
    BelowCount(left, sumW, |weights|, Sum(r));
  }

  lemma MulSub(a: int, b: int, c: int)
    ensures (a - b) * c == a * c - b * c
  {
  }

  lemma BelowCount(left: int, sumW: int, n: nat, sumR: int)
    requires sumW > 0 && left * sumW == sumR && sumR < sumW * n
    ensures left < n
    ensures sumR >= 0 ==> left >= 0
  {
    assert left >= n ==> left * sumW >= n * sumW;
    assert left < 0 ==> left * sumW < 0;
  }

  lemma RemainderSumBounds(total: int, weights: seq<int>, sumW: int)
    requires sumW > 0 && |weights| > 0
    ensures Sum(Remainders(total, weights, sumW)) < sumW * |weights|
    ensures total >= 0 && (forall i :: 0 <= i < |weights| ==> weights[i] >= 0) ==>
              Sum(Remainders(total, weights, sumW)) >= 0
  {
    var r := Remainders(total, weights, sumW);
    forall i | 0 <= i < |r| ensures -sumW < r[i] < sumW { TruncDivMod(total * weights[i], sumW); }
    SumBounds(r, -sumW, sumW - 1);
    MulSub(sumW, 1, |r|);
    if total >= 0 && forall i :: 0 <= i < |weights| ==> weights[i] >= 0 {
      forall i | 0 <= i < |r| ensures r[i] >= 0 { NonNegativeRemainder(total, weights[i], sumW); }
      SumBounds(r, 0, sumW - 1);
    }
  }

  lemma NonNegativeRemainder(total: int, weight: int, sumW: int)
    requires total >= 0 && weight >= 0 && sumW > 0
    ensures TruncMod(total * weight, sumW) >= 0
  {
    assert total * weight >= 0;
    TruncDivMod(total * weight, sumW);
  }

  // ---------- Rank against the sorted order

  lemma RankOfOrder(rem: seq<int>, order: seq<nat>, k: nat)
    requires order == Sorting.Sort(ByFraction(rem), Indices(|rem|))
    requires k < |order|
    ensures |order| == |rem| && order[k] < |rem| && Rank(rem, order[k]) == k
  {
    OrderFacts(rem, order);
    var before := set j | 0 <= j < |rem| && Precedes(rem, j, order[k]);
    var firsts := set p | 0 <= p < k :: order[p];
    forall j | j in before ensures j in firsts {
      var i: nat := j;
      assert i in order;
      var p :| 0 <= p < |order| && order[p] == i;
    }
    assert before == firsts;
    CardFirsts(order, k);
  }

  lemma {:induction false} CardFirsts(order: seq<nat>, k: nat)
    requires k <= |order| && Distinct(order)
    ensures |set p | 0 <= p < k :: order[p]| == k
  {
    var s := set p | 0 <= p < k :: order[p];
    if k > 0 {
      CardFirsts(order, k - 1);
      var t := set p | 0 <= p < k - 1 :: order[p];
      assert s == t + {order[k - 1]};
      assert order[k - 1] !in t;
    }
  }

  // ---------- The top-up loop, as a function of how many steps it has taken

  function ToppedUp(floors: seq<int>, order: seq<nat>, k: nat): (r: seq<int>)
    requires k <= |order| && forall p :: 0 <= p < |order| ==> order[p] < |floors|
    ensures |r| == |floors|
  {
    if k == 0 then floors
    else
      var out := ToppedUp(floors, order, k - 1);
      out[order[k - 1] := out[order[k - 1]] + 1]
  }

  lemma {:induction false} ToppedUpFacts(floors: seq<int>, order: seq<nat>, k: nat)
    requires k <= |order| && forall p :: 0 <= p < |order| ==> order[p] < |floors|
    requires Distinct(order)
    ensures Sum(ToppedUp(floors, order, k)) == Sum(floors) + k
    ensures forall p :: 0 <= p < |order| ==>
      ToppedUp(floors, order, k)[order[p]] == floors[order[p]] + (if p < k then 1 else 0)
  {
    if k > 0 {
      ToppedUpFacts(floors, order, k - 1);
      var out := ToppedUp(floors, order, k - 1);
      SumUpdate(out, order[k - 1], out[order[k - 1]] + 1);
    }
  }

  lemma ToppedUpIsApportion(total: int, weights: seq<int>, order: seq<nat>)
    requires Sum(weights) > 0
    requires order == Sorting.Sort(ByFraction(Remainders(total, weights, Sum(weights))), Indices(|weights|))
    requires 0 <= Leftover(total, weights)
    ensures |order| == |weights| && (forall p :: 0 <= p < |order| ==> order[p] < |weights|)
    ensures Leftover(total, weights) < |order|
    ensures ToppedUp(Floors(total, weights, Sum(weights)), order, Leftover(total, weights)) == Apportion(total, weights)
    ensures Sum(Apportion(total, weights)) == total
  {
    var rem := Remainders(total, weights, Sum(weights));
    var floors := Floors(total, weights, Sum(weights));
    var left := Leftover(total, weights);
    OrderFacts(rem, order);
    LeftoverBounds(total, weights);
    ToppedUpFacts(floors, order, left);
    var out := ToppedUp(floors, order, left);
    forall i | 0 <= i < |weights| ensures out[i] == Apportion(total, weights)[i] {
      var m: nat := i;
      assert m in order;
      var p :| 0 <= p < |order| && order[p] == m;
      RankOfOrder(rem, order, p);
    }
  }

  // ---------- What the distribution guarantees

  ghost predicate Distributable(total: int, weights: seq<int>) {
    total >= 0 && Sum(weights) > 0 && forall i :: 0 <= i < |weights| ==> weights[i] >= 0
  }

  /** The parts sum exactly to the total. */
  lemma PartsSumToTotal(total: int, weights: seq<int>)
    requires Distributable(total, weights)
    ensures Sum(Apportion(total, weights)) == total
  {
    LeftoverBounds(total, weights);
    ToppedUpIsApportion(total, weights,
      Sorting.Sort(ByFraction(Remainders(total, weights, Sum(weights))), Indices(|weights|)));
  }

  function Positives(r: seq<int>): set<int> {
    set i | 0 <= i < |r| && r[i] > 0
  }

  lemma PositivesOfOneMore(front: seq<int>, x: int)
    ensures |Positives(front + [x])| == |Positives(front)| + if x > 0 then 1 else 0
  {
    var more := Positives(front + [x]);
    if x > 0 {
      assert more == Positives(front) + {|front|};
    } else {
      assert more == Positives(front);
    }
  }

  lemma {:induction false} SumOfPositives(r: seq<int>, hi: nat)
    requires forall i :: 0 <= i < |r| ==> 0 <= r[i] <= hi
    ensures Sum(r) <= hi * |Positives(r)|
  {
    if r != [] {
      var n := |r| - 1;
      var front := r[..n];
      SumOfPositives(front, hi);
      assert r == front + [r[n]];
      SumAppend(front, [r[n]]);
      PositivesOfOneMore(front, r[n]);
      MulAdd(|Positives(front)|, 1, hi);
    }
  }

  lemma RemaindersInRange(total: int, weights: seq<int>)
    requires Distributable(total, weights)
    ensures forall j :: 0 <= j < |weights| ==> 0 <= Remainders(total, weights, Sum(weights))[j] < Sum(weights)
  {
    forall j | 0 <= j < |weights| ensures 0 <= Remainders(total, weights, Sum(weights))[j] < Sum(weights) {
      ProductNonNegative(total, weights[j]);
      TruncDivMod(total * weights[j], Sum(weights));
    }
  }

  /** If index i has no remainder, every index with one precedes it. */
  lemma PositivesPrecede(rem: seq<int>, i: nat)
    requires i < |rem| && rem[i] == 0
    ensures |Positives(rem)| <= Rank(rem, i)
  {
    var pos := Positives(rem);
    var before := set j | 0 <= j < |rem| && Precedes(rem, j, i);
    assert pos <= before;
    CardSubset(pos, before);
  }

  /** Only an index with a non-zero remainder is ever topped up. */
  lemma ToppedHasRemainder(total: int, weights: seq<int>, i: nat)
    requires Distributable(total, weights) && i < |weights|
    requires Rank(Remainders(total, weights, Sum(weights)), i) < Leftover(total, weights)
    ensures Remainders(total, weights, Sum(weights))[i] > 0
  {
    var sumW := Sum(weights);
    var rem := Remainders(total, weights, sumW);
    RemaindersInRange(total, weights);
    if rem[i] == 0 {
      PositivesPrecede(rem, i);
      SumOfPositives(rem, sumW - 1);
      LeftoverBounds(total, weights);
      TooFew(Leftover(total, weights), sumW, |Positives(rem)|);
    }
  }

  lemma CardSubset(a: set<int>, b: set<int>)
    requires a <= b
    ensures |a| <= |b|
  {
    assert b == a + (b - a);
  }

  lemma TooFew(left: int, sumW: int, n: nat)
    requires sumW > 0 && n < left
    ensures left * sumW > (sumW - 1) * n
  {
    ProductNonNegative(left - n - 1, sumW);
    MulSub(left, n + 1, sumW);
    MulAdd(n, 1, sumW);
    MulSub(sumW, 1, n);
  }

  /** Each part is strictly within one unit of its exact quota total*w/sumW; a zero weight gets zero. */
  lemma WithinQuota(total: int, weights: seq<int>, i: nat)
    requires Distributable(total, weights) && i < |weights|
    ensures Abs(Apportion(total, weights)[i] * Sum(weights) - total * weights[i]) < Sum(weights)
    ensures Apportion(total, weights)[i] >= 0
    ensures weights[i] == 0 ==> Apportion(total, weights)[i] == 0
  {
    var sumW := Sum(weights);
    ProductNonNegative(total, weights[i]);
    if Rank(Remainders(total, weights, sumW), i) < Leftover(total, weights) {
      ToppedHasRemainder(total, weights, i);
    }
    CloseToQuota(total * weights[i], sumW, Apportion(total, weights)[i]);
  }

  lemma CloseToQuota(quota: int, sumW: int, part: int)
    requires quota >= 0 && sumW > 0
    requires part == quota / sumW || (part == quota / sumW + 1 && quota % sumW > 0)
    ensures Abs(part * sumW - quota) < sumW
    ensures part >= 0
    ensures quota == 0 ==> part == 0
  {
    assert quota == (quota / sumW) * sumW + quota % sumW;
    assert part == quota / sumW + 1 ==> part * sumW == (quota / sumW) * sumW + sumW;
  }

  // ---------- Optimality

  /** Total absolute deviation from the exact quotas, scaled by the weight sum. */
  function Deviation(total: int, weights: seq<int>, sumW: int, parts: seq<int>): nat
    requires |parts| == |weights|
  {
    if weights == [] then 0
    else Abs(parts[0] * sumW - total * weights[0]) + Deviation(total, weights[1..], sumW, parts[1..])
  }

  /** `part` is the floor or the floor plus one, whichever the price lambda of a unit favours. */
  ghost predicate PriceFavours(quota: int, sumW: int, lambda: int, part: int)
    requires sumW > 0
  {
    var f, r := quota / sumW, quota % sumW;
    || (part == f && -sumW <= lambda <= sumW - 2 * r)
    || (part == f + 1 && sumW - 2 * r <= lambda <= sumW)
  }

  /** At price lambda no integer amount x beats `part` for one recipient. */
  lemma PricedBest(quota: int, sumW: int, lambda: int, part: int, x: int)
    requires sumW > 0 && PriceFavours(quota, sumW, lambda, part)
    ensures Abs(part * sumW - quota) - lambda * part <= Abs(x * sumW - quota) - lambda * x
  {
    var f, r := quota / sumW, quota % sumW;
    var d := x - f;
    assert quota == f * sumW + r;
    assert x * sumW == f * sumW + d * sumW;
    assert lambda * x == lambda * f + lambda * d;
    if part == f + 1 {
      assert part * sumW == f * sumW + sumW;
      assert lambda * part == lambda * f + lambda;
    }
    SlopeBounds(sumW, lambda, r, d);
  }

  lemma SlopeBounds(sumW: int, lambda: int, r: int, d: int)
    requires sumW > 0 && -sumW <= lambda <= sumW && 0 <= r < sumW
    ensures lambda <= sumW - 2 * r ==> Abs(d * sumW - r) - lambda * d >= r
    ensures lambda >= sumW - 2 * r ==> Abs(d * sumW - r) - lambda * d >= sumW - r - lambda
  {
    if d >= 1 { SlopeUp(sumW, lambda, d); } else { SlopeDown(sumW, lambda, d); }
  }

  lemma SlopeUp(sumW: int, lambda: int, d: int)
    requires sumW > 0 && -sumW <= lambda <= sumW && d >= 1
    ensures d * sumW >= sumW && d * sumW - lambda * d >= sumW - lambda
  {
    ProductNonNegative(d - 1, sumW - lambda);
    MulSub(d, 1, sumW - lambda);
    MulSub(sumW, lambda, d);
    ProductNonNegative(d - 1, sumW);
    MulSub(d, 1, sumW);
  }

  lemma SlopeDown(sumW: int, lambda: int, d: int)
    requires sumW > 0 && -sumW <= lambda <= sumW && d <= 0
    ensures d * sumW <= 0 && d * sumW + lambda * d <= 0
  {
    ProductNonNegative(-d, sumW + lambda);
    MulAdd(sumW, lambda, -d);
    ProductNonNegative(-d, sumW);
  }

  lemma ProductNonNegative(a: int, b: int)
    requires a >= 0 && b >= 0
    ensures a * b >= 0
  {
  }

  lemma MulAdd(a: int, b: int, c: int)
    ensures c * (a + b) == (a + b) * c == a * c + b * c == c * a + c * b
  {
  }

  lemma {:induction false} PricedBestOverall(total: int, weights: seq<int>, sumW: int, lambda: int, parts: seq<int>,
                                             xs: seq<int>)
    requires sumW > 0 && |parts| == |weights| == |xs|
    requires forall i :: 0 <= i < |weights| ==> PriceFavours(total * weights[i], sumW, lambda, parts[i])
    ensures Deviation(total, weights, sumW, parts) - lambda * Sum(parts) <=
            Deviation(total, weights, sumW, xs) - lambda * Sum(xs)
  {
    if weights != [] {
      PricedBest(total * weights[0], sumW, lambda, parts[0], xs[0]);
      PricedBestOverall(total, weights[1..], sumW, lambda, parts[1..], xs[1..]);
      MulAdd(parts[0], Sum(parts[1..]), lambda);
      MulAdd(xs[0], Sum(xs[1..]), lambda);
    }
  }

  /** The remainder of the last index topped up separates those topped up from the rest. */
  lemma Threshold(total: int, weights: seq<int>) returns (cut: int)
    requires Distributable(total, weights)
    ensures 0 <= cut <= Sum(weights)
    ensures var rem := Remainders(total, weights, Sum(weights));
            forall i :: 0 <= i < |weights| ==>
              if Rank(rem, i) < Leftover(total, weights) then rem[i] >= cut else rem[i] <= cut
  {
    var sumW := Sum(weights);
    var rem := Remainders(total, weights, sumW);
    var left := Leftover(total, weights);
    var order := Sorting.Sort(ByFraction(rem), Indices(|rem|));
    OrderFacts(rem, order);
    LeftoverBounds(total, weights);
    RemaindersInRange(total, weights);
    cut := if left == 0 then sumW else rem[order[left - 1]];
    forall i | 0 <= i < |weights|
      ensures if Rank(rem, i) < left then rem[i] >= cut else rem[i] <= cut
    {
      var m: nat := i;
      assert m in order;
      var p :| 0 <= p < |order| && order[p] == m;
      RankOfOrder(rem, order, p);
    }
  }

  /** No integer allocation with the same total deviates less from the exact quotas. */
  lemma LargestRemainderIsOptimal(total: int, weights: seq<int>, xs: seq<int>)
    requires Distributable(total, weights)
    requires |xs| == |weights| && Sum(xs) == total
    ensures var sumW := Sum(weights);
      Deviation(total, weights, sumW, Apportion(total, weights)) <= Deviation(total, weights, sumW, xs)
  {
    var sumW := Sum(weights);
    var parts := Apportion(total, weights);
    var cut := Threshold(total, weights);
    var lambda := sumW - 2 * cut;
    forall i | 0 <= i < |weights| ensures PriceFavours(total * weights[i], sumW, lambda, parts[i]) {
      ProductNonNegative(total, weights[i]);
    }
    PartsSumToTotal(total, weights);
    PricedBestOverall(total, weights, sumW, lambda, parts, xs);
  }

  // ---------- Fairness

  lemma FloorMonotone(a: int, b: int, w: int)
    requires w > 0 && 0 <= a <= b
    ensures a / w <= b / w
    ensures a / w == b / w ==> b % w - a % w == b - a
  {
    assert a == (a / w) * w + a % w;
    assert b == (b / w) * w + b % w;
    var x, y := a / w, b / w;
    assert x > y ==> x * w >= (y + 1) * w;
  }

  lemma QuotaMonotone(total: int, a: int, b: int)
    requires total >= 0 && 0 <= a <= b
    ensures 0 <= total * a <= total * b
  {
    ProductNonNegative(total, a);
    ProductNonNegative(total, b - a);
    MulAdd(a, b - a, total);
  }

  lemma RankRespectsOrder(rem: seq<int>, i: nat, j: nat)
    requires Precedes(rem, i, j)
    ensures Rank(rem, i) < Rank(rem, j)
  {
    var bi := set k | 0 <= k < |rem| && Precedes(rem, k, i);
    var bj := set k | 0 <= k < |rem| && Precedes(rem, k, j);
    assert bi + {i} <= bj && i !in bi;
    CardSubset(bi + {i}, bj);
  }

  /** A heavier weight never receives less; equal weights differ by at most one unit, the lower index first. */
  lemma HeavierNeverGetsLess(total: int, weights: seq<int>, i: nat, j: nat)
    requires Distributable(total, weights) && i < |weights| && j < |weights|
    requires weights[i] > weights[j] || (weights[i] == weights[j] && i <= j)
    ensures Apportion(total, weights)[i] >= Apportion(total, weights)[j]
    ensures weights[i] == weights[j] ==> Apportion(total, weights)[i] <= Apportion(total, weights)[j] + 1
  {
    var sumW := Sum(weights);
    var rem := Remainders(total, weights, sumW);
    QuotaMonotone(total, weights[j], weights[i]);
    FloorMonotone(total * weights[j], total * weights[i], sumW);
    if i != j && Floors(total, weights, sumW)[i] == Floors(total, weights, sumW)[j] {
      if rem[i] > rem[j] || i < j {
        RankRespectsOrder(rem, i, j);
      } else {
        LeftoverZeroWhenTotalZero(total, weights, i, j);
      }
    }
  }

  /** Two different weights have equal products only when the total is zero, and then nothing is left over. */
  lemma LeftoverZeroWhenTotalZero(total: int, weights: seq<int>, i: nat, j: nat)
    requires Distributable(total, weights) && i < |weights| && j < |weights|
    requires weights[i] > weights[j] && total * weights[i] <= total * weights[j]
    ensures total == 0 && Leftover(total, weights) == 0
  {
    assert total * (weights[i] - weights[j]) <= 0;
    assert total == 0;
    var f := Floors(total, weights, Sum(weights));
    forall k | 0 <= k < |f| ensures 0 <= f[k] <= 0 { }
    SumBounds(f, 0, 0);
  }

  // ---------- The operations

  /** Result of the distribution for any integers at all, with the error each check raises. */
  function Distribute(total: int, weights: seq<int>): Result<seq<int>, RoundingError> {
    if weights == [] then Ok([])
    else if Sum(weights) <= 0 then Err(SumOfWeightsNotPositive)
    else if total < 0 then Err(NegativeTotal)
    else if Leftover(total, weights) < 0 then Err(AllocationInvariantFailed)
    else Ok(Apportion(total, weights))
  }

  /**
   * The invariant error is unreachable for non-negative weights, and the distribution then succeeds exactly when
   * there is something to weigh by and the total is not negative.
   */
  lemma NonNegativeWeightsNeverFail(total: int, weights: seq<int>)
    requires weights != [] && forall i :: 0 <= i < |weights| ==> weights[i] >= 0
    ensures Distribute(total, weights).Ok? <==> Distributable(total, weights)
    ensures Distribute(total, weights) != Err(AllocationInvariantFailed)
  {
    if Distributable(total, weights) {
      LeftoverBounds(total, weights);
    }
  }

  /** With a negative weight the truncated floors can already exceed the total, and the invariant error is raised. */
  lemma NegativeWeightsCanFail()
    ensures Distribute(1, [-2, -2, 7]) == Err(AllocationInvariantFailed)
  {
    var w := [-2, -2, 7];
    assert w[1..] == [-2, 7] && w[1..][1..] == [7];
    assert Sum(w) == 3;
    var f := Floors(1, w, 3);
    assert f == [0, 0, 2];
    assert Sum([2]) == 2;
    assert [0, 2][1..] == [2] && Sum([0, 2]) == 2;
    assert f[1..] == [0, 2];
  }

  method DistributeMinorByWeights(total: int, weights: seq<int>) returns (r: Result<seq<int>, RoundingError>)
    ensures r == Distribute(total, weights)
    ensures r.Ok? && weights != [] ==> |r.value| == |weights| && Sum(r.value) == total
  {
    if |weights| == 0 {
      return Ok([]);
    }
    var sumW := Sum(weights);
    if sumW <= 0 {
      return Err(SumOfWeightsNotPositive);
    }
    if total < 0 {
      return Err(NegativeTotal);
    }
    var floors := Floors(total, weights, sumW);
    var remainders := Remainders(total, weights, sumW);
    var leftover := total - Sum(floors);
    var idxByFrac := Sorting.Sort(ByFraction(remainders), Indices(|weights|));
    OrderFacts(remainders, idxByFrac);
    LeftoverBounds(total, weights);
    if leftover >= 0 {
      ToppedUpIsApportion(total, weights, idxByFrac);
    }
    var out, rest := TopUp(floors, idxByFrac, leftover);
    if rest != 0 {
      return Err(AllocationInvariantFailed);
    }
    return Ok(out);
  }

  /** The top-up loop: one unit to each index in order, while units and indices last. */
  method TopUp(floors: seq<int>, idxByFrac: seq<nat>, units: int) returns (out: seq<int>, leftover: int)
    requires forall p :: 0 <= p < |idxByFrac| ==> idxByFrac[p] < |floors|
    ensures var k := Max(0, Min(units, |idxByFrac|)); out == ToppedUp(floors, idxByFrac, k) && leftover == units - k
  {
    out, leftover := floors, units;
    var k := 0;
    while leftover > 0 && k < |idxByFrac|
      invariant 0 <= k <= |idxByFrac| && leftover == units - k
      invariant k > 0 ==> leftover >= 0
      invariant out == ToppedUp(floors, idxByFrac, k)
    {
      var i := idxByFrac[k];
      out := out[i := out[i] + 1];
      leftover := leftover - 1;
      k := k + 1;
    }
  }

  predicate ScaleOk(scale: nat) {
    scale <= 8
  }

  /** `toMinorUnits`: rounds to the scale, then writes the scaled value with no decimals. */
  function ToMinorUnits(amount: Decimal, scale: nat): Result<int, RoundingError> {
    if !ScaleOk(scale) then Err(BadScale)
    else Ok(ToUnits(FromUnits(ToUnits(amount, scale), scale), scale))
  }

  /** The second rounding changes nothing, and converting minor units out and back is the identity. */
  lemma MinorUnitsExact(amount: Decimal, minor: int, scale: nat)
    requires ScaleOk(scale)
    ensures ToMinorUnits(amount, scale) == Ok(ToUnits(amount, scale))
    ensures ToMinorUnits(FromUnits(minor, scale), scale) == Ok(minor)
  {
    UnitsRoundTrip(ToUnits(amount, scale), scale);
    UnitsRoundTrip(minor, scale);
  }

  function UnitsOfAll(amounts: seq<Decimal>, scale: nat): (r: seq<int>)
    ensures |r| == |amounts|
  {
    seq(|amounts|, i requires 0 <= i < |amounts| => ToUnits(amounts[i], scale))
  }

  /** `distributeMoneyByWeights`, with the parts left in minor units. */
  function DistributeMoney(total: Decimal, weights: seq<Decimal>, scale: nat): Result<seq<int>, RoundingError> {
    if weights == [] then Ok([])
    else if !ScaleOk(scale) then Err(BadScale)
    else
      var units := UnitsOfAll(weights, scale);
      if exists i :: 0 <= i < |units| && units[i] < 0 then Err(NegativeWeight)
      else Distribute(ToUnits(total, scale), units)
  }

  /** `distributeEqual`, with the parts left in minor units. */
  function DistributeEqual(total: Decimal, count: nat, scale: nat): Result<seq<int>, RoundingError> {
    if count == 0 then Err(CountNotPositive)
    else DistributeMoney(total, seq(count, _ => 1.0), scale)
  }

  lemma MoneyPartsSum(total: Decimal, weights: seq<Decimal>, scale: nat)
    requires weights != [] && DistributeMoney(total, weights, scale).Ok?
    ensures |DistributeMoney(total, weights, scale).value| == |weights|
    ensures Sum(DistributeMoney(total, weights, scale).value) == ToUnits(total, scale) >= 0
    ensures forall i :: 0 <= i < |weights| ==> DistributeMoney(total, weights, scale).value[i] >= 0
  {
    var units := UnitsOfAll(weights, scale);
    var minor := ToUnits(total, scale);
    assert Distributable(minor, units);
    PartsSumToTotal(minor, units);
    forall i | 0 <= i < |units| ensures Apportion(minor, units)[i] >= 0 { WithinQuota(minor, units, i); }
  }

  /**
   * Each part follows its own weight, rounded to the scale: it is within one unit of its exact quota, a larger weight
   * never gets less, and equal ones differ by at most one unit, the earlier first.
   */
  lemma MoneyFollowsWeights(total: Decimal, weights: seq<Decimal>, scale: nat, us: seq<int>, i: nat, j: nat)
    requires |us| == |weights| && forall k :: 0 <= k < |us| ==> us[k] == ToUnits(weights[k], scale)
    requires DistributeMoney(total, weights, scale).Ok? && i < |weights| && j < |weights|
    ensures var parts := DistributeMoney(total, weights, scale).value;
      && |parts| == |weights| && Sum(us) > 0
      && Abs(parts[i] * Sum(us) - ToUnits(total, scale) * us[i]) < Sum(us)
      && (us[i] > us[j] ==> parts[i] >= parts[j])
      && (us[i] == us[j] && i <= j ==> parts[j] <= parts[i] <= parts[j] + 1)
  {
    var minor := ToUnits(total, scale);
    assert us == UnitsOfAll(weights, scale);
    assert Distributable(minor, us);
    WithinQuota(minor, us, i);
    if us[i] > us[j] || (us[i] == us[j] && i <= j) {
      HeavierNeverGetsLess(minor, us, i, j);
    }
  }

  /** No other way of handing out the total deviates less from the quotas of the weights. */
  lemma MoneyIsOptimal(total: Decimal, weights: seq<Decimal>, scale: nat, us: seq<int>, xs: seq<int>)
    requires |us| == |weights| && forall k :: 0 <= k < |us| ==> us[k] == ToUnits(weights[k], scale)
    requires weights != [] && DistributeMoney(total, weights, scale).Ok?
    requires |xs| == |us| && Sum(xs) == ToUnits(total, scale)
    ensures var minor, parts := ToUnits(total, scale), DistributeMoney(total, weights, scale).value;
      |parts| == |us| && Deviation(minor, us, Sum(us), parts) <= Deviation(minor, us, Sum(us), xs)
  {
    assert us == UnitsOfAll(weights, scale);
    LargestRemainderIsOptimal(ToUnits(total, scale), us, xs);
  }

  /** Which error each check raises, in the order in which they are made; no weights at all distribute to nothing. */
  lemma RoundingErrorsAreNamed(minor: int, ws: seq<int>, total: Decimal, weights: seq<Decimal>, scale: nat, i: nat)
    ensures Distribute(minor, []) == Ok([]) && DistributeMoney(total, [], scale) == Ok([])
    ensures ws != [] && Sum(ws) <= 0 ==> Distribute(minor, ws) == Err(SumOfWeightsNotPositive)
    ensures ws != [] && Sum(ws) > 0 && minor < 0 ==> Distribute(minor, ws) == Err(NegativeTotal)
    ensures scale > 8 ==> ToMinorUnits(total, scale) == Err(BadScale)
    ensures scale > 8 && weights != [] ==> DistributeMoney(total, weights, scale) == Err(BadScale)
    ensures scale <= 8 && i < |weights| && ToUnits(weights[i], scale) < 0 ==>
      DistributeMoney(total, weights, scale) == Err(NegativeWeight)
    ensures DistributeEqual(total, 0, scale) == Err(CountNotPositive)
  {
    if scale <= 8 && i < |weights| {
      assert UnitsOfAll(weights, scale)[i] == ToUnits(weights[i], scale);
    }
  }

  lemma {:induction false} SumOfEqual(n: nat, v: int)
    ensures Sum(seq(n, _ => v)) == n * v
  {
    if n > 0 {
      SumOfEqual(n - 1, v);
      assert seq(n, _ => v)[1..] == seq(n - 1, _ => v);
    }
  }

  /**
   * An equal split of a non-negative total among at least one person always succeeds; the shares sum to the total,
   * never increase along the list, and differ by at most one minor unit.
   */
  lemma EqualSharesAreFair(total: Decimal, count: nat, scale: nat)
    requires ScaleOk(scale)
    ensures DistributeEqual(total, count, scale).Ok? <==> count > 0 && ToUnits(total, scale) >= 0
    ensures DistributeEqual(total, count, scale).Ok? ==>
      var parts := DistributeEqual(total, count, scale).value;
      && |parts| == count && Sum(parts) == ToUnits(total, scale)
      && forall i, j :: 0 <= i <= j < count ==> parts[j] <= parts[i] <= parts[j] + 1
  {
    if count > 0 {
      var weights: seq<Decimal> := seq(count, _ => 1.0);
      var units := UnitsOfAll(weights, scale);
      var minor := ToUnits(total, scale);
      ScaledZero(scale);
      HalfUpNearest(Pow10(scale) as real, Pow10(scale));
      assert units == seq(count, _ => Pow10(scale));
      SumOfEqual(count, Pow10(scale));
      assert count * Pow10(scale) > 0;
      NonNegativeWeightsNeverFail(minor, units);
      if minor >= 0 {
        PartsSumToTotal(minor, units);
        forall i, j | 0 <= i <= j < count
          ensures Apportion(minor, units)[j] <= Apportion(minor, units)[i] <= Apportion(minor, units)[j] + 1
        {
          HeavierNeverGetsLess(minor, units, i, j);
        }
      }
    }
  }
}
