/** Exact integer arithmetic on VND amounts: settlement allocation and the cashback split. */
module Money {
  import opened Prelude

  const FULL_BPS: nat := 10000

  /** The two shares of a net amount. */
  datatype Split = Split(user: nat, platform: nat)

  function SplitCashback(net: int, bps: int): (r: Result<Split>)
    ensures r.Err? <==> net < 0 || bps < 0 || bps > FULL_BPS
    ensures r.Ok? ==> r.value.user + r.value.platform == net
    ensures r.Ok? ==> FULL_BPS * r.value.user <= net * bps < FULL_BPS * (r.value.user + 1)
  {
    if net < 0 || bps < 0 || bps > FULL_BPS then Err(InvalidCashback)
    else
      ShareFits(net, bps);
      Ok(Split(net * bps / FULL_BPS, net - net * bps / FULL_BPS))
  }

  lemma ShareFits(net: nat, bps: nat)
    requires bps <= FULL_BPS
    ensures 0 <= net * bps / FULL_BPS <= net
  {
    assert net * bps <= net * FULL_BPS;
  }

  function Value(): int -> int {
    (w: int) => w
  }

  function Total(weights: seq<int>): int {
    Sum(weights, Value())
  }

  /** The share of the `i`-th weight when `remaining` is still to be handed out: the last takes it all. */
  function ShareAt(total: nat, weights: seq<int>, sum: int, i: nat, remaining: int): int
    requires sum > 0 && i < |weights|
  {
    if i == |weights| - 1 then remaining else total * weights[i] / sum
  }

  /** The shares of `total` for `weights[i..]` when `remaining` is still to be handed out. */
  function AllocateFrom(total: nat, weights: seq<int>, sum: int, i: nat, remaining: int): (r: seq<int>)
    requires sum > 0 && i <= |weights|
    ensures |r| == |weights| - i
    decreases |weights| - i
  {
    if i == |weights| then []
    else
      var amount := ShareAt(total, weights, sum, i, remaining);
      [amount] + AllocateFrom(total, weights, sum, i + 1, remaining - amount)
  }

  function AllocateNet(total: int, weights: seq<int>): (r: Result<seq<int>>)
    ensures r.Err? <==> total < 0 || Total(weights) <= 0 || exists w :: w in weights && w < 0
    ensures r.Ok? ==> |r.value| == |weights| > 0
  {
    if total < 0 || Total(weights) <= 0 || exists w :: w in weights && w < 0
    then Err(InvalidAllocation)
    else Ok(AllocateFrom(total, weights, Total(weights), 0, total))
  }

  method Allocate(total: int, weights: seq<int>) returns (r: Result<seq<int>>)
    ensures r == AllocateNet(total, weights)
  {
    var sum := AddUp(weights);
    if total < 0 || sum <= 0 || exists w :: w in weights && w < 0 {
      return Err(InvalidAllocation);
    }
    var shares := HandOut(total, weights, sum);
    r := Ok(shares);
  }

  method AddUp(weights: seq<int>) returns (sum: int)
    ensures sum == Total(weights)
  {
    sum := 0;
    for k := 0 to |weights|
      invariant sum == Total(weights[..k])
    {
      assert weights[..k + 1] == weights[..k] + [weights[k]];
      SumAppend(weights[..k], weights[k], Value());
      sum := sum + weights[k];
    }
    assert weights[..|weights|] == weights;
  }

  method HandOut(total: nat, weights: seq<int>, sum: int) returns (shares: seq<int>)
    requires sum > 0
    ensures shares == AllocateFrom(total, weights, sum, 0, total)
  {
    var remaining := total;
    shares := [];
    for i := 0 to |weights|
      invariant AllocateFrom(total, weights, sum, 0, total) == shares + AllocateFrom(total, weights, sum, i, remaining)
    {
      var amount := ShareAt(total, weights, sum, i, remaining);
      ghost var rest := AllocateFrom(total, weights, sum, i + 1, remaining - amount);
      assert shares + ([amount] + rest) == shares + [amount] + rest;
      remaining := remaining - amount;
      shares := shares + [amount];
    }
  }

  /** Shares add up to what was still to be handed out, and all but the last are floors. */
  lemma {:induction false} AllocateFromExact(total: nat, weights: seq<int>, sum: int, i: nat, remaining: int)
    requires sum > 0 && i < |weights|
    ensures var r := AllocateFrom(total, weights, sum, i, remaining);
      && Total(r) == remaining
      && forall k :: i <= k < |weights| - 1 ==> r[k - i] == total * weights[k] / sum
    decreases |weights| - i
  {
    var r := AllocateFrom(total, weights, sum, i, remaining);
    if i < |weights| - 1 {
      var amount := total * weights[i] / sum;
      var rest := AllocateFrom(total, weights, sum, i + 1, remaining - amount);
      AllocateFromExact(total, weights, sum, i + 1, remaining - amount);
      SumConcat([amount], rest, Value());
      assert Total([amount]) == amount by { SumAppend([], amount, Value()); assert [] + [amount] == [amount]; }
      forall k | i <= k < |weights| - 1 ensures r[k - i] == total * weights[k] / sum {
        if k > i { assert r[k - i] == rest[k - (i + 1)]; }
      }
    } else {
      assert r == [remaining];
      SumAppend([], remaining, Value());
      assert [] + [remaining] == [remaining];
    }
  }

  lemma FloorBounds(a: int, b: int)
    requires b > 0
    ensures a - (b - 1) <= b * (a / b) <= a
    ensures a >= 0 ==> a / b >= 0
  {
    assert a == b * (a / b) + a % b;
  }

  lemma Distribute(a: int, b: int, c: int)
    ensures a * (b + c) == a * b + a * c
  {
  }

  lemma ProductNonNegative(a: nat, b: nat)
    ensures a * b >= 0
  {
  }

  lemma NonNegativeFactor(a: int, b: int)
    requires a > 0 && a * b >= 0
    ensures b >= 0
  {
  }

  /** Adding one weight and its floor keeps the bounds. */
  lemma FloorStep(total: nat, sum: int, w: nat, q: int, weights: int, floors: int, n: nat)
    requires sum > 0 && q == total * w / sum
    requires total * weights - n * (sum - 1) <= sum * floors <= total * weights
    ensures total * (weights + w) - (n + 1) * (sum - 1) <= sum * (floors + q) <= total * (weights + w)
    ensures q >= 0
  {
    ProductNonNegative(total, w);
    FloorBounds(total * w, sum);
    Distribute(total, weights, w);
    Distribute(sum, floors, q);
    Distribute(sum - 1, n, 1);
  }

  /** What the floors of the other weights leave for the last one. */
  lemma LastShare(total: nat, sum: int, others: int, w: nat, floors: int, share: int, n: nat)
    requires sum > 0 && sum == others + w && total == floors + share
    requires total * others - n * (sum - 1) <= sum * floors <= total * others
    ensures total * w <= sum * share <= total * w + n * (sum - 1)
    ensures share >= 0
  {
    Distribute(total, others, w);
    Distribute(sum, floors, share);
    ProductNonNegative(total, w);
    NonNegativeFactor(sum, share);
  }

  /** Scaled back up, floors lose less than `sum` each. */
  lemma {:induction false} FloorsAlmostExact(total: nat, sum: int, weights: seq<int>, floors: seq<int>)
    requires sum > 0 && |weights| == |floors|
    requires forall k :: 0 <= k < |weights| ==> weights[k] >= 0 && floors[k] == total * weights[k] / sum
    ensures Total(floors) >= 0 && forall k :: 0 <= k < |floors| ==> floors[k] >= 0
    ensures total * Total(weights) - |weights| * (sum - 1) <= sum * Total(floors) <= total * Total(weights)
    decreases |weights|
  {
    if |weights| > 0 {
      var n := |weights| - 1;
      FloorsAlmostExact(total, sum, weights[..n], floors[..n]);
      var w, q := weights[n], floors[n];
      FloorStep(total, sum, w, q, Total(weights[..n]), Total(floors[..n]), n);
      forall k | 0 <= k < |floors| ensures floors[k] >= 0 {
        if k < n { assert floors[..n][k] >= 0; }
      }
    }
  }

  /**
   * The whole net amount is handed out in non-negative shares. Every share but the last is the floor of
   * its exact share; the last takes the remainder, so it is at least its exact share and exceeds it by
   * less than one VND for each other share.
   */
  lemma AllocationExact(total: nat, weights: seq<int>)
    requires AllocateNet(total, weights).Ok?
    ensures var r := AllocateNet(total, weights).value; var sum := Total(weights); var last := |weights| - 1;
      && Total(r) == total
      && (forall k :: 0 <= k < |r| ==> r[k] >= 0)
      && (forall k :: 0 <= k < last ==> r[k] == total * weights[k] / sum)
      && total * weights[last] <= sum * r[last] <= total * weights[last] + last * (sum - 1)
  {
    var r, sum, last := AllocateNet(total, weights).value, Total(weights), |weights| - 1;
    AllocateFromExact(total, weights, sum, 0, total);
    forall k | 0 <= k < |weights| ensures weights[k] >= 0 { assert weights[k] in weights; }
    FloorsAlmostExact(total, sum, weights[..last], r[..last]);
    var exact := Total(weights[..last]);
    assert sum == exact + weights[last];
    assert total == Total(r[..last]) + r[last];
    LastShare(total, sum, exact, weights[last], Total(r[..last]), r[last], last);
    forall k | 0 <= k < |r| ensures r[k] >= 0 {
      if k < last { assert r[..last][k] >= 0; }
    }
  }

  /** What rounding the share of a weight down leaves, scaled by `sum`. */
  function Remainder(total: nat, sum: nat): int -> int {
    (w: int) => if sum > 0 then total * w % sum else 0
  }

  /** What rounding down the shares of some weights leaves, scaled by `sum`. */
  function Remainders(total: nat, weights: seq<int>, sum: nat): int {
    Sum(weights, Remainder(total, sum))
  }

  /** Scaled back up, floors lose exactly the remainders. */
  lemma {:induction false} FloorsExact(total: nat, sum: nat, weights: seq<int>, floors: seq<int>)
    requires sum > 0 && |weights| == |floors|
    requires forall k :: 0 <= k < |weights| ==> floors[k] == total * weights[k] / sum
    ensures sum * Total(floors) == total * Total(weights) - Remainders(total, weights, sum)
    decreases |weights|
  {
    if |weights| > 0 {
      var n := |weights| - 1;
      FloorsExact(total, sum, weights[..n], floors[..n]);
      Distribute(total, Total(weights[..n]), weights[n]);
      Distribute(sum, Total(floors[..n]), floors[n]);
    }
  }

  /** The last share is its exact share plus everything the others lost to rounding. */
  lemma LastShareExact(total: nat, weights: seq<int>)
    requires AllocateNet(total, weights).Ok?
    ensures var r := AllocateNet(total, weights).value; var sum := Total(weights); var last := |weights| - 1;
      sum * r[last] == total * weights[last] + Remainders(total, weights[..last], sum)
  {
    var r, sum, last := AllocateNet(total, weights).value, Total(weights), |weights| - 1;
    AllocationExact(total, weights);
    FloorsExact(total, sum, weights[..last], r[..last]);
    assert sum == Total(weights[..last]) + weights[last];
    assert total == Total(r[..last]) + r[last];
    Distribute(total, Total(weights[..last]), weights[last]);
    Distribute(sum, Total(r[..last]), r[last]);
  }

  /** Every share is within its weight. */
  ghost predicate Within(shares: seq<int>, weights: seq<int>)
    requires |shares| == |weights|
  {
    forall k :: 0 <= k < |shares| ==> shares[k] <= weights[k]
  }

  lemma {:induction false} TotalMonotone(a: seq<int>, b: seq<int>)
    requires |a| == |b| && Within(a, b)
    ensures Total(a) <= Total(b)
    decreases |a|
  {
    if |a| > 0 { TotalMonotone(a[..|a| - 1], b[..|b| - 1]); }
  }

  lemma FloorWithin(total: nat, sum: nat, w: nat)
    requires sum > 0 && total <= sum
    ensures total * w / sum <= w
  {
    assert total * w <= sum * w;
  }

  lemma ScaledCompare(sum: nat, a: int, b: int)
    requires sum > 0
    ensures sum * a <= sum * b <==> a <= b
  {
    Distribute(sum, b - a, a);
    if a <= b { ProductNonNegative(sum, b - a); } else { ProductNonNegative(sum, a - b - 1); }
  }

  lemma LastWithin(total: nat, sum: nat, w: int, share: int, lost: int)
    requires sum > 0 && sum * share == total * w + lost
    ensures share <= w <==> lost <= (sum - total) * w
  {
    Distribute(w, sum - total, total);
    ScaledCompare(sum, share, w);
  }

  /**
   * When no share exceeds its weight: exactly when the net amount is within the gross and what rounding
   * takes from the other shares fits into what the last weight is reduced by.
   */
  lemma SharesWithinWeights(total: nat, weights: seq<int>)
    requires AllocateNet(total, weights).Ok?
    ensures var sum := Total(weights); var last := |weights| - 1;
      Within(AllocateNet(total, weights).value, weights) <==>
        total <= sum && Remainders(total, weights[..last], sum) <= (sum - total) * weights[last]
  {
    hide AllocateFrom, Total, Remainders;
    var r, sum, last := AllocateNet(total, weights).value, Total(weights), |weights| - 1;
    AllocationExact(total, weights);
    LastShareExact(total, weights);
    forall k | 0 <= k < |weights| ensures weights[k] >= 0 { assert weights[k] in weights; }
    var lost := Remainders(total, weights[..last], sum);
    LastWithin(total, sum, weights[last], r[last], lost);
    if Within(r, weights) { TotalMonotone(r, weights); }
    if total <= sum {
      forall k | 0 <= k < last ensures r[k] <= weights[k] { FloorWithin(total, sum, weights[k]); }
    }
  }

  /** The last share can exceed its weight even when the net amount is below the gross: it takes the remainder. */
  lemma LastShareCanExceedWeight(weights: seq<int>)
    requires weights == [3, 3, 1]
    ensures AllocateNet(6, weights) == Ok([2, 2, 2]) && !Within([2, 2, 2], weights)
  {
    assert Total(weights) == 7 by {
      SumAppend([], 3, Value());
      SumAppend([3], 3, Value());
      SumAppend([3, 3], 1, Value());
      assert [] + [3] == [3] && [3] + [3] == [3, 3] && [3, 3] + [1] == weights;
    }
    hide Total, Sum;
    assert AllocateNet(6, weights).Ok?;
    hide AllocateNet;
    assert AllocateFrom(6, weights, 7, 3, 0) == [];
    assert AllocateFrom(6, weights, 7, 2, 2) == [2] + [];
    assert AllocateFrom(6, weights, 7, 1, 4) == [2] + [2];
    assert AllocateFrom(6, weights, 7, 0, 6) == [2] + [2, 2] == [2, 2, 2];
    AllocatedFrom(6, weights);
  }

  lemma AllocatedFrom(total: nat, weights: seq<int>)
    requires AllocateNet(total, weights).Ok?
    ensures AllocateNet(total, weights).value == AllocateFrom(total, weights, Total(weights), 0, total)
  {
    hide AllocateFrom;
  }

  function UserShare(): ((int, int)) -> int {
    (p: (int, int)) => if SplitCashback(p.0, p.1).Ok? then SplitCashback(p.0, p.1).value.user else 0
  }

  function ScaledShare(): ((int, int)) -> int {
    (p: (int, int)) => p.0 * p.1
  }

  /** Over a batch of (net, bps) items, rounding down costs the users less than one VND an item. */
  lemma {:induction false} SplitsAlmostExact(items: seq<(int, int)>)
    requires forall p :: p in items ==> SplitCashback(p.0, p.1).Ok?
    ensures FULL_BPS * Sum(items, UserShare()) <= Sum(items, ScaledShare())
    ensures Sum(items, ScaledShare()) <= FULL_BPS * Sum(items, UserShare()) + (FULL_BPS - 1) * |items|
    decreases |items|
  {
    if |items| > 0 {
      var n := |items| - 1;
      forall p | p in items[..n] ensures SplitCashback(p.0, p.1).Ok? { assert p in items; }
      SplitsAlmostExact(items[..n]);
      assert items[n] in items;
    }
  }
}
