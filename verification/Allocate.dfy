/**
 The apportionment oracle: whole cents shared in proportion to integer weights by largest
 remainders, ties to the lower index. The conditions proved of its result have only one solution.
 */
module Allocate {
  import opened Collections
  import opened Wrappers

  function Sum(s: seq<int>): int {
    if s == [] then 0 else Sum(s[..|s| - 1]) + s[|s| - 1]
  }

  function Floors(total: nat, weights: seq<nat>, all: nat): seq<int>
    requires all > 0
  {
    seq(|weights|, i requires 0 <= i < |weights| => total * weights[i] / all)
  }

  function Remainders(total: nat, weights: seq<nat>, all: nat): seq<int>
    requires all > 0
  {
    seq(|weights|, i requires 0 <= i < |weights| => total * weights[i] % all)
  }

  /** Index i has priority over j: a larger remainder, or the same one and the lower index. */
  predicate Before(remainders: seq<int>, i: nat, j: nat)
    requires i < |remainders| && j < |remainders|
  {
    remainders[i] > remainders[j] || (remainders[i] == remainders[j] && i < j)
  }

  /**
   A largest-remainder allocation: it adds up to the total, every share is the floor of its exact
   quota or one more, and whoever got the extra cent has priority over whoever did not.
   */
  ghost predicate IsAllocation(parts: seq<int>, total: nat, weights: seq<nat>, all: nat)
    requires all > 0
  {
    var floors, remainders := Floors(total, weights, all), Remainders(total, weights, all);
    && |parts| == |weights|
    && Sum(parts) == total
    && (forall i | 0 <= i < |parts| :: floors[i] <= parts[i] <= floors[i] + 1)
    && (forall i, j | 0 <= i < |parts| && 0 <= j < |parts| && parts[i] > floors[i] && parts[j] == floors[j] ::
          Before(remainders, i, j))
  }

  /**
   The same in terms of exact quotas: every share is less than a cent below its quota and at most one
   above, and whoever is above has the larger remainder, or the same one and the lower index, than
   whoever is not.
   */
  ghost predicate FollowsQuotas(parts: seq<int>, total: nat, weights: seq<nat>, all: nat)
    requires all > 0
  {
    && |parts| == |weights|
    && (forall i | 0 <= i < |parts| :: total * weights[i] - all < all * parts[i] <= total * weights[i] + all)
    && (forall i, j | 0 <= i < |parts| && 0 <= j < |parts| && all * parts[i] > total * weights[i] && all * parts[j] <= total * weights[j] ::
          total * weights[i] % all > total * weights[j] % all || (total * weights[i] % all == total * weights[j] % all && i < j))
  }

  lemma QuotaOf(exact: nat, all: nat, part: int)
    requires all > 0 && exact / all <= part <= exact / all + 1
    ensures exact - all < all * part <= exact + all
    ensures part > exact / all <==> all * part > exact
  {
    var floor := exact / all;
    assert exact == all * floor + exact % all;
    if part == floor {
      assert all * part == all * floor;
    } else {
      assert all * part == all * floor + all;
    }
  }

  lemma AllocationFollowsQuotas(parts: seq<int>, total: nat, weights: seq<nat>, all: nat)
    requires all > 0 && IsAllocation(parts, total, weights, all)
    ensures FollowsQuotas(parts, total, weights, all)
  {
    forall i | 0 <= i < |parts|
      ensures total * weights[i] - all < all * parts[i] <= total * weights[i] + all
      ensures parts[i] > Floors(total, weights, all)[i] <==> all * parts[i] > total * weights[i]
    {
      QuotaOf(total * weights[i], all, parts[i]);
    }
    forall i, j | 0 <= i < |parts| && 0 <= j < |parts| && all * parts[i] > total * weights[i] && all * parts[j] <= total * weights[j]
      ensures total * weights[i] % all > total * weights[j] % all || (total * weights[i] % all == total * weights[j] % all && i < j)
    {
      assert Before(Remainders(total, weights, all), i, j);
    }
  }

  datatype Error = Negative | ZeroWeights

  /** The oracle; Python raises ValueError in both error cases. */
  method Apportion(total: int, weights: seq<int>) returns (r: Result<seq<int>, Error>)
    ensures r == Err(Negative) <==> total < 0 || exists i | 0 <= i < |weights| :: weights[i] < 0
    ensures r == Err(ZeroWeights) <==> total > 0 && forall i | 0 <= i < |weights| :: weights[i] == 0
    ensures r.Ok? ==> |r.value| == |weights| && Sum(r.value) == total >= 0
    ensures r.Ok? ==> forall i | 0 <= i < |weights| :: weights[i] == 0 ==> r.value[i] == 0
    ensures r.Ok? && Sum(weights) > 0 ==> NonNegative(weights) && IsAllocation(r.value, total, weights, Sum(weights))
    ensures r.Ok? && Sum(weights) > 0 ==> FollowsQuotas(r.value, total, weights, Sum(weights))
  {
    if total < 0 || exists i | 0 <= i < |weights| :: weights[i] < 0 {
      return Err(Negative);
    }
    var all := Sum(weights);
    SumOfNonNegative(weights);
    if all == 0 {
      if total != 0 {
        return Err(ZeroWeights);
      }
      SumOfZeros(|weights|);
      return Ok(seq(|weights|, _ => 0));
    }
    var parts := ShareByRemainder(total, weights, all);
    AllocationFollowsQuotas(parts, total, weights, all);
    return Ok(parts);
  }

  /** The proportional part of the oracle, for a positive total weight. */
  method ShareByRemainder(total: nat, weights: seq<nat>, all: nat) returns (parts: seq<int>)
    requires all > 0 && all == Sum(weights)
    ensures IsAllocation(parts, total, weights, all)
    ensures forall i | 0 <= i < |weights| :: weights[i] == 0 ==> parts[i] == 0
  {
    ghost var floors := Floors(total, weights, all);
    parts := Floors(total, weights, all);
    var priority := ByPriority(Remainders(total, weights, all));
    var extra := total - Sum(parts);
    ExtraIsBounded(total, weights, all);
    PositivesAreIndices(Remainders(total, weights, all));
    for t := 0 to extra
      invariant Raised(parts, floors, priority[..t]) && Sum(parts) == Sum(floors) + t
    {
      assert priority[t] in priority;
      SumAfterIncrement(parts, priority[t]);
      RaisedOnce(parts, floors, Remainders(total, weights, all), priority, t);
      parts := parts[priority[t] := parts[priority[t]] + 1];
    }
    RaisedByPriority(parts, floors, Remainders(total, weights, all), priority, extra);
    forall i | 0 <= i < |weights| && weights[i] == 0
      ensures parts[i] == 0
    {
      ZeroRemainderGetsNoExtra(total, weights, all, priority, i);
    }
  }

  lemma BeforeOrIn(priority: seq<nat>, extra: nat, b: nat)
    requires extra <= |priority| && b < |priority|
    ensures b >= extra || priority[b] in priority[..extra]
  {
    if b < extra {
      assert priority[..extra][b] == priority[b];
    }
  }

  lemma RaisedOnce(parts: seq<int>, floors: seq<int>, remainders: seq<int>, priority: seq<nat>, t: nat)
    requires |floors| == |remainders| && Sorted(remainders, priority) && t < |priority|
    requires Raised(parts, floors, priority[..t])
    ensures Raised(parts[priority[t] := parts[priority[t]] + 1], floors, priority[..t + 1])
  {
    assert priority[..t + 1] == priority[..t] + [priority[t]];
    assert priority[t] !in priority[..t];
  }

  /** parts is floors with one added at the chosen indices. */
  ghost predicate Raised(parts: seq<int>, floors: seq<int>, chosen: seq<nat>) {
    |parts| == |floors| && forall i: nat | i < |parts| :: parts[i] == if i in chosen then floors[i] + 1 else floors[i]
  }

  /** When the first indices by priority are raised, each of them has priority over each that is not. */
  lemma RaisedByPriority(parts: seq<int>, floors: seq<int>, remainders: seq<int>, priority: seq<nat>, extra: nat)
    requires |floors| == |remainders| && Sorted(remainders, priority) && extra <= |priority|
    requires forall i: nat :: i in priority <==> i < |remainders|
    requires Raised(parts, floors, priority[..extra])
    ensures forall i, j | 0 <= i < |parts| && 0 <= j < |parts| && parts[i] > floors[i] && parts[j] == floors[j] ::
              Before(remainders, i, j)
  {
    forall i, j | 0 <= i < |parts| && 0 <= j < |parts| && parts[i] > floors[i] && parts[j] == floors[j]
      ensures Before(remainders, i, j)
    {
      assert i in priority[..extra] && j !in priority[..extra] && j in priority;
      var a :| 0 <= a < extra && priority[a] == i;
      var b :| 0 <= b < |priority| && priority[b] == j;
      BeforeOrIn(priority, extra, b);
    }
  }

  predicate NonNegative(weights: seq<int>) {
    forall i | 0 <= i < |weights| :: weights[i] >= 0
  }

  lemma {:induction false} SumOfNonNegative(s: seq<int>)
    requires NonNegative(s)
    ensures Sum(s) >= 0
    ensures Sum(s) == 0 <==> forall i | 0 <= i < |s| :: s[i] == 0
  {
    if s != [] {
      SumOfNonNegative(s[..|s| - 1]);
      assert forall i | 0 <= i < |s| - 1 :: s[..|s| - 1][i] == s[i];
    }
  }

  lemma {:induction false} SumOfZeros(n: nat)
    ensures Sum(seq(n, _ => 0)) == 0
  {
    if n > 0 {
      SumOfZeros(n - 1);
      assert seq(n, _ => 0)[..n - 1] == seq(n - 1, _ => 0);
    }
  }

  lemma {:induction false} SumAfterIncrement(s: seq<int>, i: nat)
    requires i < |s|
    ensures Sum(s[i := s[i] + 1]) == Sum(s) + 1
  {
    var t := s[i := s[i] + 1];
    if i < |s| - 1 {
      SumAfterIncrement(s[..|s| - 1], i);
      assert t[..|s| - 1] == s[..|s| - 1][i := s[i] + 1];
    } else {
      assert t[..|s| - 1] == s[..|s| - 1];
    }
  }

  // ---- The sorted index list ----

  /** Indices below |remainders|, each before the later ones. */
  ghost predicate Sorted(remainders: seq<int>, order: seq<nat>) {
    && (forall a | 0 <= a < |order| :: order[a] < |remainders|)
    && (forall a, b | 0 <= a < b < |order| :: Before(remainders, order[a], order[b]))
  }

  /** All indices, sorted by priority. */
  function ByPriority(remainders: seq<int>): (order: seq<nat>)
    ensures |order| == |remainders| && Sorted(remainders, order)
    ensures forall i: nat :: i in order <==> i < |remainders|
  {
    if remainders == [] then []
    else
      var n := |remainders| - 1;
      var rest := ByPriority(remainders[..n]);
      InsertLast(remainders, rest)
  }

  /** Inserts the last index behind every index with a remainder at least as large. */
  function InsertLast(remainders: seq<int>, order: seq<nat>): (r: seq<nat>)
    requires remainders != [] && Sorted(remainders[..|remainders| - 1], order)
    ensures |r| == |order| + 1 && Sorted(remainders, r)
    ensures forall i: nat :: i in r <==> i in order || i == |remainders| - 1
  {
    var n := |remainders| - 1;
    if order == [] then [n]
    else
      var last := order[|order| - 1];
      if remainders[last] >= remainders[n] then
        assert Sorted(remainders, order + [n]) by { AppendedIsSorted(remainders, order); }
        order + [n]
      else
        var front := order[..|order| - 1];
        assert order == front + [last];
        var r := InsertLast(remainders, front);
        assert Sorted(remainders, r + [last]) by { StillLast(remainders, front, last, r); }
        r + [last]
  }

  /** The new index goes behind an order whose last index has a remainder as large. */
  lemma AppendedIsSorted(remainders: seq<int>, order: seq<nat>)
    requires remainders != [] && order != [] && Sorted(remainders[..|remainders| - 1], order)
    requires remainders[order[|order| - 1]] >= remainders[|remainders| - 1]
    ensures Sorted(remainders, order + [|remainders| - 1])
  {
    var n, last := |remainders| - 1, order[|order| - 1];
    forall a | 0 <= a < |order|
      ensures Before(remainders, order[a], n)
    {
      assert a < |order| - 1 ==> Before(remainders[..n], order[a], last);
    }
    assert forall a, b | 0 <= a < b < |order| :: Before(remainders[..n], order[a], order[b]) ==> Before(remainders, order[a], order[b]);
  }

  /** The last index stays last when the new one goes before it. */
  lemma StillLast(remainders: seq<int>, front: seq<nat>, last: nat, r: seq<nat>)
    requires remainders != [] && Sorted(remainders[..|remainders| - 1], front + [last]) && Sorted(remainders, r)
    requires last < |remainders| - 1 && remainders[last] < remainders[|remainders| - 1]
    requires forall i: nat :: i in r <==> i in front || i == |remainders| - 1
    ensures Sorted(remainders, r + [last])
  {
    var n := |remainders| - 1;
    forall a | 0 <= a < |r|
      ensures Before(remainders, r[a], last)
    {
      assert r[a] in r;
      if r[a] != n {
        var b :| 0 <= b < |front| && front[b] == r[a];
        assert Before(remainders[..n], (front + [last])[b], (front + [last])[|front|]);
      }
    }
  }

  // ---- There are enough positive remainders for the extra cents ----

  function Positives(remainders: seq<int>): set<nat> {
    set i: nat | i < |remainders| && remainders[i] > 0
  }

  lemma {:induction false} SumOfRemainders(remainders: seq<int>, all: nat)
    requires forall i | 0 <= i < |remainders| :: 0 <= remainders[i] < all
    ensures 0 <= Sum(remainders) <= all * |Positives(remainders)|
  {
    if remainders != [] {
      var n := |remainders| - 1;
      SumOfRemainders(remainders[..n], all);
      PositivesGrow(remainders);
      Distribute(all, |Positives(remainders[..n])|, 1);
    }
  }

  lemma PositivesGrow(remainders: seq<int>)
    requires remainders != []
    ensures var n := |remainders| - 1;
            |Positives(remainders)| == |Positives(remainders[..n])| + (if remainders[n] > 0 then 1 else 0)
  {
    var n := |remainders| - 1;
    var fewer := Positives(remainders[..n]);
    assert Positives(remainders) == if remainders[n] > 0 then fewer + {n} else fewer;
  }

  /** Quotients and remainders account for the total: total * all == all * sum of floors + sum of remainders. */
  lemma {:induction false} QuotasAddUp(total: nat, weights: seq<nat>, all: nat)
    requires all > 0
    ensures total * Sum(weights) == all * Sum(Floors(total, weights, all)) + Sum(Remainders(total, weights, all))
  {
    if weights != [] {
      var n := |weights| - 1;
      var front := weights[..n];
      QuotasAddUp(total, front, all);
      var floors, remainders := Floors(total, weights, all), Remainders(total, weights, all);
      assert floors[..n] == Floors(total, front, all) && remainders[..n] == Remainders(total, front, all);
      OneQuota(total * weights[n], all);
      Distribute(total, Sum(front), weights[n]);
      Distribute(all, Sum(floors[..n]), floors[n]);
    }
  }

  lemma OneQuota(product: nat, all: nat)
    requires all > 0
    ensures product == all * (product / all) + product % all
  {
  }

  lemma Distribute(a: int, b: int, c: int)
    ensures a * (b + c) == a * b + a * c
  {
  }

  lemma ExtraIsBounded(total: nat, weights: seq<nat>, all: nat)
    requires all > 0 && all == Sum(weights)
    ensures 0 <= total - Sum(Floors(total, weights, all)) <= |Positives(Remainders(total, weights, all))|
  {
    var floors, remainders := Floors(total, weights, all), Remainders(total, weights, all);
    QuotasAddUp(total, weights, all);
    SumOfRemainders(remainders, all);
    Extra(total, all, Sum(floors), Sum(remainders), |Positives(remainders)|);
  }

  lemma Extra(total: int, all: nat, floors: int, remainders: int, positive: nat)
    requires all > 0 && total * all == all * floors + remainders && 0 <= remainders <= all * positive
    ensures 0 <= total - floors <= positive
  {
    Distribute(all, total, -floors);
    Cancel(all, total - floors, positive);
  }

  lemma Cancel(all: nat, extra: int, positive: nat)
    requires all > 0 && 0 <= all * extra <= all * positive
    ensures 0 <= extra <= positive
  {
    Distribute(all, positive, extra - positive);
  }

  lemma {:induction false} Indices(n: nat) returns (all: set<nat>)
    ensures |all| == n && forall i: nat :: i in all <==> i < n
  {
    if n == 0 {
      all := {};
    } else {
      var fewer := Indices(n - 1);
      all := fewer + {n - 1};
    }
  }

  lemma PositivesAreIndices(remainders: seq<int>)
    ensures |Positives(remainders)| <= |remainders|
  {
    var all := Indices(|remainders|);
    SubsetIsSmaller(Positives(remainders), all);
  }

  /** Everyone with a positive remainder comes before an index without one. */
  lemma PositivesComeFirst(remainders: seq<int>, p: nat)
    requires var priority := ByPriority(remainders); p < |priority| && remainders[priority[p]] <= 0
    ensures |Positives(remainders)| <= p
  {
    var priority := ByPriority(remainders);
    var earlier := Elements(priority[..p]);
    DistinctElements(priority[..p]);
    forall j | j in Positives(remainders)
      ensures j in earlier
    {
      assert j in priority;
      var q :| 0 <= q < |priority| && priority[q] == j;
      BeforeOrIn(priority, p, q);
    }
    SubsetIsSmaller(Positives(remainders), earlier);
  }

  lemma ZeroRemainderGetsNoExtra(total: nat, weights: seq<nat>, all: nat, priority: seq<nat>, i: nat)
    requires all > 0 && all == Sum(weights) && i < |weights| && weights[i] == 0
    requires priority == ByPriority(Remainders(total, weights, all))
    ensures Floors(total, weights, all)[i] == 0
    ensures var extra := total - Sum(Floors(total, weights, all));
            0 <= extra <= |priority| && i !in priority[..extra]
  {
    var remainders := Remainders(total, weights, all);
    var extra := total - Sum(Floors(total, weights, all));
    ExtraIsBounded(total, weights, all);
    PositivesAreIndices(remainders);
    assert total * weights[i] == 0;
    if i in priority[..extra] {
      var p :| 0 <= p < extra && priority[p] == i;
      PositivesComeFirst(remainders, p);
    }
  }

  // ---- The conditions have one solution ----

  lemma {:induction false} SumDiffers(a: seq<int>, b: seq<int>)
    requires |a| == |b| && forall i | 0 <= i < |a| :: a[i] <= b[i]
    ensures Sum(a) <= Sum(b)
    ensures Sum(a) == Sum(b) ==> a == b
  {
    if a != [] {
      SumDiffers(a[..|a| - 1], b[..|b| - 1]);
      if Sum(a) == Sum(b) {
        assert a == a[..|a| - 1] + [a[|a| - 1]] && b == b[..|b| - 1] + [b[|b| - 1]];
      }
    }
  }

  /** Two largest-remainder allocations of the same total are the same. */
  lemma AllocationIsUnique(parts: seq<int>, parts': seq<int>, total: nat, weights: seq<nat>, all: nat)
    requires all > 0 && IsAllocation(parts, total, weights, all) && IsAllocation(parts', total, weights, all)
    ensures parts == parts'
  {
    var remainders := Remainders(total, weights, all);
    if i :| 0 <= i < |parts| && parts[i] > parts'[i] {
      forall j | 0 <= j < |parts|
        ensures parts'[j] <= parts[j]
      {
        assert parts'[j] > parts[j] ==> Before(remainders, i, j) && Before(remainders, j, i);
      }
      SumDiffers(parts', parts);
    } else {
      SumDiffers(parts, parts');
    }
  }
}
