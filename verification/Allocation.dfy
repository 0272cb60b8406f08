/**
 Largest-remainder allocation: splitting whole paise in proportion to weights.

 The exact share of entry i is total * weights[i] / Sum(weights).  It is kept as its floor
 and the remainder of the division, so that no rounding enters the model.
 */
module Allocation {
  import opened Arith
  import opened Sums

  function Floors(total: nat, weights: seq<nat>): (r: seq<nat>)
    requires Sum(weights) > 0
    ensures |r| == |weights|
  {
    seq(|weights|, i requires 0 <= i < |weights| => total * weights[i] / Sum(weights))
  }

  /** The fractional part of each exact share, as a numerator over Sum(weights). */
  function Remainders(total: nat, weights: seq<nat>): (r: seq<nat>)
    requires Sum(weights) > 0
    ensures |r| == |weights|
  {
    seq(|weights|, i requires 0 <= i < |weights| => total * weights[i] % Sum(weights))
  }

  /** Entry i comes before entry j when sorting by (-remainder, index). */
  predicate Ahead(rem: seq<nat>, i: nat, j: nat)
    requires i < |rem| && j < |rem|
  {
    rem[i] > rem[j] || (rem[i] == rem[j] && i < j)
  }

  // ------------------------------------------------------------ the sorted order of the indices

  predicate Indices(rem: seq<nat>, order: seq<nat>) {
    forall a :: 0 <= a < |order| ==> order[a] < |rem|
  }

  predicate Sorted(rem: seq<nat>, order: seq<nat>)
    requires Indices(rem, order)
  {
    forall a, b :: 0 <= a < b < |order| ==> Ahead(rem, order[a], order[b])
  }

  function Insert(rem: seq<nat>, order: seq<nat>, i: nat): (r: seq<nat>)
    requires i < |rem| && Indices(rem, order)
    ensures Indices(rem, r) && |r| == |order| + 1
    ensures forall x :: x in r <==> x == i || x in order
  {
    if order == [] then [i]
    else if Ahead(rem, i, order[0]) then [i] + order
    else
      var rest := Insert(rem, order[1..], i);
      assert forall x :: x in order <==> x == order[0] || x in order[1..];
      [order[0]] + rest
  }

  /** The first n indices in sorted order. */
  function OrderOf(rem: seq<nat>, n: nat): (r: seq<nat>)
    requires n <= |rem|
    ensures Indices(rem, r) && |r| == n
    ensures forall x: nat :: x in r <==> x < n
  {
    if n == 0 then [] else Insert(rem, OrderOf(rem, n - 1), n - 1)
  }

  lemma {:induction false} InsertKeepsSorted(rem: seq<nat>, order: seq<nat>, i: nat)
    requires i < |rem| && Indices(rem, order) && Sorted(rem, order) && i !in order
    ensures Sorted(rem, Insert(rem, order, i))
  {
    if order != [] && !Ahead(rem, i, order[0]) {
      InsertKeepsSorted(rem, order[1..], i);
      var rest := Insert(rem, order[1..], i);
      forall b | 0 <= b < |rest| ensures Ahead(rem, order[0], rest[b]) {
        assert rest[b] in rest;
        if rest[b] != i {
          var c :| 0 <= c < |order[1..]| && order[1..][c] == rest[b];
          assert Ahead(rem, order[0], order[c + 1]);
        }
      }
    }
  }

  lemma {:induction false} OrderIsSorted(rem: seq<nat>, n: nat)
    requires n <= |rem|
    ensures Sorted(rem, OrderOf(rem, n))
  {
    if n > 0 {
      OrderIsSorted(rem, n - 1);
      InsertKeepsSorted(rem, OrderOf(rem, n - 1), n - 1);
    }
  }

  function Along(rem: seq<nat>, order: seq<nat>): (r: seq<nat>)
    requires Indices(rem, order)
    ensures |r| == |order|
  {
    seq(|order|, a requires 0 <= a < |order| => rem[order[a]])
  }

  lemma {:induction false} SumAlongInsert(rem: seq<nat>, order: seq<nat>, i: nat)
    requires i < |rem| && Indices(rem, order)
    ensures Sum(Along(rem, Insert(rem, order, i))) == Sum(Along(rem, order)) + rem[i]
  {
    var ins := Along(rem, Insert(rem, order, i));
    if order == [] || Ahead(rem, i, order[0]) {
      assert ins == [rem[i]] + Along(rem, order);
      SumCons(rem[i], Along(rem, order));
    } else {
      SumAlongInsert(rem, order[1..], i);
      assert ins == [rem[order[0]]] + Along(rem, Insert(rem, order[1..], i));
      assert Along(rem, order) == [rem[order[0]]] + Along(rem, order[1..]);
      SumCons(rem[order[0]], Along(rem, Insert(rem, order[1..], i)));
      SumCons(rem[order[0]], Along(rem, order[1..]));
    }
  }

  lemma {:induction false} SumCons(x: int, s: seq<int>)
    ensures Sum([x] + s) == x + Sum(s)
  {
    if s != [] {
      SumCons(x, s[..|s| - 1]);
      assert ([x] + s)[..|s|] == [x] + s[..|s| - 1];
    }
  }

  lemma {:induction false} SumAlongOrder(rem: seq<nat>, n: nat)
    requires n <= |rem|
    ensures Sum(Along(rem, OrderOf(rem, n))) == Sum(rem[..n])
  {
    hide Insert, Ahead;
    if n > 0 {
      SumAlongOrder(rem, n - 1);
      SumAlongInsert(rem, OrderOf(rem, n - 1), n - 1);
      SumPrefix(rem, n - 1);
    }
  }

  // ------------------------------------------------------------ how much is left over after the floors

  lemma ShareSplit(total: nat, weights: seq<nat>, i: nat)
    requires Sum(weights) > 0 && i < |weights|
    ensures Sum(weights) * Floors(total, weights)[i] + Remainders(total, weights)[i] == total * weights[i]
    ensures Remainders(total, weights)[i] < Sum(weights)
  {
    DivMod(total * weights[i], Sum(weights));
  }

  /** What the floors leave over is exactly the remainders, in units of Sum(weights). */
  lemma LeftoverIsRemainders(total: nat, weights: seq<nat>)
    requires Sum(weights) > 0
    ensures Sum(weights) * (total - Sum(Floors(total, weights))) == Sum(Remainders(total, weights))
  {
    var w := Sum(weights);
    var scaled := seq(|weights|, i requires 0 <= i < |weights| => w * Floors(total, weights)[i]);
    var exact := seq(|weights|, i requires 0 <= i < |weights| => total * weights[i]);
    forall i | 0 <= i < |weights| ensures exact[i] == scaled[i] + Remainders(total, weights)[i] {
      ShareSplit(total, weights, i);
    }
    SumAdds(scaled, Remainders(total, weights), exact);
    SumScales(Floors(total, weights), w, scaled);
    SumScales(weights, total, exact);
    assert w * (total - Sum(Floors(total, weights))) == w * total - w * Sum(Floors(total, weights));
  }

  lemma {:induction false} SumBelow(s: seq<nat>, bound: nat)
    requires forall i :: 0 <= i < |s| ==> s[i] < bound
    ensures Sum(s) <= bound * |s|
  {
    if s != [] {
      SumBelow(s[..|s| - 1], bound);
      assert bound * |s| == bound * (|s| - 1) + bound;
    }
  }

  function Leftover(total: nat, weights: seq<nat>): (r: nat)
    requires Sum(weights) > 0
    ensures r <= |weights|
  {
    LeftoverRange(total, weights);
    total - Sum(Floors(total, weights))
  }

  lemma LeftoverRange(total: nat, weights: seq<nat>)
    requires Sum(weights) > 0
    ensures 0 <= total - Sum(Floors(total, weights)) <= |weights|
  {
    hide Floors, Remainders, Sum, OrderOf, Bumped;
    var w, rem := Sum(weights), Remainders(total, weights);
    LeftoverIsRemainders(total, weights);
    forall i | 0 <= i < |rem| ensures rem[i] < w {
      ShareSplit(total, weights, i);
    }
    SumBelow(rem, w);
    SumNonNegative(rem);
    QuotientRange(w, total - Sum(Floors(total, weights)), |weights|);
  }

  /** Only entries with a fractional part are among the first Leftover indices of the order. */
  lemma BumpedHaveRemainder(total: nat, weights: seq<nat>, k: nat)
    requires Sum(weights) > 0 && k < Leftover(total, weights)
    ensures var rem := Remainders(total, weights); rem[OrderOf(rem, |rem|)[k]] > 0
  {
    hide Floors, Remainders, Sum, OrderOf, Bumped;
    var w, rem := Sum(weights), Remainders(total, weights);
    var order, left := OrderOf(rem, |rem|), Leftover(total, weights);
    var along := Along(rem, order);
    OrderIsSorted(rem, |rem|);
    SumAlongOrder(rem, |rem|);
    assert rem[..|rem|] == rem;
    LeftoverIsRemainders(total, weights);
    assert w * left == Sum(along);
    if rem[order[k]] == 0 {
      forall b | k <= b < |order| ensures along[b] == 0 {
        assert b == k || Ahead(rem, order[k], order[b]);
      }
      SumSplit(along, k);
      SumZeros(along[k..]);
      forall i | 0 <= i < k ensures along[..k][i] < w {
        ShareSplit(total, weights, order[i]);
      }
      SumBelow(along[..k], w);
      WithinOne(w, left, k);
    }
  }

  lemma {:induction false} SumSplit(s: seq<int>, k: nat)
    requires k <= |s|
    ensures Sum(s) == Sum(s[..k]) + Sum(s[k..])
    decreases |s| - k
  {
    if k == |s| {
      assert s[..k] == s;
    } else {
      SumSplit(s, k + 1);
      SumPrefix(s, k);
      assert s[k..] == [s[k]] + s[k + 1..];
      SumCons(s[k], s[k + 1..]);
    }
  }

  // ------------------------------------------------------------ the allocation itself

  /** The parts after the first k entries of the order have been given one more. */
  function Bumped(parts: seq<nat>, order: seq<nat>, k: nat): (r: seq<nat>)
    requires k <= |order| && Indices(parts, order)
    ensures |r| == |parts|
  {
    if k == 0 then parts
    else
      var before := Bumped(parts, order, k - 1);
      before[order[k - 1] := before[order[k - 1]] + 1]
  }

  function Allocated(total: nat, weights: seq<nat>): (parts: seq<nat>)
    ensures |parts| == |weights|
  {
    SumNonNegative(weights);
    if total == 0 || Sum(weights) == 0 then
      seq(|weights|, i => 0)
    else
      var rem := Remainders(total, weights);
      Bumped(Floors(total, weights), OrderOf(rem, |rem|), Leftover(total, weights))
  }

  lemma {:induction false} BumpedAt(parts: seq<nat>, order: seq<nat>, k: nat, i: nat)
    requires k <= |order| && Indices(parts, order) && i < |parts|
    requires forall a, b :: 0 <= a < b < |order| ==> order[a] != order[b]
    ensures Bumped(parts, order, k)[i] == parts[i] + (if i in order[..k] then 1 else 0)
  {
    if k > 0 {
      BumpedAt(parts, order, k - 1, i);
      assert order[..k] == order[..k - 1] + [order[k - 1]];
      assert order[k - 1] !in order[..k - 1];
    }
  }

  lemma {:induction false} BumpedSum(parts: seq<nat>, order: seq<nat>, k: nat)
    requires k <= |order| && Indices(parts, order)
    ensures Sum(Bumped(parts, order, k)) == Sum(parts) + k
  {
    if k > 0 {
      BumpedSum(parts, order, k - 1);
      var before := Bumped(parts, order, k - 1);
      SumUpdate(before, order[k - 1], before[order[k - 1]] + 1);
    }
  }

  /** The first Leftover indices in order of (-remainder, index) are the ones that get one more. */
  predicate Favoured(total: nat, weights: seq<nat>, i: nat)
    requires Sum(weights) > 0 && i < |weights|
  {
    var rem := Remainders(total, weights);
    i in OrderOf(rem, |rem|)[..Leftover(total, weights)]
  }

  lemma AllocatedAt(total: nat, weights: seq<nat>, i: nat)
    requires total > 0 && Sum(weights) > 0 && i < |weights|
    ensures Allocated(total, weights)[i] == Floors(total, weights)[i] + (if Favoured(total, weights, i) then 1 else 0)
  {
    var rem := Remainders(total, weights);
    OrderIsSorted(rem, |rem|);
    BumpedAt(Floors(total, weights), OrderOf(rem, |rem|), Leftover(total, weights), i);
  }

  /** Nothing is lost or invented: the parts add up to the total. */
  lemma AllocationIsExact(total: nat, weights: seq<nat>)
    requires Sum(weights) > 0 || total == 0
    ensures Sum(Allocated(total, weights)) == total
  {
    if total == 0 || Sum(weights) == 0 {
      SumZeros(Allocated(total, weights));
    } else {
      var rem := Remainders(total, weights);
      BumpedSum(Floors(total, weights), OrderOf(rem, |rem|), Leftover(total, weights));
    }
  }

  /** Each part is the floor or the ceiling of its exact share: an exact share is never bumped, no share by a whole paisa or more. */
  lemma AllocationQuota(total: nat, weights: seq<nat>, i: nat)
    requires Sum(weights) > 0 && i < |weights|
    ensures FloorOrCeiling(Sum(weights), Allocated(total, weights)[i], total * weights[i], Remainders(total, weights)[i])
  {
    hide *;
    if total == 0 {
      QuotaOfNothing(weights, i);
    } else {
      ShareSplit(total, weights, i);
      AllocatedAt(total, weights, i);
      FavouredHaveRemainder(total, weights, i);
      RoundedEither(Sum(weights), Floors(total, weights)[i], Remainders(total, weights)[i], total * weights[i], Favoured(total, weights, i));
    }
  }

  /** The part is less than one paisa away from its exact share of the total, in proportion of the weight to the whole. */
  predicate NearShare(total: nat, part: nat, weight: nat, whole: nat) {
    if whole == 0 then part == 0 else Within(total * weight - whole * part, (whole as int) - 1)
  }

  /** The same, as a distance. */
  lemma QuotaIsNear(total: nat, weights: seq<nat>, i: nat)
    requires i < |weights|
    ensures NearShare(total, Allocated(total, weights)[i], weights[i], Total(weights))
  {
    hide Allocated, Remainders, Sum;
    if Total(weights) > 0 {
      AllocationQuota(total, weights, i);
      ErrorWithin(Total(weights), Allocated(total, weights)[i], total, weights[i], Remainders(total, weights)[i]);
    } else {
      NothingAllocated(total, weights, i);
    }
  }

  lemma NothingAllocated(total: nat, weights: seq<nat>, i: nat)
    requires Sum(weights) == 0 && i < |weights|
    ensures Allocated(total, weights)[i] == 0
  {
  }

  lemma QuotaOfNothing(weights: seq<nat>, i: nat)
    requires Sum(weights) > 0 && i < |weights|
    ensures FloorOrCeiling(Sum(weights), Allocated(0, weights)[i], 0 * weights[i], Remainders(0, weights)[i])
  {
    hide Remainders, Sum;
  }

  lemma FavouredHaveRemainder(total: nat, weights: seq<nat>, i: nat)
    requires Sum(weights) > 0 && i < |weights|
    ensures Favoured(total, weights, i) ==> Remainders(total, weights)[i] > 0
  {
    hide Floors, Remainders, Sum, OrderOf, Leftover;
    var rem := Remainders(total, weights);
    if Favoured(total, weights, i) {
      var k :| 0 <= k < Leftover(total, weights) && OrderOf(rem, |rem|)[k] == i;
      BumpedHaveRemainder(total, weights, k);
    }
  }

  /** No part exceeds its weight when the total does not exceed the weights, and then an equal total gives every weight back. */
  lemma AllocationWithinWeights(total: nat, weights: seq<nat>, i: nat)
    requires total <= Sum(weights) && i < |weights|
    ensures Allocated(total, weights)[i] <= weights[i]
    ensures total == Sum(weights) ==> Allocated(total, weights)[i] == weights[i]
  {
    hide Floors, Remainders, Sum, OrderOf, Bumped;
    var w := Sum(weights);
    SumNonNegative(weights);
    if w > 0 {
      var p, x := Allocated(total, weights)[i], weights[i];
      AllocationQuota(total, weights, i);
      MulMonotone(x, total, w);
      WithinOne(w, p, x);
      if total == w {
        ShareSplit(total, weights, i);
        NoRemainder(w, Floors(total, weights)[i], Remainders(total, weights)[i], x);
        SameFactor(w, p, x);
      }
    }
  }

  /** A larger weight never gets a smaller part. */
  lemma AllocationIsMonotone(total: nat, weights: seq<nat>, i: nat, j: nat)
    requires i < |weights| && j < |weights| && weights[i] > weights[j]
    ensures Allocated(total, weights)[i] >= Allocated(total, weights)[j]
  {
    hide Floors, Remainders, Sum, OrderOf, Bumped;
    var w := Sum(weights);
    SumNonNegative(weights);
    if total > 0 && w > 0 {
      AllocatedAt(total, weights, i);
      AllocatedAt(total, weights, j);
      ShareSplit(total, weights, i);
      ShareSplit(total, weights, j);
      var rem, floors := Remainders(total, weights), Floors(total, weights);
      MulMonotone(total, weights[j] + 1, weights[i]);
      assert total * (weights[j] + 1) == total * weights[j] + total;
      QuotientOrder(w, total * weights[i], floors[i], rem[i], total * weights[j], floors[j], rem[j]);
      if floors[i] == floors[j] && Favoured(total, weights, j) {
        FavouredUpward(total, weights, i, j);
      }
    }
  }

  lemma FavouredUpward(total: nat, weights: seq<nat>, i: nat, j: nat)
    requires Sum(weights) > 0 && i < |weights| && j < |weights|
    requires Ahead(Remainders(total, weights), i, j)
    requires Favoured(total, weights, j)
    ensures Favoured(total, weights, i)
  {
    var rem := Remainders(total, weights);
    var order := OrderOf(rem, |rem|);
    OrderIsSorted(rem, |rem|);
    assert i in order;
    var a :| 0 <= a < |order| && order[a] == i;
    var b :| 0 <= b < Leftover(total, weights) && order[b] == j;
    assert forall y, z :: 0 <= y < z < |order| ==> Ahead(rem, order[y], order[z]);
    assert order[..Leftover(total, weights)][a] == i;
  }

  /**
   The rule without any sorting: an entry gets one more paisa exactly when fewer than Leftover entries are ahead of it.
   */
  lemma FavouredByRank(total: nat, weights: seq<nat>, i: nat)
    requires Sum(weights) > 0 && i < |weights|
    ensures var rem := Remainders(total, weights);
      Favoured(total, weights, i) <==> |set j | 0 <= j < |rem| && Ahead(rem, j, i)| < Leftover(total, weights)
  {
    var rem := Remainders(total, weights);
    var order := OrderOf(rem, |rem|);
    hide Remainders, Sum, OrderOf, Leftover;
    OrderIsSorted(rem, |rem|);
    assert i in order;
    var a :| 0 <= a < |order| && order[a] == i;
    AheadAreBefore(rem, order, a);
    DistinctCount(order, a);
    FirstOf(order, a, Leftover(total, weights));
  }

  /** In a sorted order of all indices, what is ahead of an entry is what stands before it. */
  lemma AheadAreBefore(rem: seq<nat>, order: seq<nat>, a: nat)
    requires Indices(rem, order) && Sorted(rem, order) && a < |order|
    requires forall x: nat :: x in order <==> x < |rem|
    ensures (set j | 0 <= j < |rem| && Ahead(rem, j, order[a])) == set b | 0 <= b < a :: order[b]
  {
    var i := order[a];
    var ahead := set j | 0 <= j < |rem| && Ahead(rem, j, i);
    var before := set b | 0 <= b < a :: order[b];
    forall j ensures j in ahead <==> j in before {
      if j in ahead {
        assert j in order;
        var b :| 0 <= b < |order| && order[b] == j;
        assert forall y, z :: 0 <= y < z < |order| ==> Ahead(rem, order[y], order[z]);
      }
      if j in before {
        var b :| 0 <= b < a && order[b] == j;
        assert Ahead(rem, order[b], order[a]);
      }
    }
  }

  /** In a sequence without repeats, the element at a is among the first k exactly when a < k. */
  lemma FirstOf(order: seq<nat>, a: nat, k: nat)
    requires a < |order| && k <= |order|
    requires forall x, y :: 0 <= x < y < |order| ==> order[x] != order[y]
    ensures order[a] in order[..k] <==> a < k
  {
    assert a < k ==> order[..k][a] == order[a];
  }

  lemma {:induction false} DistinctCount(order: seq<nat>, a: nat)
    requires a <= |order|
    requires forall x, y :: 0 <= x < y < |order| ==> order[x] != order[y]
    ensures |set b | 0 <= b < a :: order[b]| == a
  {
    if a > 0 {
      DistinctCount(order, a - 1);
      assert (set b | 0 <= b < a :: order[b]) == (set b | 0 <= b < a - 1 :: order[b]) + {order[a - 1]};
    }
  }

  /** The allocation as the service runs it: floors first, then one more to the first entries of the sorted order. */
  method Allocate(total: nat, weights: seq<nat>) returns (parts: seq<nat>)
    ensures parts == Allocated(total, weights)
    ensures Sum(weights) > 0 || total == 0 ==> Sum(parts) == total
    ensures total <= Sum(weights) ==> forall i :: 0 <= i < |weights| ==> parts[i] <= weights[i]
  {
    hide Sum, OrderOf, Remainders;
    AllocationProperties(total, weights);
    SumNonNegative(weights);
    if total == 0 || Sum(weights) == 0 {
      return seq(|weights|, i => 0);
    }
    parts := Floors(total, weights);
    var leftover := total - Sum(parts);
    LeftoverRange(total, weights);
    var rem := Remainders(total, weights);
    var order := OrderOf(rem, |rem|);
    for k := 0 to leftover
      invariant parts == Bumped(Floors(total, weights), order, k)
    {
      parts := parts[order[k] := parts[order[k]] + 1];
    }
  }

  lemma AllocationProperties(total: nat, weights: seq<nat>)
    ensures Sum(weights) > 0 || total == 0 ==> Sum(Allocated(total, weights)) == total
    ensures total <= Sum(weights) ==> forall i :: 0 <= i < |weights| ==> Allocated(total, weights)[i] <= weights[i]
  {
    if Sum(weights) > 0 || total == 0 {
      AllocationIsExact(total, weights);
    }
    if total <= Sum(weights) {
      forall i | 0 <= i < |weights| ensures Allocated(total, weights)[i] <= weights[i] {
        AllocationWithinWeights(total, weights, i);
      }
    }
  }
}
