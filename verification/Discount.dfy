/** Coupon discounts: what a coupon takes off, and how it is shared over the order lines. */
module Discount {
  import opened Arith
  import opened Sums
  import opened Allocation
  import opened GstCalc
  import opened Options

  /** A coupon's value terms; percentOff is in hundredths of a percent. */
  datatype Coupon =
    | Percentage(percentOff: nat, maxDiscount: Option<nat>)
    | Fixed(amountOff: nat)
    | FreeShipping
    | OtherKind(kind: string)

  datatype Taken = Taken(goods: nat, shipping: nat) | UnknownKind(kind: string)

  function Min(a: nat, b: nat): nat {
    if a <= b then a else b
  }

  function ComputeDiscount(c: Coupon, subtotal: nat, shipping: nat): Taken {
    match c
    case Percentage(p, cap) =>
      var raw := HalfUp(subtotal * p, 10_000);
      var capped := if cap.Some? then Min(raw, cap.value) else raw;
      Taken(Min(capped, subtotal), 0)
    case Fixed(a) => Taken(Min(a, subtotal), 0)
    case FreeShipping => Taken(0, shipping)
    case OtherKind(k) => UnknownKind(k)
  }

  function ShareDiscount(discount: nat, lineValues: seq<nat>): (shares: seq<nat>)
    ensures |shares| == |lineValues|
  {
    Allocated(discount, lineValues)
  }

  /** A coupon takes off goods or shipping, never both, and never more than there is of either. */
  lemma DiscountWithin(c: Coupon, subtotal: nat, shipping: nat)
    requires !c.OtherKind?
    ensures var d := ComputeDiscount(c, subtotal, shipping);
      d.Taken? && d.goods <= subtotal && d.shipping <= shipping && (d.goods == 0 || d.shipping == 0)
  {
  }

  /** The smaller of what the coupon is worth and what there is. */
  predicate IsLeast(r: nat, a: nat, b: nat) {
    r <= a && r <= b && (r == a || r == b)
  }

  /**
   What each kind of coupon takes off: a percentage its nearest number of paise, held down to the limit and the subtotal; a fixed coupon
   its amount, held down to the subtotal; free shipping exactly the shipping; any other kind nothing but a refusal.
   */
  lemma DiscountExactly(c: Coupon, subtotal: nat, shipping: nat, nearest: nat)
    requires c.Percentage? ==> Nearest(subtotal * c.percentOff, 10_000, nearest)
    ensures var d := ComputeDiscount(c, subtotal, shipping);
      && (c.OtherKind? <==> d.UnknownKind?)
      && (c.FreeShipping? ==> d == Taken(0, shipping))
      && (c.Fixed? ==> d.shipping == 0 && IsLeast(d.goods, c.amountOff, subtotal))
      && (c.Percentage? && c.maxDiscount.None? ==> d.shipping == 0 && IsLeast(d.goods, nearest, subtotal))
      && (c.Percentage? && c.maxDiscount.Some? ==>
        d.shipping == 0 && IsLeast(d.goods, if c.maxDiscount.value <= subtotal then c.maxDiscount.value else subtotal, nearest))
  {
    if c.Percentage? {
      NearestUnique(subtotal * c.percentOff, 10_000, HalfUp(subtotal * c.percentOff, 10_000), nearest);
    }
    hide HalfUp, Nearest;
  }

  /** A percentage up to 100% never reaches its cap at the subtotal: without a limit it is the percentage rounded to nearest. */
  lemma PercentageIsNearest(p: nat, subtotal: nat, shipping: nat)
    requires p <= 10_000
    ensures Nearest(subtotal * p, 10_000, ComputeDiscount(Percentage(p, None), subtotal, shipping).goods)
  {
    var raw := HalfUp(subtotal * p, 10_000);
    hide HalfUp;
    MulMonotone(subtotal, p, 10_000);
    RoundedWithin(subtotal, subtotal * p, raw);
  }

  lemma RoundedWithin(subtotal: nat, part: nat, raw: nat)
    requires part <= subtotal * 10_000 && Nearest(part, 10_000, raw)
    ensures raw <= subtotal
  {
  }

  /** A larger percentage, like a larger limit, never takes off less. */
  lemma PercentageIsMonotone(p: nat, q: nat, cap: Option<nat>, subtotal: nat, shipping: nat)
    requires p <= q
    ensures ComputeDiscount(Percentage(p, cap), subtotal, shipping).goods <= ComputeDiscount(Percentage(q, cap), subtotal, shipping).goods
  {
    var a, b := HalfUp(subtotal * p, 10_000), HalfUp(subtotal * q, 10_000);
    MulMonotone(subtotal, p, q);
    hide HalfUp;
    NearestMonotone(subtotal * p, subtotal * q, a, b);
  }

  lemma NearestMonotone(m: nat, n: nat, a: nat, b: nat)
    requires m <= n && Nearest(m, 10_000, a) && Nearest(n, 10_000, b)
    ensures a <= b
  {
  }

  /** What is left of each line once its share is taken off. */
  function Remaining(lineValues: seq<nat>, shares: seq<nat>): (r: seq<int>)
    requires |lineValues| == |shares|
    ensures |r| == |lineValues|
  {
    seq(|lineValues|, i requires 0 <= i < |lineValues| => (lineValues[i] as int) - shares[i])
  }

  /**
   A coupon on an order with these line values: the shares add up to the discount, no line is discounted by more than it costs,
   and what remains adds up to the subtotal less the discount.
   */
  lemma SharesReachTheLines(c: Coupon, lineValues: seq<nat>, shipping: nat)
    requires !c.OtherKind?
    ensures var subtotal := Total(lineValues);
      var d := ComputeDiscount(c, subtotal, shipping);
      var shares := ShareDiscount(d.goods, lineValues);
      && Sum(shares) == d.goods
      && (forall i :: 0 <= i < |lineValues| ==> 0 <= Remaining(lineValues, shares)[i] <= lineValues[i])
      && Sum(Remaining(lineValues, shares)) == subtotal - d.goods
  {
    var subtotal := Total(lineValues);
    var d := ComputeDiscount(c, subtotal, shipping);
    DiscountWithin(c, subtotal, shipping);
    hide ComputeDiscount, Allocated, Sum;
    var shares := ShareDiscount(d.goods, lineValues);
    AllocationProperties(d.goods, lineValues);
    SumAdds(Remaining(lineValues, shares), shares, lineValues);
  }

  /** Each line's share of the discount is less than one paisa away from its exact share, in proportion to the line values. */
  lemma SharesFollowTheLines(discount: nat, lineValues: seq<nat>, i: nat)
    requires i < |lineValues|
    ensures NearShare(discount, ShareDiscount(discount, lineValues)[i], lineValues[i], Total(lineValues))
  {
    hide Allocated, NearShare, Sum;
    QuotaIsNear(discount, lineValues, i);
  }
}
