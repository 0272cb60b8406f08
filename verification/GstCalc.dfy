/**
 The GST arithmetic on whole paise.

 Rates are whole thousandths of a percent, so a rate r takes r / 100000 of a value; every
 decimal of the service is a quotient of two integers here and nothing is rounded twice.
 */
module GstCalc {
  import opened Arith
  import opened Sums
  import opened Allocation

  /** r is num / den rounded to the nearest whole number, a half upwards. */
  predicate Nearest(num: nat, den: nat, r: nat) {
    2 * num - den < 2 * (den * r) <= 2 * num + den
  }

  /** Rounding to the nearest whole number, a half away from zero. */
  function HalfUp(num: int, den: nat): (r: int)
    requires den > 0
    ensures num >= 0 ==> r >= 0 && Nearest(num, den, r)
    ensures num < 0 ==> r <= 0 && Nearest(0 - num, den, 0 - r)
  {
    var size := if num < 0 then 0 - num else num;
    HalfUpRange(size, den);
    var rounded := (2 * size + den) / (2 * den);
    if num < 0 then 0 - rounded else rounded
  }

  lemma HalfUpRange(num: nat, den: nat)
    requires den > 0
    ensures Nearest(num, den, (2 * num + den) / (2 * den))
  {
    var q := (2 * num + den) / (2 * den);
    DivMod(2 * num + den, 2 * den);
    TwiceProduct(den, q);
  }

  lemma TwiceProduct(den: nat, q: nat)
    ensures 2 * den * q == 2 * (den * q)
  {
  }

  /** A value is rounded to nearest by one whole number only. */
  lemma NearestUnique(num: nat, den: nat, p: nat, q: nat)
    requires den > 0 && Nearest(num, den, p) && Nearest(num, den, q)
    ensures p == q
  {
    WithinOne(den, p, q);
    WithinOne(den, q, p);
  }

  // ------------------------------------------------------------ data

  datatype Treatment = Taxable | Exempt | NilRated | NonGst
  datatype PricingMode = Inclusive | Exclusive | UnknownMode(name: string)
  datatype ShippingTreatment = NotTaxed | TaxableWithGoods | UnknownShipping(name: string)
  datatype RoundingPolicy = LineHalfUp | InvoiceHalfUp | UnknownPolicy(name: string)

  datatype Rates = Rates(cgst: nat, sgst: nat, igst: nat) {
    function Total(): nat { cgst + sgst + igst }

    /** How many components are rounded on their own. */
    function Components(): (k: nat)
      ensures k <= 3
    {
      (if cgst > 0 then 1 else 0) + (if sgst > 0 then 1 else 0) + (if igst > 0 then 1 else 0)
    }
  }

  datatype CalcLine = CalcLine(key: int, value: nat, treatment: Treatment, rates: Rates)

  datatype Amounts = Amounts(taxable: nat, cgst: nat, sgst: nat, igst: nat) {
    function Tax(): nat { cgst + sgst + igst }
  }

  datatype LineTax = LineTax(key: int, shipping: nat, gross: nat, amounts: Amounts, roundOff: int)

  datatype GstResult = GstResult(
    lines: seq<LineTax>, shippingUntaxed: nat, taxable: nat, cgst: nat, sgst: nat, igst: nat,
    roundOff: int, tax: nat, taxAdded: nat, taxIncluded: nat)

  datatype Outcome = Calculated(result: GstResult) | UnknownConfiguration

  /** The four columns that are filled line by line or scattered back from a slab. */
  datatype Column = TaxableColumn | CgstColumn | SgstColumn | IgstColumn

  function Part(a: Amounts, c: Column): nat {
    match c
    case TaxableColumn => a.taxable
    case CgstColumn => a.cgst
    case SgstColumn => a.sgst
    case IgstColumn => a.igst
  }

  function RatesOf(line: CalcLine, intraState: bool): Rates {
    if line.treatment != Taxable then Rates(0, 0, 0)
    else if intraState then Rates(line.rates.cgst, line.rates.sgst, 0)
    else Rates(0, 0, line.rates.igst)
  }

  // ------------------------------------------------------------ one value at one set of rates

  function TaxOn(value: nat, rate: nat): (r: nat)
    ensures rate == 0 ==> r == 0
  {
    HalfUp(value * rate, 100_000)
  }

  function SlabTax(value: nat, rates: Rates, mode: PricingMode): Amounts {
    if rates.Total() == 0 then
      Amounts(value, 0, 0, 0)
    else
      var taxable: nat := if mode == Exclusive then value else HalfUp(value * 100_000, 100_000 + rates.Total());
      Amounts(taxable, TaxOn(taxable, rates.cgst), TaxOn(taxable, rates.sgst), TaxOn(taxable, rates.igst))
  }

  function SlabRoundOff(value: nat, rates: Rates, mode: PricingMode): int {
    var a := SlabTax(value, rates, mode);
    value - a.taxable - a.Tax()
  }

  /**
   The round-off bound at any rates: half a paisa for each component that is rounded, plus half a paisa of the taxable
   value grown by the combined rate.
   */
  lemma SlabRoundOffGeneral(value: nat, rates: Rates)
    ensures var bound := 100_000 + rates.Total() + 100_000 * rates.Components();
      -bound <= 200_000 * SlabRoundOff(value, rates, Inclusive) <= bound
  {
    var a := SlabTax(value, rates, Inclusive);
    if rates.Total() > 0 {
      InclusiveShape(value, rates);
      Distribute(a.taxable, rates);
      ComponentError(a.taxable, rates.cgst);
      ComponentError(a.taxable, rates.sgst);
      ComponentError(a.taxable, rates.igst);
      hide HalfUp, SlabTax, TaxOn;
      ErrorsAddUp(value, a.taxable, a.cgst, a.sgst, a.igst, (100_000 + rates.Total()) * a.taxable,
                  a.taxable * rates.cgst, a.taxable * rates.sgst, a.taxable * rates.igst,
                  rates.Total(), Slack(rates.cgst), Slack(rates.sgst), Slack(rates.igst));
    }
  }

  /** A component that is not charged is not rounded. */
  function Slack(rate: nat): int {
    if rate > 0 then 100_000 else 0
  }

  lemma InclusiveShape(value: nat, rates: Rates)
    requires rates.Total() > 0
    ensures var a := SlabTax(value, rates, Inclusive);
      && Nearest(value * 100_000, 100_000 + rates.Total(), a.taxable)
      && a.cgst == TaxOn(a.taxable, rates.cgst) && a.sgst == TaxOn(a.taxable, rates.sgst) && a.igst == TaxOn(a.taxable, rates.igst)
  {
    hide Nearest;
  }

  lemma ComponentError(t: nat, rate: nat)
    ensures 2 * (t * rate) - Slack(rate) <= 200_000 * TaxOn(t, rate) <= 2 * (t * rate) + Slack(rate)
  {
  }

  /** The four rounding errors, each within its own slack, add up. */
  lemma ErrorsAddUp(v: int, t: int, c: int, s: int, g: int, grown: int, pc: int, ps: int, pg: int, total: int, kc: int, ks: int, kg: int)
    requires 200_000 * v - (100_000 + total) <= 2 * grown <= 200_000 * v + (100_000 + total)
    requires grown == 100_000 * t + pc + ps + pg
    requires 2 * pc - kc <= 200_000 * c <= 2 * pc + kc
    requires 2 * ps - ks <= 200_000 * s <= 2 * ps + ks
    requires 2 * pg - kg <= 200_000 * g <= 2 * pg + kg
    ensures -(100_000 + total + kc + ks + kg) <= 200_000 * (v - t - c - s - g) <= 100_000 + total + kc + ks + kg
  {
  }

  lemma Distribute(t: nat, rates: Rates)
    ensures (100_000 + rates.Total()) * t == 100_000 * t + t * rates.cgst + t * rates.sgst + t * rates.igst
  {
  }

  /** At most two components (the rates of one supply) and a combined rate of at most 100%: at most 2 paise, at most 1 below 100%. */
  lemma SlabRoundOffBound(value: nat, rates: Rates)
    requires rates.Components() <= 2 && rates.Total() <= 100_000
    ensures -2 <= SlabRoundOff(value, rates, Inclusive) <= 2
    ensures rates.Total() < 100_000 ==> -1 <= SlabRoundOff(value, rates, Inclusive) <= 1
  {
    SlabRoundOffGeneral(value, rates);
    hide SlabRoundOff;
    assert rates.Components() <= 2;
  }

  /** The bound of 2 is reached: one paisa at 50% + 50%. */
  lemma SlabRoundOffTight()
    ensures SlabRoundOff(1, Rates(50_000, 50_000, 0), Inclusive) == -2
  {
    OffByTwoAt(1, Rates(50_000, 50_000, 0));
  }

  /** Half the value, a half rounded up. */
  lemma HalfOfValue(v: nat)
    ensures HalfUp(v * 100_000, 200_000) == (v + 1) / 2
  {
    NearestUnique(v * 100_000, 200_000, HalfUp(v * 100_000, 200_000), (v + 1) / 2);
    hide HalfUp;
  }

  lemma SmallRemainder(x: nat, q: nat, r: nat)
    requires x == 100_000 * q + r && r < 100_000
    ensures HalfUp(x, 100_000) == if r < 50_000 then q else q + 1
  {
    NearestUnique(x, 100_000, HalfUp(x, 100_000), if r < 50_000 then q else q + 1);
    hide HalfUp;
  }

  /** Two amounts that add up to whole paise round to the same, unless both end in a half paisa. */
  lemma SharedRounding(x: nat, y: nat, t: nat)
    requires x + y == 100_000 * t
    ensures HalfUp(x, 100_000) + HalfUp(y, 100_000) == t + if x % 100_000 == 50_000 then 1 else 0
  {
    hide HalfUp;
    var q, r := x / 100_000, x % 100_000;
    SmallRemainder(x, q, r);
    if r == 0 {
      SmallRemainder(y, t - q, 0);
    } else {
      SmallRemainder(y, t - q - 1, 100_000 - r);
    }
  }

  /** Two rates that share the whole value tax it exactly, unless both shares end in a half paisa. */
  lemma SharedTax(t: nat, c: nat, s: nat)
    requires c + s == 100_000
    ensures TaxOn(t, c) + TaxOn(t, s) == t + if t * c % 100_000 == 50_000 then 1 else 0
  {
    hide HalfUp;
    assert t * c + t * s == 100_000 * t by { assert t * (c + s) == t * c + t * s; }
    SharedRounding(t * c, t * s, t);
  }

  predicate OffByTwo(v: nat, rates: Rates) {
    SlabRoundOff(v, rates, Inclusive) == 2 || SlabRoundOff(v, rates, Inclusive) == -2
  }

  /** At a combined 100% of two rates a value is off by 2 exactly when it is odd and its half, rounded up, ends in a half paisa of tax. */
  lemma OffByTwoAt(v: nat, rates: Rates)
    requires rates.igst == 0 && rates.cgst + rates.sgst == 100_000
    ensures OffByTwo(v, rates) <==> v % 2 == 1 && (v + 1) / 2 * rates.cgst % 100_000 == 50_000
    ensures SlabRoundOff(v, rates, Inclusive) <= 0
  {
    HalfOfValue(v);
    SharedTax((v + 1) / 2, rates.cgst, rates.sgst);
    hide HalfUp, TaxOn;
  }

  /** Half of the left side is even, half of the right side odd. */
  lemma DifferentParity(x: int, q: int)
    ensures 32 * x != 100_000 * q + 50_000
  {
  }

  /** A multiple of 32 times anything never ends in 50000. */
  lemma NeverHalf(t: nat, c: nat)
    requires c % 32 == 0
    ensures t * c % 100_000 != 50_000
  {
    var m := c / 32;
    assert c == 32 * m;
    assert t * c == 32 * (t * m);
    DifferentParity(t * m, t * c / 100_000);
    DivMod(t * c, 100_000);
  }

  lemma OddHalf(k: nat)
    ensures 50_000 * (2 * k + 1) % 100_000 == 50_000
  {
  }

  lemma Halved(c: nat, m: nat)
    requires m in {2, 4, 8, 16} && c % 2 == 0 && c % (2 * m) != 0
    ensures c / 2 % m != 0
  {
    if m == 2 {
    } else if m == 4 {
    } else if m == 8 {
    } else {
    }
  }

  /** The power of two below m in a number that m does not divide. */
  lemma {:induction false} PowerIn(c: nat, m: nat) returns (power: nat, k: nat)
    requires m in {2, 4, 8, 16, 32} && c % m != 0
    ensures power in {1, 2, 4, 8, 16} && 2 * power <= m && c == power * (2 * k + 1)
    decreases m
  {
    if c % 2 == 1 {
      power, k := 1, c / 2;
    } else {
      Halved(c, m / 2);
      var half;
      half, k := PowerIn(c / 2, m / 2);
      power := 2 * half;
      assert c == 2 * (c / 2);
    }
  }

  /** Any other rate, times a suitable number, does. */
  lemma SomeHalf(c: nat) returns (t: nat)
    requires c % 32 != 0
    ensures t > 0 && t * c % 100_000 == 50_000
  {
    var power, k := PowerIn(c, 32);
    t := 50_000 / power;
    assert t * power == 50_000;
    Regroup(t, power, 2 * k + 1);
    assert t * c == 50_000 * (2 * k + 1);
    OddHalf(k);
  }

  lemma Regroup(a: nat, b: nat, c: nat)
    ensures a * (b * c) == a * b * c
  {
  }

  lemma NeverOffByTwo(rates: Rates, v: nat)
    requires rates.Total() <= 100_000 && rates.Components() <= 2
    requires rates.Total() < 100_000 || rates.Components() <= 1
    ensures !OffByTwo(v, rates)
  {
    SlabRoundOffGeneral(v, rates);
    hide SlabRoundOff;
  }

  lemma WholeRatesOffByTwo(rates: Rates)
    requires rates.igst == 0 && rates.cgst + rates.sgst == 100_000
    ensures (exists v: nat :: OffByTwo(v, rates)) <==> rates.cgst % 32 != 0
  {
    hide OffByTwo;
    if rates.cgst % 32 != 0 {
      var t := SomeHalf(rates.cgst);
      OffByTwoAt(2 * t - 1, rates);
    } else {
      forall v: nat
        ensures !OffByTwo(v, rates)
      {
        OffByTwoAt(v, rates);
        NeverHalf((v + 1) / 2, rates.cgst);
      }
    }
  }

  /** Some value is off by 2 paise exactly at two rates of a combined 100% of which one, in thousandths of a percent, is no multiple of 32. */
  lemma OffByTwoExactly(rates: Rates)
    requires rates.igst == 0 || (rates.cgst == 0 && rates.sgst == 0)
    requires rates.Total() <= 100_000
    ensures (exists v: nat :: OffByTwo(v, rates)) <==> rates.igst == 0 && rates.Total() == 100_000 && rates.cgst % 32 != 0
  {
    hide OffByTwo;
    if rates.igst == 0 && rates.Total() == 100_000 {
      WholeRatesOffByTwo(rates);
    } else {
      forall v: nat
        ensures !OffByTwo(v, rates)
      {
        NeverOffByTwo(rates, v);
      }
    }
  }

  // ------------------------------------------------------------ slabs: the lines that share one set of rates

  /** The indices below n whose rates are r, in order. */
  function Members(rates: seq<Rates>, r: Rates, n: nat): (m: seq<nat>)
    requires n <= |rates|
    ensures |m| <= n && forall k :: 0 <= k < |m| ==> m[k] < n && rates[m[k]] == r
  {
    if n == 0 then []
    else Members(rates, r, n - 1) + (if rates[n - 1] == r then [n - 1] else [])
  }

  /** The values of x at those indices. */
  function Gather(x: seq<int>, rates: seq<Rates>, r: Rates, n: nat): (g: seq<int>)
    requires n <= |rates| == |x|
    ensures |g| == |Members(rates, r, n)|
    ensures forall k :: 0 <= k < |g| ==> g[k] == x[Members(rates, r, n)[k]]
  {
    var m := Members(rates, r, n);
    seq(|m|, k requires 0 <= k < |m| => x[m[k]])
  }

  function Weights(grosses: seq<nat>, rates: seq<Rates>, r: Rates): (w: seq<nat>)
    requires |rates| == |grosses|
    ensures |w| == |Members(rates, r, |rates|)|
    ensures w == Gather(grosses, rates, r, |rates|)
  {
    var m := Members(rates, r, |rates|);
    seq(|m|, k requires 0 <= k < |m| => grosses[m[k]])
  }

  /** The distinct rates among the first n lines, in order of first appearance. */
  function Keys(rates: seq<Rates>, n: nat): (keys: seq<Rates>)
    requires n <= |rates|
    ensures |keys| <= n
  {
    if n == 0 then []
    else
      var keys := Keys(rates, n - 1);
      if rates[n - 1] in keys then keys else keys + [rates[n - 1]]
  }

  /** Every rate that occurs is a key, once. */
  lemma {:induction false} KeysAreDistinct(rates: seq<Rates>, n: nat)
    requires n <= |rates|
    ensures forall i :: 0 <= i < n ==> rates[i] in Keys(rates, n)
    ensures forall a, b :: 0 <= a < b < |Keys(rates, n)| ==> Keys(rates, n)[a] != Keys(rates, n)[b]
  {
    if n > 0 {
      KeysAreDistinct(rates, n - 1);
      var before, keys := Keys(rates, n - 1), Keys(rates, n);
      assert keys == before || keys == before + [rates[n - 1]];
      forall i | 0 <= i < n ensures rates[i] in keys {
        if i < n - 1 {
          assert rates[i] in before;
        }
      }
      forall a, b | 0 <= a < b < |keys| ensures keys[a] != keys[b] {
        if b == |before| {
          assert keys[a] in before;
        }
      }
    }
  }

  /** Every key occurs. */
  lemma {:induction false} KeyOccurs(rates: seq<Rates>, n: nat, j: nat) returns (i: nat)
    requires n <= |rates| && j < |Keys(rates, n)|
    ensures i < n && rates[i] == Keys(rates, n)[j]
  {
    if j < |Keys(rates, n - 1)| {
      i := KeyOccurs(rates, n - 1, j);
    } else {
      i := n - 1;
    }
  }

  /** Line i is the member of its slab at the position given by the members before it. */
  lemma {:induction false} MemberAt(rates: seq<Rates>, i: nat, n: nat)
    requires i < n <= |rates|
    ensures var r := rates[i]; |Members(rates, r, i)| < |Members(rates, r, n)| && Members(rates, r, n)[|Members(rates, r, i)|] == i
  {
    if i < n - 1 {
      MemberAt(rates, i, n - 1);
    }
  }

  /** The reverse: the position of the k-th member is k. */
  lemma {:induction false} PositionOf(rates: seq<Rates>, r: Rates, k: nat, n: nat)
    requires n <= |rates| && k < |Members(rates, r, n)|
    ensures |Members(rates, r, Members(rates, r, n)[k])| == k
  {
    if k < |Members(rates, r, n - 1)| {
      PositionOf(rates, r, k, n - 1);
    }
  }

  // ------------------------------------------------------------ sums by slab

  function SlabSums(x: seq<int>, rates: seq<Rates>, keys: seq<Rates>, n: nat): (s: seq<int>)
    requires n <= |rates| == |x|
    ensures |s| == |keys|
  {
    seq(|keys|, j requires 0 <= j < |keys| => Sum(Gather(x, rates, keys[j], n)))
  }

  lemma GatherStep(x: seq<int>, rates: seq<Rates>, r: Rates, n: nat)
    requires n < |rates| == |x|
    ensures Sum(Gather(x, rates, r, n + 1)) == Sum(Gather(x, rates, r, n)) + (if rates[n] == r then x[n] else 0)
  {
    if rates[n] == r {
      assert Gather(x, rates, r, n + 1) == Gather(x, rates, r, n) + [x[n]];
      SumSnoc(Gather(x, rates, r, n), x[n]);
    } else {
      assert Gather(x, rates, r, n + 1) == Gather(x, rates, r, n);
    }
  }

  /** Every line belongs to exactly one slab, so the slab sums add up to the whole sum. */
  lemma {:induction false} SlabsPartition(x: seq<int>, rates: seq<Rates>, keys: seq<Rates>, n: nat)
    requires n <= |rates| == |x|
    requires forall i :: 0 <= i < n ==> rates[i] in keys
    requires forall a, b :: 0 <= a < b < |keys| ==> keys[a] != keys[b]
    ensures Sum(SlabSums(x, rates, keys, n)) == Sum(x[..n])
  {
    hide Sum, Gather, Members;
    if n == 0 {
      forall j | 0 <= j < |keys| ensures SlabSums(x, rates, keys, 0)[j] == 0 {
        SumZeros(Gather(x, rates, keys[j], 0));
      }
      SumZeros(SlabSums(x, rates, keys, 0));
      SumZeros(x[..0]);
    } else {
      SlabsPartition(x, rates, keys, n - 1);
      var j :| 0 <= j < |keys| && keys[j] == rates[n - 1];
      var before, after := SlabSums(x, rates, keys, n - 1), SlabSums(x, rates, keys, n);
      forall k | 0 <= k < |keys| ensures after[k] == before[k] + (if k == j then x[n - 1] else 0) {
        GatherStep(x, rates, keys[k], n - 1);
      }
      assert after == before[j := before[j] + x[n - 1]];
      SumUpdate(before, j, before[j] + x[n - 1]);
      SumPrefix(x, n - 1);
    }
  }

  // ------------------------------------------------------------ the four columns

  function SlabAmounts(grosses: seq<nat>, rates: seq<Rates>, r: Rates, mode: PricingMode): Amounts
    requires |rates| == |grosses|
  {
    var w := Weights(grosses, rates, r);
    SumNonNegative(w);
    SlabTax(Sum(w), r, mode)
  }

  /** What line i gets of its slab's amount in one column. */
  function SlabShare(grosses: seq<nat>, rates: seq<Rates>, mode: PricingMode, c: Column, i: nat): nat
    requires |rates| == |grosses| && i < |rates|
  {
    MemberAt(rates, i, |rates|);
    Allocated(Part(SlabAmounts(grosses, rates, rates[i], mode), c), Weights(grosses, rates, rates[i]))[|Members(rates, rates[i], i)|]
  }

  function ColumnOf(grosses: seq<nat>, rates: seq<Rates>, mode: PricingMode, policy: RoundingPolicy, c: Column): (x: seq<nat>)
    requires |rates| == |grosses|
    ensures |x| == |rates|
  {
    if policy == LineHalfUp then
      seq(|rates|, i requires 0 <= i < |rates| => Part(SlabTax(grosses[i], rates[i], mode), c))
    else
      seq(|rates|, i requires 0 <= i < |rates| => SlabShare(grosses, rates, mode, c, i))
  }

  lemma TaxOnZero(rate: nat)
    ensures TaxOn(0, rate) == 0
  {
    NearestUnique(0 * rate, 100_000, TaxOn(0, rate), 0);
  }

  lemma SlabTaxOfNothing(rates: Rates, mode: PricingMode)
    ensures SlabTax(0, rates, mode) == Amounts(0, 0, 0, 0)
  {
    if rates.Total() > 0 {
      NearestUnique(0, 100_000 + rates.Total(), HalfUp(0 * 100_000, 100_000 + rates.Total()), 0);
      TaxOnZero(rates.cgst);
      TaxOnZero(rates.sgst);
      TaxOnZero(rates.igst);
    }
  }

  /** Scattering a slab's amount back to its lines loses nothing. */
  lemma SlabShareExact(grosses: seq<nat>, rates: seq<Rates>, mode: PricingMode, c: Column, r: Rates)
    requires |rates| == |grosses|
    ensures Sum(Gather(ColumnOf(grosses, rates, mode, InvoiceHalfUp, c), rates, r, |rates|)) == Part(SlabAmounts(grosses, rates, r, mode), c)
  {
    hide Allocated, SlabTax, Sum;
    var x, w := ColumnOf(grosses, rates, mode, InvoiceHalfUp, c), Weights(grosses, rates, r);
    var amount, m := Part(SlabAmounts(grosses, rates, r, mode), c), Members(rates, r, |rates|);
    forall k | 0 <= k < |m| ensures x[m[k]] == Allocated(amount, w)[k] {
      PositionOf(rates, r, k, |rates|);
    }
    assert Gather(x, rates, r, |rates|) == Allocated(amount, w);
    SumNonNegative(w);
    SlabTaxOfNothing(r, mode);
    AllocationIsExact(amount, w);
  }

  function PerSlab(grosses: seq<nat>, rates: seq<Rates>, mode: PricingMode, c: Column): (s: seq<nat>)
    requires |rates| == |grosses|
    ensures |s| == |Keys(rates, |rates|)|
  {
    var keys := Keys(rates, |rates|);
    seq(|keys|, j requires 0 <= j < |keys| => Part(SlabAmounts(grosses, rates, keys[j], mode), c))
  }

  /** Under invoice rounding a column's total is the sum of what each slab was taxed. */
  lemma ColumnIsSlabTotal(grosses: seq<nat>, rates: seq<Rates>, mode: PricingMode, c: Column)
    requires |rates| == |grosses|
    ensures Sum(ColumnOf(grosses, rates, mode, InvoiceHalfUp, c)) == Sum(PerSlab(grosses, rates, mode, c))
  {
    var x, keys := ColumnOf(grosses, rates, mode, InvoiceHalfUp, c), Keys(rates, |rates|);
    hide ColumnOf, SlabAmounts, Members, Sum;
    forall j | 0 <= j < |keys| ensures SlabSums(x, rates, keys, |rates|)[j] == PerSlab(grosses, rates, mode, c)[j] {
      SlabShareExact(grosses, rates, mode, c, keys[j]);
    }
    assert SlabSums(x, rates, keys, |rates|) == PerSlab(grosses, rates, mode, c);
    KeysAreDistinct(rates, |rates|);
    SlabsPartition(x, rates, keys, |rates|);
    assert x[..|rates|] == x;
  }
}
