/** The whole tax calculation of an order: shipping, slabs, the four columns, and what is conserved. */
module GstCalculate {
  import opened Arith
  import opened Sums
  import opened Allocation
  import opened GstCalc

  datatype Config = Config(intraState: bool, mode: PricingMode, shipping: ShippingTreatment, policy: RoundingPolicy) {
    predicate Known() {
      !mode.UnknownMode? && !shipping.UnknownShipping? && !policy.UnknownPolicy?
    }
  }

  function Values(lines: seq<CalcLine>): (v: seq<nat>)
    ensures |v| == |lines|
  {
    seq(|lines|, i requires 0 <= i < |lines| => lines[i].value)
  }

  function AllRates(lines: seq<CalcLine>, intraState: bool): (r: seq<Rates>)
    ensures |r| == |lines|
  {
    seq(|lines|, i requires 0 <= i < |lines| => RatesOf(lines[i], intraState))
  }

  predicate ShippingIsTaxed(shipping: nat, treatment: ShippingTreatment) {
    treatment == TaxableWithGoods && shipping != 0
  }

  function Shipped(lines: seq<CalcLine>, shipping: nat, treatment: ShippingTreatment): (s: seq<nat>)
    ensures |s| == |lines|
  {
    if ShippingIsTaxed(shipping, treatment) then Allocated(shipping, Values(lines)) else seq(|lines|, i => 0)
  }

  function Grosses(lines: seq<CalcLine>, shipping: nat, treatment: ShippingTreatment): (g: seq<nat>)
    ensures |g| == |lines|
  {
    seq(|lines|, i requires 0 <= i < |lines| => lines[i].value + Shipped(lines, shipping, treatment)[i])
  }

  /** The line records, given the four filled columns. */
  function LineTaxes(lines: seq<CalcLine>, shipped: seq<nat>, grosses: seq<nat>, mode: PricingMode,
                     t: seq<nat>, c: seq<nat>, s: seq<nat>, g: seq<nat>): (r: seq<LineTax>)
    requires |lines| == |shipped| == |grosses| == |t| == |c| == |s| == |g|
    ensures |r| == |lines|
  {
    seq(|lines|, i requires 0 <= i < |lines| =>
      LineTax(lines[i].key, shipped[i], grosses[i], Amounts(t[i], c[i], s[i], g[i]),
              if mode == Inclusive then (grosses[i] as int) - t[i] - c[i] - s[i] - g[i] else 0))
  }

  function RoundOffs(lines: seq<LineTax>): (r: seq<int>)
    ensures |r| == |lines|
  {
    seq(|lines|, i requires 0 <= i < |lines| => lines[i].roundOff)
  }

  function Assembled(lines: seq<LineTax>, untaxed: nat, mode: PricingMode, t: seq<nat>, c: seq<nat>, s: seq<nat>, g: seq<nat>): GstResult {
    var tax := Total(c) + Total(s) + Total(g);
    GstResult(lines, untaxed, Total(t), Total(c), Total(s), Total(g), Sum(RoundOffs(lines)), tax,
              if mode == Exclusive then tax else 0, if mode == Inclusive then tax else 0)
  }

  function Computed(lines: seq<CalcLine>, shipping: nat, config: Config): (r: GstResult)
    ensures |r.lines| == |lines|
  {
    var grosses, rates := Grosses(lines, shipping, config.shipping), AllRates(lines, config.intraState);
    var t := ColumnOf(grosses, rates, config.mode, config.policy, TaxableColumn);
    var c := ColumnOf(grosses, rates, config.mode, config.policy, CgstColumn);
    var s := ColumnOf(grosses, rates, config.mode, config.policy, SgstColumn);
    var g := ColumnOf(grosses, rates, config.mode, config.policy, IgstColumn);
    Assembled(LineTaxes(lines, Shipped(lines, shipping, config.shipping), grosses, config.mode, t, c, s, g),
              if ShippingIsTaxed(shipping, config.shipping) then 0 else shipping, config.mode, t, c, s, g)
  }

  /** One column of a computed invoice, read back from its lines. */
  function LineColumn(lines: seq<LineTax>, c: Column): (x: seq<nat>)
    ensures |x| == |lines|
  {
    seq(|lines|, i requires 0 <= i < |lines| => Part(lines[i].amounts, c))
  }

  lemma LineColumnIsColumn(lines: seq<CalcLine>, shipping: nat, config: Config, c: Column)
    ensures LineColumn(Computed(lines, shipping, config).lines, c)
         == ColumnOf(Grosses(lines, shipping, config.shipping), AllRates(lines, config.intraState), config.mode, config.policy, c)
  {
    hide ColumnOf, Total, RoundOffs, Grosses, AllRates, Shipped;
    var x := LineColumn(Computed(lines, shipping, config).lines, c);
    var y := ColumnOf(Grosses(lines, shipping, config.shipping), AllRates(lines, config.intraState), config.mode, config.policy, c);
    forall i | 0 <= i < |lines| ensures x[i] == y[i] {
    }
  }

  // ------------------------------------------------------------ conservation

  /** The lines add up to the invoice: goods, tax components and round-off. */
  lemma LinesAddUp(lines: seq<CalcLine>, shipping: nat, config: Config)
    ensures var r := Computed(lines, shipping, config);
      && r.taxable == Sum(LineColumn(r.lines, TaxableColumn))
      && r.cgst == Sum(LineColumn(r.lines, CgstColumn))
      && r.sgst == Sum(LineColumn(r.lines, SgstColumn))
      && r.igst == Sum(LineColumn(r.lines, IgstColumn))
      && r.roundOff == Sum(RoundOffs(r.lines))
      && r.tax == r.cgst + r.sgst + r.igst == r.taxAdded + r.taxIncluded + (if config.mode.UnknownMode? then r.tax else 0)
  {
    LineColumnIsColumn(lines, shipping, config, TaxableColumn);
    LineColumnIsColumn(lines, shipping, config, CgstColumn);
    LineColumnIsColumn(lines, shipping, config, SgstColumn);
    LineColumnIsColumn(lines, shipping, config, IgstColumn);
    hide Sum, ColumnOf, LineColumn, LineTaxes, RoundOffs, Grosses, AllRates, Shipped;
  }

  /**
   Goods plus shipping are all accounted for, in the lines or as untaxed shipping, exactly unless taxed shipping has no goods
   value to be spread over.
   */
  lemma ShippingConserved(lines: seq<CalcLine>, shipping: nat, config: Config)
    ensures var r := Computed(lines, shipping, config);
      Sum(Grosses(lines, shipping, config.shipping)) + r.shippingUntaxed == Sum(Values(lines)) + shipping
      <==> !(config.shipping == TaxableWithGoods && shipping > 0 && Sum(Values(lines)) == 0)
  {
    var values, shipped := Values(lines), Shipped(lines, shipping, config.shipping);
    SumAdds(values, shipped, Grosses(lines, shipping, config.shipping));
    SumNonNegative(values);
    if !ShippingIsTaxed(shipping, config.shipping) {
      SumZeros(shipped);
    } else if Sum(values) == 0 {
      SumZeros(shipped);
    } else {
      AllocationIsExact(shipping, values);
    }
  }

  /** The excluded case occurs: a fully discounted order with taxed shipping of 500 paise carries no shipping at all. */
  lemma ShippingCanVanish()
    ensures var lines, config := [CalcLine(0, 0, Taxable, Rates(9_000, 9_000, 18_000))], Config(true, Exclusive, TaxableWithGoods, LineHalfUp);
      Sum(Grosses(lines, 500, config.shipping)) + Computed(lines, 500, config).shippingUntaxed == 0 != Sum(Values(lines)) + 500
  {
    var lines, config := [CalcLine(0, 0, Taxable, Rates(9_000, 9_000, 18_000))], Config(true, Exclusive, TaxableWithGoods, LineHalfUp);
    SumZeros(Values(lines));
    SumZeros(Grosses(lines, 500, config.shipping));
  }

  lemma {:induction false} SumBalance(g: seq<int>, t: seq<int>, c: seq<int>, s: seq<int>, i: seq<int>, d: seq<int>)
    requires |g| == |t| == |c| == |s| == |i| == |d|
    requires forall k :: 0 <= k < |g| ==> g[k] == t[k] + c[k] + s[k] + i[k] + d[k]
    ensures Sum(g) == Sum(t) + Sum(c) + Sum(s) + Sum(i) + Sum(d)
  {
    if g != [] {
      var n := |g| - 1;
      SumBalance(g[..n], t[..n], c[..n], s[..n], i[..n], d[..n]);
    }
  }

  /** Inclusive prices: what the customer pays is the taxable value, the tax and the round-off, on each line and in total. */
  lemma InclusiveBalances(lines: seq<CalcLine>, shipping: nat, config: Config)
    requires config.mode == Inclusive
    ensures var r := Computed(lines, shipping, config);
      && Sum(Grosses(lines, shipping, config.shipping)) == r.taxable + r.tax + r.roundOff
      && r.taxAdded == 0 && r.taxIncluded == r.tax
      && forall i :: 0 <= i < |lines| ==>
        r.lines[i].gross == r.lines[i].amounts.taxable + r.lines[i].amounts.Tax() + r.lines[i].roundOff
  {
    var r, grosses := Computed(lines, shipping, config), Grosses(lines, shipping, config.shipping);
    LinesAddUp(lines, shipping, config);
    hide ColumnOf, Grosses, AllRates, Shipped, Sum, Total;
    SumBalance(grosses, LineColumn(r.lines, TaxableColumn), LineColumn(r.lines, CgstColumn), LineColumn(r.lines, SgstColumn),
               LineColumn(r.lines, IgstColumn), RoundOffs(r.lines));
  }

  lemma ExclusiveTaxable(grosses: seq<nat>, rates: seq<Rates>, policy: RoundingPolicy, i: nat)
    requires |rates| == |grosses| && i < |grosses|
    ensures ColumnOf(grosses, rates, Exclusive, policy, TaxableColumn)[i] == grosses[i]
  {
    if policy != LineHalfUp {
      var w, r, k := Weights(grosses, rates, rates[i]), rates[i], |Members(rates, rates[i], i)|;
      MemberAt(rates, i, |rates|);
      SumNonNegative(w);
      hide Allocated, Sum, Members, TaxOn;
      assert Part(SlabAmounts(grosses, rates, r, Exclusive), TaxableColumn) == Sum(w);
      AllocationWithinWeights(Sum(w), w, k);
    }
  }

  /** Exclusive prices: every line's taxable value is its gross value under either rounding policy, and nothing is rounded off. */
  lemma ExclusiveBalances(lines: seq<CalcLine>, shipping: nat, config: Config)
    requires config.mode == Exclusive
    ensures var r := Computed(lines, shipping, config);
      && r.taxable == Sum(Grosses(lines, shipping, config.shipping))
      && r.roundOff == 0 && r.taxAdded == r.tax && r.taxIncluded == 0
      && forall i :: 0 <= i < |lines| ==> r.lines[i].amounts.taxable == r.lines[i].gross && r.lines[i].roundOff == 0
  {
    var r, grosses := Computed(lines, shipping, config), Grosses(lines, shipping, config.shipping);
    TaxableIsGross(grosses, AllRates(lines, config.intraState), config.policy);
    LineColumnIsColumn(lines, shipping, config, TaxableColumn);
    LinesAddUp(lines, shipping, config);
    forall i | 0 <= i < |lines|
      ensures r.lines[i].amounts.taxable == r.lines[i].gross && r.lines[i].roundOff == 0
    {
      ExclusiveLine(lines, shipping, config, i);
    }
    hide Computed, ColumnOf, Grosses, AllRates, LineColumn;
    SumZeros(RoundOffs(r.lines));
  }

  lemma ExclusiveLine(lines: seq<CalcLine>, shipping: nat, config: Config, i: nat)
    requires config.mode == Exclusive && i < |lines|
    ensures var line := Computed(lines, shipping, config).lines[i]; line.amounts.taxable == line.gross && line.roundOff == 0
  {
    ExclusiveTaxable(Grosses(lines, shipping, config.shipping), AllRates(lines, config.intraState), config.policy, i);
    hide ColumnOf, Grosses, AllRates, Shipped, Total, RoundOffs;
  }

  lemma TaxableIsGross(grosses: seq<nat>, rates: seq<Rates>, policy: RoundingPolicy)
    requires |rates| == |grosses|
    ensures ColumnOf(grosses, rates, Exclusive, policy, TaxableColumn) == grosses
  {
    hide ColumnOf;
    forall i | 0 <= i < |grosses| ensures ColumnOf(grosses, rates, Exclusive, policy, TaxableColumn)[i] == grosses[i] {
      ExclusiveTaxable(grosses, rates, policy, i);
    }
  }

  lemma EqualColumns(grosses: seq<nat>, rates: seq<Rates>, mode: PricingMode, policy: RoundingPolicy, i: nat)
    requires |rates| == |grosses| && i < |grosses| && rates[i].cgst == rates[i].sgst
    ensures ColumnOf(grosses, rates, mode, policy, CgstColumn)[i] == ColumnOf(grosses, rates, mode, policy, SgstColumn)[i]
  {
    hide Allocated, TaxOn, Members, Sum, Weights, HalfUp;
  }

  /** Equal CGST and SGST rates give equal CGST and SGST amounts on every line, under either policy and in either pricing mode. */
  lemma EqualRatesEqualTax(lines: seq<CalcLine>, shipping: nat, config: Config, i: nat)
    requires i < |lines| && lines[i].rates.cgst == lines[i].rates.sgst
    ensures var a := Computed(lines, shipping, config).lines[i].amounts; a.cgst == a.sgst
  {
    EqualColumns(Grosses(lines, shipping, config.shipping), AllRates(lines, config.intraState), config.mode, config.policy, i);
    hide ColumnOf, Grosses, Shipped, Total;
  }

  function RateFor(r: Rates, c: Column): nat {
    match c
    case TaxableColumn => 100_000
    case CgstColumn => r.cgst
    case SgstColumn => r.sgst
    case IgstColumn => r.igst
  }

  lemma UntaxedColumn(grosses: seq<nat>, rates: seq<Rates>, mode: PricingMode, policy: RoundingPolicy, c: Column, i: nat)
    requires |rates| == |grosses| && i < |grosses|
    requires c != TaxableColumn && RateFor(rates[i], c) == 0
    ensures ColumnOf(grosses, rates, mode, policy, c)[i] == 0
  {
    if policy != LineHalfUp {
      MemberAt(rates, i, |rates|);
    }
    hide Members, Sum, Weights, HalfUp;
  }

  /** A sale is within one state (CGST and SGST) or between two (IGST), never both. */
  lemma OneSupplyType(lines: seq<CalcLine>, shipping: nat, config: Config)
    ensures var r := Computed(lines, shipping, config);
      if config.intraState then r.igst == 0 else r.cgst == 0 && r.sgst == 0
  {
    var grosses, rates := Grosses(lines, shipping, config.shipping), AllRates(lines, config.intraState);
    forall c, i | 0 <= i < |lines| && c != TaxableColumn && RateFor(rates[i], c) == 0
      ensures ColumnOf(grosses, rates, config.mode, config.policy, c)[i] == 0
    {
      UntaxedColumn(grosses, rates, config.mode, config.policy, c, i);
    }
    hide ColumnOf, Grosses, Shipped, Sum, LineTaxes, RoundOffs;
    forall c | c != TaxableColumn && forall i :: 0 <= i < |lines| ==> RateFor(rates[i], c) == 0
      ensures Sum(ColumnOf(grosses, rates, config.mode, config.policy, c)) == 0
    {
      SumZeros(ColumnOf(grosses, rates, config.mode, config.policy, c));
    }
    assert config.intraState ==> forall i :: 0 <= i < |lines| ==> RateFor(rates[i], IgstColumn) == 0;
    assert !config.intraState ==> forall i :: 0 <= i < |lines| ==> RateFor(rates[i], CgstColumn) == 0 && RateFor(rates[i], SgstColumn) == 0;
  }

  // ------------------------------------------------------------ the round-off bound

  /** Rates as the tax rules allow them: the combined rate of one supply is at most 100%. */
  predicate RatesWithin(lines: seq<CalcLine>, limit: nat) {
    forall i :: 0 <= i < |lines| ==> lines[i].rates.cgst + lines[i].rates.sgst <= limit && lines[i].rates.igst <= limit
  }

  lemma LineRoundOff(lines: seq<CalcLine>, intraState: bool, value: nat, i: nat)
    requires i < |lines| && RatesWithin(lines, 100_000)
    ensures -2 <= SlabRoundOff(value, RatesOf(lines[i], intraState), Inclusive) <= 2
    ensures RatesWithin(lines, 99_999) ==> -1 <= SlabRoundOff(value, RatesOf(lines[i], intraState), Inclusive) <= 1
  {
    hide SlabRoundOff;
    SlabRoundOffBound(value, RatesOf(lines[i], intraState));
  }

  function Bound(lines: seq<CalcLine>): (b: int)
    ensures 1 <= b <= 2
  {
    if RatesWithin(lines, 99_999) then 1 else 2
  }

  /** Line rounding: each line is off by at most 2 paise (1 below 100%), so the invoice by at most that for each line. */
  lemma RoundOffByLine(lines: seq<CalcLine>, shipping: nat, config: Config)
    requires config.mode == Inclusive && config.policy == LineHalfUp && RatesWithin(lines, 100_000)
    ensures var r := Computed(lines, shipping, config);
      && (forall i :: 0 <= i < |lines| ==> -Bound(lines) <= r.lines[i].roundOff <= Bound(lines))
      && -(Bound(lines) * |lines|) <= r.roundOff <= Bound(lines) * |lines|
  {
    var r, grosses := Computed(lines, shipping, config), Grosses(lines, shipping, config.shipping);
    hide SlabTax, Grosses, Shipped, Total, RatesWithin;
    forall i | 0 <= i < |lines| ensures -Bound(lines) <= r.lines[i].roundOff <= Bound(lines) {
      LineRoundOff(lines, config.intraState, grosses[i], i);
    }
    var zeros: seq<int> := seq(|lines|, i => 0);
    SumZeros(zeros);
    SumWithin(RoundOffs(r.lines), zeros, Bound(lines));
  }

  function SlabRoundOffs(grosses: seq<nat>, rates: seq<Rates>): (d: seq<int>)
    requires |rates| == |grosses|
    ensures |d| == |Keys(rates, |rates|)|
  {
    var keys := Keys(rates, |rates|);
    seq(|keys|, j requires 0 <= j < |keys| => SlabRoundOff(Total(Weights(grosses, rates, keys[j])), keys[j], Inclusive))
  }

  function SlabGrosses(grosses: seq<nat>, rates: seq<Rates>): (d: seq<int>)
    requires |rates| == |grosses|
    ensures |d| == |Keys(rates, |rates|)|
  {
    SlabSums(grosses, rates, Keys(rates, |rates|), |rates|)
  }

  lemma SlabBalances(grosses: seq<nat>, rates: seq<Rates>, j: nat)
    requires |rates| == |grosses| && j < |Keys(rates, |rates|)|
    ensures SlabGrosses(grosses, rates)[j] == PerSlab(grosses, rates, Inclusive, TaxableColumn)[j]
      + PerSlab(grosses, rates, Inclusive, CgstColumn)[j] + PerSlab(grosses, rates, Inclusive, SgstColumn)[j]
      + PerSlab(grosses, rates, Inclusive, IgstColumn)[j] + SlabRoundOffs(grosses, rates)[j]
  {
    var key := Keys(rates, |rates|)[j];
    assert Gather(grosses, rates, key, |rates|) == Weights(grosses, rates, key);
    hide SlabTax, Sum, Gather, Weights, Members, Keys;
  }

  /** Invoice rounding: the invoice's round-off is the sum of the slabs' round-offs. */
  lemma InvoiceRoundOff(lines: seq<CalcLine>, shipping: nat, config: Config)
    requires config.mode == Inclusive && config.policy == InvoiceHalfUp
    ensures Computed(lines, shipping, config).roundOff
         == Sum(SlabRoundOffs(Grosses(lines, shipping, config.shipping), AllRates(lines, config.intraState)))
  {
    var grosses, rates := Grosses(lines, shipping, config.shipping), AllRates(lines, config.intraState);
    InclusiveBalances(lines, shipping, config);
    LinesAddUp(lines, shipping, config);
    LineColumnIsColumn(lines, shipping, config, TaxableColumn);
    LineColumnIsColumn(lines, shipping, config, CgstColumn);
    LineColumnIsColumn(lines, shipping, config, SgstColumn);
    LineColumnIsColumn(lines, shipping, config, IgstColumn);
    hide Computed, Grosses, AllRates, ColumnOf, SlabGrosses, SlabRoundOffs, PerSlab, Sum, LineColumn, RoundOffs;
    ColumnIsSlabTotal(grosses, rates, Inclusive, TaxableColumn);
    ColumnIsSlabTotal(grosses, rates, Inclusive, CgstColumn);
    ColumnIsSlabTotal(grosses, rates, Inclusive, SgstColumn);
    ColumnIsSlabTotal(grosses, rates, Inclusive, IgstColumn);
    forall j | 0 <= j < |Keys(rates, |rates|)|
      ensures SlabGrosses(grosses, rates)[j] == PerSlab(grosses, rates, Inclusive, TaxableColumn)[j]
        + PerSlab(grosses, rates, Inclusive, CgstColumn)[j] + PerSlab(grosses, rates, Inclusive, SgstColumn)[j]
        + PerSlab(grosses, rates, Inclusive, IgstColumn)[j] + SlabRoundOffs(grosses, rates)[j]
    {
      SlabBalances(grosses, rates, j);
    }
    SumBalance(SlabGrosses(grosses, rates), PerSlab(grosses, rates, Inclusive, TaxableColumn), PerSlab(grosses, rates, Inclusive, CgstColumn),
               PerSlab(grosses, rates, Inclusive, SgstColumn), PerSlab(grosses, rates, Inclusive, IgstColumn), SlabRoundOffs(grosses, rates));
    SlabGrossTotal(grosses, rates);
  }

  lemma SlabGrossTotal(grosses: seq<nat>, rates: seq<Rates>)
    requires |rates| == |grosses|
    ensures Sum(SlabGrosses(grosses, rates)) == Sum(grosses)
  {
    KeysAreDistinct(rates, |rates|);
    SlabsPartition(grosses, rates, Keys(rates, |rates|), |rates|);
    assert grosses[..|rates|] == grosses;
  }

  /** Invoice rounding: the round-off is at most 2 paise (1 below 100%) for each slab, however many lines share it. */
  lemma RoundOffBySlab(lines: seq<CalcLine>, shipping: nat, config: Config)
    requires config.mode == Inclusive && config.policy == InvoiceHalfUp && RatesWithin(lines, 100_000)
    ensures var slabs := |Keys(AllRates(lines, config.intraState), |lines|)|;
      -(Bound(lines) * slabs) <= Computed(lines, shipping, config).roundOff <= Bound(lines) * slabs
  {
    var grosses, rates := Grosses(lines, shipping, config.shipping), AllRates(lines, config.intraState);
    var d := SlabRoundOffs(grosses, rates);
    InvoiceRoundOff(lines, shipping, config);
    hide *;
    forall j | 0 <= j < |d| ensures -Bound(lines) <= d[j] <= Bound(lines) {
      SlabRoundOffAt(lines, config.intraState, grosses, j);
    }
    var zeros: seq<int> := seq(|d|, i => 0);
    SumZeros(zeros);
    SumWithin(d, zeros, Bound(lines));
  }

  lemma SlabRoundOffAt(lines: seq<CalcLine>, intraState: bool, grosses: seq<nat>, j: nat)
    requires |lines| == |grosses| && RatesWithin(lines, 100_000)
    requires j < |Keys(AllRates(lines, intraState), |lines|)|
    ensures -Bound(lines) <= SlabRoundOffs(grosses, AllRates(lines, intraState))[j] <= Bound(lines)
  {
    var rates := AllRates(lines, intraState);
    var keys := Keys(rates, |rates|);
    hide SlabRoundOff, Total, Weights, RatesWithin, Keys, RatesOf;
    var i := KeyOccurs(rates, |rates|, j);
    LineRoundOff(lines, intraState, Total(Weights(grosses, rates, keys[j])), i);
  }

  // ------------------------------------------------------------ one line of a slab

  /** Line i's share in one column under invoice rounding. */
  function Share(grosses: seq<nat>, rates: seq<Rates>, mode: PricingMode, c: Column, i: nat): nat
    requires |rates| == |grosses| && i < |grosses|
  {
    ColumnOf(grosses, rates, mode, InvoiceHalfUp, c)[i]
  }

  /** The total of line i's slab. */
  function SlabTotal(grosses: seq<nat>, rates: seq<Rates>, i: nat): nat
    requires |rates| == |grosses| && i < |grosses|
  {
    Total(Weights(grosses, rates, rates[i]))
  }

  function SlabAmount(grosses: seq<nat>, rates: seq<Rates>, mode: PricingMode, c: Column, i: nat): nat
    requires |rates| == |grosses| && i < |grosses|
  {
    Part(SlabTax(SlabTotal(grosses, rates, i), rates[i], mode), c)
  }

  /** How far the share is from the exact share, times the slab's total. */
  function ShareError(grosses: seq<nat>, rates: seq<Rates>, mode: PricingMode, c: Column, i: nat): int
    requires |rates| == |grosses| && i < |grosses|
  {
    SlabAmount(grosses, rates, mode, c, i) * grosses[i] - SlabTotal(grosses, rates, i) * Share(grosses, rates, mode, c, i)
  }

  lemma ShareIsAllocated(grosses: seq<nat>, rates: seq<Rates>, mode: PricingMode, c: Column, i: nat)
    requires |rates| == |grosses| && i < |grosses|
    ensures var w, k := Weights(grosses, rates, rates[i]), |Members(rates, rates[i], i)|;
      && k < |w| && w[k] == grosses[i] && SlabTotal(grosses, rates, i) == Sum(w)
      && Share(grosses, rates, mode, c, i) == Allocated(SlabAmount(grosses, rates, mode, c, i), w)[k]
  {
    MemberAt(rates, i, |rates|);
    hide Allocated, Sum, Members, SlabTax, Part;
  }

  lemma ShareIsQuota(grosses: seq<nat>, rates: seq<Rates>, mode: PricingMode, c: Column, i: nat) returns (rest: nat)
    requires |rates| == |grosses| && i < |grosses| && SlabTotal(grosses, rates, i) > 0
    ensures FloorOrCeiling(SlabTotal(grosses, rates, i), Share(grosses, rates, mode, c, i), SlabAmount(grosses, rates, mode, c, i) * grosses[i], rest)
    ensures SlabAmount(grosses, rates, mode, c, i) == 0 ==> Share(grosses, rates, mode, c, i) == 0
  {
    hide *;
    ShareIsAllocated(grosses, rates, mode, c, i);
    var w, k, amount := Weights(grosses, rates, rates[i]), |Members(rates, rates[i], i)|, SlabAmount(grosses, rates, mode, c, i);
    AllocationQuota(amount, w, k);
    ShareOfNothing(w, k);
    rest := Remainders(amount, w)[k];
  }

  /** What line i gets of its slab's amount is within one paisa of its exact share, and nothing of nothing. */
  lemma ShareNearExact(grosses: seq<nat>, rates: seq<Rates>, mode: PricingMode, c: Column, i: nat)
    requires |rates| == |grosses| && i < |grosses| && SlabTotal(grosses, rates, i) > 0
    ensures Within(ShareError(grosses, rates, mode, c, i), SlabTotal(grosses, rates, i) - 1)
    ensures SlabAmount(grosses, rates, mode, c, i) == 0 ==> ShareError(grosses, rates, mode, c, i) == 0
  {
    hide SlabTotal, Share, SlabAmount, FloorOrCeiling, Within;
    var rest := ShareIsQuota(grosses, rates, mode, c, i);
    ErrorWithin(SlabTotal(grosses, rates, i), Share(grosses, rates, mode, c, i), SlabAmount(grosses, rates, mode, c, i), grosses[i], rest);
  }

  lemma ShareOfNothing(w: seq<nat>, k: nat)
    requires k < |w|
    ensures Allocated(0, w)[k] == 0
  {
  }

  /** A component that is not charged has no share to be rounded. */
  function ShareSlack(total: int, rate: nat): int {
    if rate > 0 then total else 0
  }

  lemma ChargedShare(grosses: seq<nat>, rates: seq<Rates>, c: Column, i: nat)
    requires |rates| == |grosses| && i < |grosses| && c != TaxableColumn && SlabTotal(grosses, rates, i) > 0
    ensures Within(ShareError(grosses, rates, Inclusive, c, i), ShareSlack(SlabTotal(grosses, rates, i), RateFor(rates[i], c)))
  {
    ShareNearExact(grosses, rates, Inclusive, c, i);
    hide SlabTotal, ShareError, HalfUp;
  }

  /** A line's exact share of its slab's round-off, apart from what its shares of the amounts are off by. */
  lemma SharedOut(total: int, w: int, t: int, c: int, s: int, g: int, a: int, b: int, d: int, e: int)
    ensures total * (w - a - b - d - e)
         == w * (total - t - c - s - g) + (t * w - total * a) + (c * w - total * b) + (s * w - total * d) + (g * w - total * e)
  {
  }

  lemma WithinShare(total: nat, w: nat, off: int)
    requires w <= total
    ensures Within(w * off, total * Size(off))
  {
    assert 0 <= w * Size(off) <= total * Size(off);
  }

  function Size(x: int): (r: nat)
    ensures r == x || r == -x
  {
    if x < 0 then -x else x
  }

  lemma LessByFactor(w: nat, a: int, b: int)
    requires w > 0 && w * a < w * b
    ensures a < b
  {
  }

  lemma Cancelled(total: nat, x: int, bound: int)
    requires total > 0 && Within(total * x, total * bound - 1)
    ensures Within(x, bound - 1)
  {
    LessByFactor(total, x, bound);
    LessByFactor(total, -bound, x);
  }

  lemma SlackTotal(total: int, r: Rates)
    ensures ShareSlack(total, r.cgst) + ShareSlack(total, r.sgst) + ShareSlack(total, r.igst) == total * r.Components()
  {
  }

  /** What line i is off by, taken from the four columns. */
  function LineOff(grosses: seq<nat>, rates: seq<Rates>, i: nat): int
    requires |rates| == |grosses| && i < |grosses|
  {
    grosses[i] - Share(grosses, rates, Inclusive, TaxableColumn, i) - Share(grosses, rates, Inclusive, CgstColumn, i) - Share(grosses, rates, Inclusive, SgstColumn, i)
      - Share(grosses, rates, Inclusive, IgstColumn, i)
  }

  lemma LineOffScaled(grosses: seq<nat>, rates: seq<Rates>, i: nat)
    requires |rates| == |grosses| && i < |grosses| && SlabTotal(grosses, rates, i) > 0
    ensures var total := SlabTotal(grosses, rates, i);
      var rest := total * LineOff(grosses, rates, i) - grosses[i] * SlabRoundOff(total, rates[i], Inclusive);
      Within(rest, total - 1 + total * rates[i].Components())
  {
    hide SlabTotal, Share, SlabTax, ShareSlack;
    var total := SlabTotal(grosses, rates, i);
    var a := SlabTax(total, rates[i], Inclusive);
    SharedOut(total, grosses[i], a.taxable, a.cgst, a.sgst, a.igst,
              Share(grosses, rates, Inclusive, TaxableColumn, i), Share(grosses, rates, Inclusive, CgstColumn, i), Share(grosses, rates, Inclusive, SgstColumn, i),
              Share(grosses, rates, Inclusive, IgstColumn, i));
    ShareNearExact(grosses, rates, Inclusive, TaxableColumn, i);
    ChargedShare(grosses, rates, CgstColumn, i);
    ChargedShare(grosses, rates, SgstColumn, i);
    ChargedShare(grosses, rates, IgstColumn, i);
    SlackTotal(total, rates[i]);
  }

  lemma EmptySlab(grosses: seq<nat>, rates: seq<Rates>, i: nat)
    requires |rates| == |grosses| && i < |grosses|
    ensures grosses[i] <= SlabTotal(grosses, rates, i)
    ensures SlabTotal(grosses, rates, i) == 0 ==> LineOff(grosses, rates, i) == 0
  {
    var w := Weights(grosses, rates, rates[i]);
    SumNonNegative(w);
    ShareIsAllocated(grosses, rates, Inclusive, TaxableColumn, i);
    ShareIsAllocated(grosses, rates, Inclusive, CgstColumn, i);
    ShareIsAllocated(grosses, rates, Inclusive, SgstColumn, i);
    ShareIsAllocated(grosses, rates, Inclusive, IgstColumn, i);
    hide Sum, Members, SlabAmount, SlabTotal, Share, Weights;
  }

  /** How far a line can be off: what its slab is off by, and one paisa more for each component charged. */
  function LineLimit(grosses: seq<nat>, rates: seq<Rates>, i: nat): (limit: nat)
    requires |rates| == |grosses| && i < |grosses|
  {
    Size(SlabRoundOff(SlabTotal(grosses, rates, i), rates[i], Inclusive)) + rates[i].Components()
  }

  lemma SmallIsWithin(limit: nat)
    ensures Within(0, limit)
  {
  }

  lemma Unscaled(total: nat, w: nat, off: int, k: nat, lineOff: int)
    requires 0 < total && w <= total
    requires Within(total * lineOff - w * off, total - 1 + total * k)
    ensures Within(lineOff, Size(off) + k)
  {
    hide Size;
    WithinShare(total, w, off);
    assert total * (Size(off) + k + 1) == total * Size(off) + total * k + total;
    Cancelled(total, lineOff, Size(off) + k + 1);
  }

  lemma LineOffBound(grosses: seq<nat>, rates: seq<Rates>, i: nat)
    requires |rates| == |grosses| && i < |grosses|
    ensures Within(LineOff(grosses, rates, i), LineLimit(grosses, rates, i))
  {
    EmptySlab(grosses, rates, i);
    hide LineOff, SlabRoundOff, SlabTotal, Size, Within;
    var total := SlabTotal(grosses, rates, i);
    if total > 0 {
      LineOffScaled(grosses, rates, i);
      Unscaled(total, grosses[i], SlabRoundOff(total, rates[i], Inclusive), rates[i].Components(), LineOff(grosses, rates, i));
    } else {
      SmallIsWithin(LineLimit(grosses, rates, i));
    }
  }

  lemma RoundOffIsLineOff(lines: seq<CalcLine>, shipping: nat, config: Config, i: nat)
    requires config.mode == Inclusive && config.policy == InvoiceHalfUp && i < |lines|
    ensures Computed(lines, shipping, config).lines[i].roundOff
         == LineOff(Grosses(lines, shipping, config.shipping), AllRates(lines, config.intraState), i)
  {
    hide ColumnOf, Grosses, AllRates, Shipped, Total, RoundOffs;
  }

  lemma LimitWithin(lines: seq<CalcLine>, intraState: bool, grosses: seq<nat>, i: nat)
    requires i < |lines| == |grosses| && RatesWithin(lines, 100_000)
    ensures LineLimit(grosses, AllRates(lines, intraState), i) <= Bound(lines) + 2
  {
    var rates := AllRates(lines, intraState);
    hide SlabRoundOff, SlabTotal, RatesWithin;
    LineRoundOff(lines, intraState, SlabTotal(grosses, rates, i), i);
  }

  /**
   Invoice rounding: a line is off by at most what its slab is off by and one paisa more for each component it is charged, so by at most
   4 paise, or 3 below 100%.
   */
  lemma RoundOffOnLine(lines: seq<CalcLine>, shipping: nat, config: Config, i: nat)
    requires config.mode == Inclusive && config.policy == InvoiceHalfUp && i < |lines|
    ensures var limit := LineLimit(Grosses(lines, shipping, config.shipping), AllRates(lines, config.intraState), i);
      && Within(Computed(lines, shipping, config).lines[i].roundOff, limit)
      && (RatesWithin(lines, 100_000) ==> limit <= Bound(lines) + 2)
  {
    hide *;
    var grosses := Grosses(lines, shipping, config.shipping);
    RoundOffIsLineOff(lines, shipping, config, i);
    LineOffBound(grosses, AllRates(lines, config.intraState), i);
    if RatesWithin(lines, 100_000) {
      LimitWithin(lines, config.intraState, grosses, i);
    }
  }

  // ------------------------------------------------------------ the two policies compared

  lemma ExclusivePartError(value: nat, r: Rates, c: Column)
    ensures -100_000 <= 200_000 * Part(SlabTax(value, r, Exclusive), c) - 2 * (value * RateFor(r, c)) <= 100_000
  {
    ComponentError(value, RateFor(r, c));
    hide HalfUp, TaxOn;
    if c != TaxableColumn && r.Total() > 0 {
      assert Part(SlabTax(value, r, Exclusive), c) == TaxOn(value, RateFor(r, c));
    }
  }

  /** Twice the exact tax of each line, in units of a hundred-thousandth of a paisa. */
  function ExactTax(grosses: seq<nat>, rates: seq<Rates>, c: Column): (x: seq<int>)
    requires |rates| == |grosses|
    ensures |x| == |grosses|
  {
    seq(|grosses|, i requires 0 <= i < |grosses| => 2 * (grosses[i] * RateFor(rates[i], c)))
  }

  function Scaled(x: seq<nat>): (y: seq<int>)
    ensures |y| == |x|
  {
    seq(|x|, i requires 0 <= i < |x| => 200_000 * x[i])
  }

  lemma ScaledSum(x: seq<nat>)
    ensures Sum(Scaled(x)) == 200_000 * Sum(x)
  {
    SumScales(x, 200_000, Scaled(x));
  }

  lemma LinePolicyError(grosses: seq<nat>, rates: seq<Rates>, c: Column)
    requires |rates| == |grosses|
    ensures var d := 200_000 * Sum(ColumnOf(grosses, rates, Exclusive, LineHalfUp, c)) - Sum(ExactTax(grosses, rates, c));
      -(100_000 * |grosses|) <= d <= 100_000 * |grosses|
  {
    var x := ColumnOf(grosses, rates, Exclusive, LineHalfUp, c);
    ScaledSum(x);
    hide Sum, SlabTax, RateFor;
    forall i | 0 <= i < |grosses| ensures -100_000 <= Scaled(x)[i] - ExactTax(grosses, rates, c)[i] <= 100_000 {
      ExclusivePartError(grosses[i], rates[i], c);
    }
    SumWithin(Scaled(x), ExactTax(grosses, rates, c), 100_000);
  }

  lemma SlabExactTax(grosses: seq<nat>, rates: seq<Rates>, c: Column, r: Rates)
    requires |rates| == |grosses|
    ensures Sum(Gather(ExactTax(grosses, rates, c), rates, r, |rates|)) == 2 * (Sum(Weights(grosses, rates, r)) * RateFor(r, c))
  {
    hide Sum, RateFor, Members;
    var w, e := Weights(grosses, rates, r), Gather(ExactTax(grosses, rates, c), rates, r, |rates|);
    forall k | 0 <= k < |w| ensures e[k] == 2 * RateFor(r, c) * w[k] {
    }
    SumScales(w, 2 * RateFor(r, c), e);
  }

  lemma SlabErrorAt(grosses: seq<nat>, rates: seq<Rates>, c: Column, j: nat)
    requires |rates| == |grosses| && j < |Keys(rates, |rates|)|
    ensures var key := Keys(rates, |rates|)[j];
      -100_000 <= 200_000 * PerSlab(grosses, rates, Exclusive, c)[j] - Sum(Gather(ExactTax(grosses, rates, c), rates, key, |rates|)) <= 100_000
  {
    var key := Keys(rates, |rates|)[j];
    hide Sum, SlabTax, RateFor, ExactTax, Weights, Members, Keys;
    SlabExactTax(grosses, rates, c, key);
    SumNonNegative(Weights(grosses, rates, key));
    ExclusivePartError(Sum(Weights(grosses, rates, key)), key, c);
  }

  lemma SlabPolicyError(grosses: seq<nat>, rates: seq<Rates>, c: Column)
    requires |rates| == |grosses|
    ensures var d := 200_000 * Sum(ColumnOf(grosses, rates, Exclusive, InvoiceHalfUp, c)) - Sum(ExactTax(grosses, rates, c));
      -(100_000 * |Keys(rates, |rates|)|) <= d <= 100_000 * |Keys(rates, |rates|)|
  {
    var keys, exact := Keys(rates, |rates|), ExactTax(grosses, rates, c);
    var perSlab := PerSlab(grosses, rates, Exclusive, c);
    hide Sum, SlabTax, RateFor, ExactTax, ColumnOf, Gather, Weights, Members, Keys;
    ColumnIsSlabTotal(grosses, rates, Exclusive, c);
    ScaledSum(perSlab);
    var exacts := SlabSums(exact, rates, keys, |rates|);
    forall j | 0 <= j < |keys| ensures -100_000 <= Scaled(perSlab)[j] - exacts[j] <= 100_000 {
      SlabErrorAt(grosses, rates, c, j);
    }
    SumWithin(Scaled(perSlab), exacts, 100_000);
    KeysAreDistinct(rates, |rates|);
    SlabsPartition(exact, rates, keys, |rates|);
    assert exact[..|rates|] == exact;
  }

  /** Exclusive prices: the two rounding policies differ, in each component, by at most half a paisa per line plus half per slab. */
  lemma PoliciesAgree(grosses: seq<nat>, rates: seq<Rates>, c: Column)
    requires |rates| == |grosses|
    ensures var d := Sum(ColumnOf(grosses, rates, Exclusive, LineHalfUp, c)) - Sum(ColumnOf(grosses, rates, Exclusive, InvoiceHalfUp, c));
      -(|grosses| + |Keys(rates, |rates|)|) <= 2 * d <= |grosses| + |Keys(rates, |rates|)|
  {
    hide Sum, ColumnOf, ExactTax;
    LinePolicyError(grosses, rates, c);
    SlabPolicyError(grosses, rates, c);
  }

  // ------------------------------------------------------------ the calculation as the service runs it

  /** What column c holds once the slabs of `done` have been scattered. */
  ghost predicate Filled(grosses: seq<nat>, rates: seq<Rates>, mode: PricingMode, c: Column, done: seq<Rates>, x: seq<nat>)
    requires |rates| == |grosses|
  {
    |x| == |rates| && forall i :: 0 <= i < |x| ==> x[i] == if rates[i] in done then SlabShare(grosses, rates, mode, c, i) else 0
  }

  /** Spreads one amount of one slab back to the slab's lines. */
  method Scatter(grosses: seq<nat>, rates: seq<Rates>, mode: PricingMode, c: Column, done: seq<Rates>, r: Rates,
                 amount: nat, members: seq<nat>, before: seq<nat>) returns (target: seq<nat>)
    requires |rates| == |grosses| && members == Members(rates, r, |rates|) && r !in done
    requires amount == Part(SlabAmounts(grosses, rates, r, mode), c)
    requires Filled(grosses, rates, mode, c, done, before)
    ensures Filled(grosses, rates, mode, c, done + [r], target)
  {
    hide SlabAmounts, Allocated, Sum, Members, SlabShare;
    var weights := seq(|members|, k requires 0 <= k < |members| => grosses[members[k]]);
    assert weights == Weights(grosses, rates, r);
    var parts := Allocate(amount, weights);
    target := before;
    for k := 0 to |members|
      invariant |target| == |rates|
      invariant forall i :: 0 <= i < |target| && rates[i] != r ==> target[i] == before[i]
      invariant forall i :: 0 <= i < |target| && rates[i] == r && |Members(rates, r, i)| < k ==> target[i] == parts[|Members(rates, r, i)|]
    {
      target := target[members[k] := parts[k]];
      PositionOf(rates, r, k, |rates|);
      PositionsAreDistinct(rates, r, k);
    }
    forall i | 0 <= i < |target| && rates[i] == r ensures target[i] == SlabShare(grosses, rates, mode, c, i) {
      SlabShareIs(grosses, rates, mode, c, i);
    }
  }

  lemma SlabShareIs(grosses: seq<nat>, rates: seq<Rates>, mode: PricingMode, c: Column, i: nat)
    requires |rates| == |grosses| && i < |rates|
    ensures var k := |Members(rates, rates[i], i)|;
      && k < |Members(rates, rates[i], |rates|)|
      && SlabShare(grosses, rates, mode, c, i)
         == Allocated(Part(SlabAmounts(grosses, rates, rates[i], mode), c), Weights(grosses, rates, rates[i]))[k]
  {
    MemberAt(rates, i, |rates|);
  }

  /** Only the k-th member has k members before it. */
  lemma PositionsAreDistinct(rates: seq<Rates>, r: Rates, k: nat)
    requires k < |Members(rates, r, |rates|)|
    ensures forall i :: 0 <= i < |rates| && rates[i] == r && |Members(rates, r, i)| == k ==> i == Members(rates, r, |rates|)[k]
  {
    forall i | 0 <= i < |rates| && rates[i] == r && |Members(rates, r, i)| == k ensures i == Members(rates, r, |rates|)[k] {
      MemberAt(rates, i, |rates|);
    }
  }

  /** The state of the slab dictionary after the first n lines. */
  ghost predicate Grouped(rates: seq<Rates>, n: nat, slabs: map<Rates, seq<nat>>, order: seq<Rates>)
    requires n <= |rates|
  {
    && order == Keys(rates, n)
    && (forall r :: r in slabs <==> r in order)
    && (forall r :: r in slabs ==> slabs[r] == Members(rates, r, n))
  }

  lemma {:induction false} NoMembers(rates: seq<Rates>, r: Rates, n: nat)
    requires n <= |rates| && r !in Keys(rates, n)
    ensures Members(rates, r, n) == []
  {
    if n > 0 {
      NoMembers(rates, r, n - 1);
    }
  }

  lemma GroupedStep(rates: seq<Rates>, n: nat, slabs: map<Rates, seq<nat>>, order: seq<Rates>)
    requires n < |rates| && Grouped(rates, n, slabs, order)
    ensures var r := rates[n];
      Grouped(rates, n + 1, slabs[r := (if r in slabs then slabs[r] else []) + [n]], if r in slabs then order else order + [r])
  {
    var r := rates[n];
    var slabs' := slabs[r := (if r in slabs then slabs[r] else []) + [n]];
    var order' := if r in slabs then order else order + [r];
    assert order' == Keys(rates, n + 1);
    assert forall q: Rates :: q in order' <==> q == r || q in order;
    hide Keys;
    forall q | q in slabs' ensures slabs'[q] == Members(rates, q, n + 1) {
      if r !in slabs {
        NoMembers(rates, r, n);
      }
      assert q != r ==> q in slabs;
    }
  }

  lemma NothingGrouped(rates: seq<Rates>)
    ensures Grouped(rates, 0, map[], [])
  {
  }

  /** Groups the line indices by their rates, keys in order of first appearance. */
  method GroupBySlab(rates: seq<Rates>) returns (slabs: map<Rates, seq<nat>>, order: seq<Rates>)
    ensures Grouped(rates, |rates|, slabs, order)
  {
    hide *;
    slabs, order := map[], [];
    NothingGrouped(rates);
    for i := 0 to |rates|
      invariant Grouped(rates, i, slabs, order)
    {
      GroupedStep(rates, i, slabs, order);
      var r := rates[i];
      if r !in slabs {
        assert [] + [i] == [i];
        slabs, order := slabs[r := [i]], order + [r];
      } else {
        slabs := slabs[r := slabs[r] + [i]];
      }
    }
  }

  lemma SlabOf(rates: seq<Rates>, slabs: map<Rates, seq<nat>>, order: seq<Rates>, k: nat)
    requires Grouped(rates, |rates|, slabs, order) && k < |order|
    ensures order[k] in slabs && slabs[order[k]] == Members(rates, order[k], |rates|) && order[k] !in order[..k]
  {
    KeysAreDistinct(rates, |rates|);
  }

  method FillByLine(grosses: seq<nat>, rates: seq<Rates>, mode: PricingMode) returns (t: seq<nat>, c: seq<nat>, s: seq<nat>, g: seq<nat>)
    requires |rates| == |grosses|
    ensures t == ColumnOf(grosses, rates, mode, LineHalfUp, TaxableColumn)
    ensures c == ColumnOf(grosses, rates, mode, LineHalfUp, CgstColumn)
    ensures s == ColumnOf(grosses, rates, mode, LineHalfUp, SgstColumn)
    ensures g == ColumnOf(grosses, rates, mode, LineHalfUp, IgstColumn)
  {
    var n := |rates|;
    t, c, s, g := seq(n, _ => 0), seq(n, _ => 0), seq(n, _ => 0), seq(n, _ => 0);
    hide SlabTax;
    for i := 0 to n
      invariant |t| == |c| == |s| == |g| == n
      invariant forall k :: 0 <= k < i ==> Amounts(t[k], c[k], s[k], g[k]) == SlabTax(grosses[k], rates[k], mode)
    {
      var a := SlabTax(grosses[i], rates[i], mode);
      t, c, s, g := t[i := a.taxable], c[i := a.cgst], s[i := a.sgst], g[i := a.igst];
    }
  }

  ghost predicate AllFilled(grosses: seq<nat>, rates: seq<Rates>, mode: PricingMode, done: seq<Rates>,
                            t: seq<nat>, c: seq<nat>, s: seq<nat>, g: seq<nat>)
    requires |rates| == |grosses|
  {
    && Filled(grosses, rates, mode, TaxableColumn, done, t)
    && Filled(grosses, rates, mode, CgstColumn, done, c)
    && Filled(grosses, rates, mode, SgstColumn, done, s)
    && Filled(grosses, rates, mode, IgstColumn, done, g)
  }

  lemma NothingFilled(grosses: seq<nat>, rates: seq<Rates>, mode: PricingMode, x: seq<nat>)
    requires |rates| == |grosses| == |x| && forall i :: 0 <= i < |x| ==> x[i] == 0
    ensures AllFilled(grosses, rates, mode, [], x, x, x, x)
  {
    hide SlabShare;
  }

  lemma FilledIsColumn(grosses: seq<nat>, rates: seq<Rates>, mode: PricingMode, c: Column, x: seq<nat>)
    requires |rates| == |grosses|
    requires Filled(grosses, rates, mode, c, Keys(rates, |rates|), x)
    ensures x == ColumnOf(grosses, rates, mode, InvoiceHalfUp, c)
  {
    hide SlabShare;
    KeysAreDistinct(rates, |rates|);
  }

  /** When all slabs are done, the four columns are those of invoice rounding. */
  lemma AllFilledIsColumns(grosses: seq<nat>, rates: seq<Rates>, mode: PricingMode, slabs: map<Rates, seq<nat>>, order: seq<Rates>,
                           t: seq<nat>, c: seq<nat>, s: seq<nat>, g: seq<nat>)
    requires |rates| == |grosses| && Grouped(rates, |rates|, slabs, order) && AllFilled(grosses, rates, mode, order, t, c, s, g)
    ensures t == ColumnOf(grosses, rates, mode, InvoiceHalfUp, TaxableColumn)
    ensures c == ColumnOf(grosses, rates, mode, InvoiceHalfUp, CgstColumn)
    ensures s == ColumnOf(grosses, rates, mode, InvoiceHalfUp, SgstColumn)
    ensures g == ColumnOf(grosses, rates, mode, InvoiceHalfUp, IgstColumn)
  {
    hide Filled, ColumnOf, Keys, Members;
    FilledIsColumn(grosses, rates, mode, TaxableColumn, t);
    FilledIsColumn(grosses, rates, mode, CgstColumn, c);
    FilledIsColumn(grosses, rates, mode, SgstColumn, s);
    FilledIsColumn(grosses, rates, mode, IgstColumn, g);
  }

  /** One slab: its tax is rounded once and spread back over its lines, column by column. */
  method FillSlab(grosses: seq<nat>, rates: seq<Rates>, mode: PricingMode, done: seq<Rates>, r: Rates, members: seq<nat>,
                  t: seq<nat>, c: seq<nat>, s: seq<nat>, g: seq<nat>) returns (t': seq<nat>, c': seq<nat>, s': seq<nat>, g': seq<nat>)
    requires |rates| == |grosses| && members == Members(rates, r, |rates|) && r !in done
    requires AllFilled(grosses, rates, mode, done, t, c, s, g)
    ensures AllFilled(grosses, rates, mode, done + [r], t', c', s', g')
  {
    hide SlabTax, Sum, Members, Filled;
    var weights := seq(|members|, j requires 0 <= j < |members| => grosses[members[j]]);
    assert weights == Weights(grosses, rates, r);
    SumNonNegative(weights);
    var a := SlabTax(Sum(weights), r, mode);
    t' := Scatter(grosses, rates, mode, TaxableColumn, done, r, a.taxable, members, t);
    c' := Scatter(grosses, rates, mode, CgstColumn, done, r, a.cgst, members, c);
    s' := Scatter(grosses, rates, mode, SgstColumn, done, r, a.sgst, members, s);
    g' := Scatter(grosses, rates, mode, IgstColumn, done, r, a.igst, members, g);
  }

  method FillBySlab(grosses: seq<nat>, rates: seq<Rates>, mode: PricingMode) returns (t: seq<nat>, c: seq<nat>, s: seq<nat>, g: seq<nat>)
    requires |rates| == |grosses|
    ensures t == ColumnOf(grosses, rates, mode, InvoiceHalfUp, TaxableColumn)
    ensures c == ColumnOf(grosses, rates, mode, InvoiceHalfUp, CgstColumn)
    ensures s == ColumnOf(grosses, rates, mode, InvoiceHalfUp, SgstColumn)
    ensures g == ColumnOf(grosses, rates, mode, InvoiceHalfUp, IgstColumn)
  {
    hide *;
    var zeros := seq(|rates|, _ => 0);
    t, c, s, g := zeros, zeros, zeros, zeros;
    NothingFilled(grosses, rates, mode, zeros);
    var slabs, order := GroupBySlab(rates);
    assert order[..0] == [];
    for k := 0 to |order|
      invariant AllFilled(grosses, rates, mode, order[..k], t, c, s, g)
    {
      SlabOf(rates, slabs, order, k);
      assert order[..k + 1] == order[..k] + [order[k]];
      t, c, s, g := FillSlab(grosses, rates, mode, order[..k], order[k], slabs[order[k]], t, c, s, g);
    }
    assert order[..|order|] == order;
    AllFilledIsColumns(grosses, rates, mode, slabs, order, t, c, s, g);
  }

  /** Refuses an unknown configuration value; otherwise the columns filled step by step are the computed ones. */
  method Calculate(lines: seq<CalcLine>, shipping: nat, config: Config) returns (o: Outcome)
    ensures o.UnknownConfiguration? <==> config.mode.UnknownMode? || config.shipping.UnknownShipping? || config.policy.UnknownPolicy?
    ensures o.Calculated? ==> o.result == Computed(lines, shipping, config)
  {
    if !config.Known() {
      return UnknownConfiguration;
    }
    var values := Values(lines);
    var shipped, untaxed: nat := seq(|lines|, i => 0), shipping;
    if config.shipping == TaxableWithGoods && shipping != 0 {
      shipped := Allocate(shipping, values);
      untaxed := 0;
    }
    var grosses := seq(|lines|, i requires 0 <= i < |lines| => values[i] + shipped[i]);
    var rates := AllRates(lines, config.intraState);
    hide ColumnOf, Allocated, Sum, RatesOf, Total, LineTaxes;
    assert shipped == Shipped(lines, shipping, config.shipping);
    assert grosses == Grosses(lines, shipping, config.shipping);
    var t, c, s, g;
    if config.policy == LineHalfUp {
      t, c, s, g := FillByLine(grosses, rates, config.mode);
    } else {
      t, c, s, g := FillBySlab(grosses, rates, config.mode);
    }
    o := Calculated(Assembled(LineTaxes(lines, shipped, grosses, config.mode, t, c, s, g), untaxed, config.mode, t, c, s, g));
  }
}
