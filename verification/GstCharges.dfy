/** What each line of a calculated invoice is charged, in terms of the line's own treatment and rates. */
module GstCharges {
  import opened Sums
  import opened Allocation
  import opened GstCalc
  import opened GstCalculate

  /**
   These amounts are what this gross value is charged: CGST and SGST at their rates within a state, IGST at its rate between two, each
   rounded to nearest on the taxable value; nothing under any treatment but taxable.
   */
  predicate Charged(treatment: Treatment, rates: Rates, intraState: bool, mode: PricingMode, gross: nat, a: Amounts) {
    if treatment != Taxable then a == Amounts(gross, 0, 0, 0)
    else if intraState then
      && a.igst == 0
      && TaxAt(a.taxable, rates.cgst, a.cgst) && TaxAt(a.taxable, rates.sgst, a.sgst)
      && TaxableOf(gross, rates.cgst + rates.sgst, mode, a.taxable)
    else
      && a.cgst == 0 && a.sgst == 0
      && TaxAt(a.taxable, rates.igst, a.igst)
      && TaxableOf(gross, rates.igst, mode, a.taxable)
  }

  /** The tax at this rate, to the nearest paisa. */
  predicate TaxAt(taxable: nat, rate: nat, tax: nat) {
    Nearest(taxable * rate, 100_000, tax)
  }

  /** Exclusive prices are taxable as they are; inclusive ones contain the tax at the combined rate. */
  predicate TaxableOf(gross: nat, rate: nat, mode: PricingMode, taxable: nat) {
    if mode == Exclusive then taxable == gross else Nearest(gross * 100_000, 100_000 + rate, taxable)
  }

  /** The amounts of one value, by what they are nearest to. */
  lemma TaxShape(gross: nat, rates: Rates, mode: PricingMode)
    ensures var a := SlabTax(gross, rates, mode);
      if rates.Total() == 0 then a == Amounts(gross, 0, 0, 0)
      else
        && TaxableOf(gross, rates.Total(), mode, a.taxable)
        && a.cgst == TaxOn(a.taxable, rates.cgst) && a.sgst == TaxOn(a.taxable, rates.sgst) && a.igst == TaxOn(a.taxable, rates.igst)
  {
    hide Nearest, TaxOn;
  }

  /** CGST and SGST at their rates, nothing else. */
  lemma ChargedWithin(c: nat, s: nat, mode: PricingMode, gross: nat)
    ensures var a := SlabTax(gross, Rates(c, s, 0), mode);
      && a.igst == 0 && TaxAt(a.taxable, c, a.cgst) && TaxAt(a.taxable, s, a.sgst)
      && TaxableOf(gross, c + s, mode, a.taxable)
  {
    hide HalfUp, Nearest, TaxOn, SlabTax, TaxAt;
    var rates := Rates(c, s, 0);
    TaxShape(gross, rates, mode);
    if rates.Total() == 0 {
      WholeIsNearest(gross);
      NothingIsNearest(gross);
    } else {
      TaxIsNearest(SlabTax(gross, rates, mode).taxable, rates);
      Uncharged(SlabTax(gross, rates, mode).taxable);
    }
  }

  /** IGST at its rate, nothing else. */
  lemma ChargedBetween(g: nat, mode: PricingMode, gross: nat)
    ensures var a := SlabTax(gross, Rates(0, 0, g), mode);
      a.cgst == 0 && a.sgst == 0 && TaxAt(a.taxable, g, a.igst) && TaxableOf(gross, g, mode, a.taxable)
  {
    hide HalfUp, Nearest, TaxOn, SlabTax, TaxAt;
    var rates := Rates(0, 0, g);
    TaxShape(gross, rates, mode);
    if g == 0 {
      WholeIsNearest(gross);
      NothingIsNearest(gross);
    } else {
      TaxIsNearest(SlabTax(gross, rates, mode).taxable, rates);
      Uncharged(SlabTax(gross, rates, mode).taxable);
    }
  }

  /** One value at one line's rates. */
  lemma ValueCharged(line: CalcLine, intraState: bool, mode: PricingMode, gross: nat)
    ensures Charged(line.treatment, line.rates, intraState, mode, gross, SlabTax(gross, RatesOf(line, intraState), mode))
  {
    hide TaxAt, SlabTax, TaxableOf;
    if line.treatment != Taxable {
      FreeOfTax(mode, gross);
    } else if intraState {
      ChargedWithin(line.rates.cgst, line.rates.sgst, mode, gross);
    } else {
      ChargedBetween(line.rates.igst, mode, gross);
    }
  }

  lemma FreeOfTax(mode: PricingMode, gross: nat)
    ensures SlabTax(gross, Rates(0, 0, 0), mode) == Amounts(gross, 0, 0, 0)
  {
  }

  lemma Uncharged(taxable: nat)
    ensures TaxOn(taxable, 0) == 0
  {
  }

  lemma TaxIsNearest(taxable: nat, rates: Rates)
    ensures TaxAt(taxable, rates.cgst, TaxOn(taxable, rates.cgst))
    ensures TaxAt(taxable, rates.sgst, TaxOn(taxable, rates.sgst))
    ensures TaxAt(taxable, rates.igst, TaxOn(taxable, rates.igst))
  {
    hide Nearest;
  }

  lemma WholeIsNearest(gross: nat)
    ensures Nearest(gross * 100_000, 100_000, gross)
  {
  }

  lemma NothingIsNearest(taxable: nat)
    ensures TaxAt(taxable, 0, 0)
  {
  }

  /** Line rounding: every line is charged on its own. */
  lemma LineCharged(lines: seq<CalcLine>, shipping: nat, config: Config, i: nat)
    requires config.policy == LineHalfUp && i < |lines|
    ensures var line := Computed(lines, shipping, config).lines[i];
      Charged(lines[i].treatment, lines[i].rates, config.intraState, config.mode, line.gross, line.amounts)
  {
    hide Charged, SlabTax, RatesOf, Shipped, Total, RoundOffs;
    ValueCharged(lines[i], config.intraState, config.mode, Grosses(lines, shipping, config.shipping)[i]);
  }

  // ------------------------------------------------------------ slabs

  /** Nothing is charged on this line. */
  predicate Free(line: CalcLine, intraState: bool) {
    line.treatment != Taxable || (if intraState then line.rates.cgst == 0 && line.rates.sgst == 0 else line.rates.igst == 0)
  }

  /** Two lines are taxed together: both at nothing, or at the same rates. */
  predicate TaxedTogether(a: CalcLine, b: CalcLine, intraState: bool) {
    if Free(a, intraState) || Free(b, intraState) then Free(a, intraState) && Free(b, intraState)
    else if intraState then a.rates.cgst == b.rates.cgst && a.rates.sgst == b.rates.sgst
    else a.rates.igst == b.rates.igst
  }

  lemma TogetherIsSameRates(a: CalcLine, b: CalcLine, intraState: bool)
    ensures TaxedTogether(a, b, intraState) <==> RatesOf(a, intraState) == RatesOf(b, intraState)
  {
  }

  /** The entries of x at the lines that are taxed together with line i, and 0 elsewhere. */
  function Beside(x: seq<nat>, lines: seq<CalcLine>, intraState: bool, i: nat): (b: seq<nat>)
    requires |x| == |lines| && i < |lines|
    ensures |b| == |lines|
  {
    seq(|lines|, j requires 0 <= j < |lines| => if TaxedTogether(lines[i], lines[j], intraState) then x[j] else 0)
  }

  function SlabSum(x: seq<nat>, lines: seq<CalcLine>, intraState: bool, i: nat): nat
    requires |x| == |lines| && i < |lines|
  {
    Total(Beside(x, lines, intraState, i))
  }

  lemma {:induction false} BesideIsGathered(x: seq<nat>, lines: seq<CalcLine>, intraState: bool, i: nat, n: nat)
    requires |x| == |lines| && i < |lines| && n <= |lines|
    ensures Sum(Beside(x, lines, intraState, i)[..n]) == Sum(Gather(x, AllRates(lines, intraState), RatesOf(lines[i], intraState), n))
  {
    hide Gather, Members, RatesOf, TaxedTogether;
    var b, rates := Beside(x, lines, intraState, i), AllRates(lines, intraState);
    if n == 0 {
      assert b[..0] == [];
      EmptyGather(x, rates, RatesOf(lines[i], intraState));
    } else {
      BesideIsGathered(x, lines, intraState, i, n - 1);
      SumPrefix(b, n - 1);
      GatherStep(x, rates, RatesOf(lines[i], intraState), n - 1);
      TogetherIsSameRates(lines[i], lines[n - 1], intraState);
    }
  }

  lemma EmptyGather(x: seq<int>, rates: seq<Rates>, r: Rates)
    requires |rates| == |x|
    ensures Sum(Gather(x, rates, r, 0)) == 0
  {
  }

  lemma SlabSumIsGathered(x: seq<nat>, lines: seq<CalcLine>, intraState: bool, i: nat)
    requires |x| == |lines| && i < |lines|
    ensures SlabSum(x, lines, intraState, i)
         == Sum(Gather(x, AllRates(lines, intraState), RatesOf(lines[i], intraState), |lines|))
  {
    hide Gather, RatesOf, Beside;
    BesideIsGathered(x, lines, intraState, i, |lines|);
    assert Beside(x, lines, intraState, i)[..|lines|] == Beside(x, lines, intraState, i);
  }

  function GrossColumn(lines: seq<LineTax>): (g: seq<nat>)
    ensures |g| == |lines|
  {
    seq(|lines|, i requires 0 <= i < |lines| => lines[i].gross)
  }

  lemma GrossColumnIsGrosses(lines: seq<CalcLine>, shipping: nat, config: Config)
    ensures GrossColumn(Computed(lines, shipping, config).lines) == Grosses(lines, shipping, config.shipping)
  {
    hide ColumnOf, Total, RoundOffs, Grosses, AllRates, Shipped;
  }

  /** What the lines taxed together with line i are charged. */
  function SlabOfLine(r: GstResult, lines: seq<CalcLine>, intraState: bool, i: nat): Amounts
    requires |r.lines| == |lines| && i < |lines|
  {
    Amounts(SlabSum(LineColumn(r.lines, TaxableColumn), lines, intraState, i), SlabSum(LineColumn(r.lines, CgstColumn), lines, intraState, i),
            SlabSum(LineColumn(r.lines, SgstColumn), lines, intraState, i), SlabSum(LineColumn(r.lines, IgstColumn), lines, intraState, i))
  }

  lemma SlabColumn(lines: seq<CalcLine>, shipping: nat, config: Config, i: nat, c: Column)
    requires config.policy == InvoiceHalfUp && i < |lines|
    ensures var gross := SlabSum(GrossColumn(Computed(lines, shipping, config).lines), lines, config.intraState, i);
      SlabSum(LineColumn(Computed(lines, shipping, config).lines, c), lines, config.intraState, i)
      == Part(SlabTax(gross, RatesOf(lines[i], config.intraState), config.mode), c)
  {
    var grosses, rates, r := Grosses(lines, shipping, config.shipping), AllRates(lines, config.intraState), RatesOf(lines[i], config.intraState);
    GrossColumnIsGrosses(lines, shipping, config);
    LineColumnIsColumn(lines, shipping, config, c);
    hide Computed, ColumnOf, Grosses, AllRates, RatesOf, LineColumn, GrossColumn, SlabSum, Sum, SlabTax, Part, Members;
    SlabSumIsGathered(grosses, lines, config.intraState, i);
    SlabSumIsGathered(ColumnOf(grosses, rates, config.mode, config.policy, c), lines, config.intraState, i);
    SlabShareExact(grosses, rates, config.mode, c, r);
  }

  /** Invoice rounding: the lines that are taxed together are charged as one value, their sum. */
  lemma SlabCharged(lines: seq<CalcLine>, shipping: nat, config: Config, i: nat)
    requires config.policy == InvoiceHalfUp && i < |lines|
    ensures var r := Computed(lines, shipping, config);
      Charged(lines[i].treatment, lines[i].rates, config.intraState, config.mode, SlabSum(GrossColumn(r.lines), lines, config.intraState, i),
              SlabOfLine(r, lines, config.intraState, i))
  {
    hide Computed, LineColumn, GrossColumn, SlabSum, SlabTax, RatesOf, Charged;
    var gross := SlabSum(GrossColumn(Computed(lines, shipping, config).lines), lines, config.intraState, i);
    SlabColumn(lines, shipping, config, i, TaxableColumn);
    SlabColumn(lines, shipping, config, i, CgstColumn);
    SlabColumn(lines, shipping, config, i, SgstColumn);
    SlabColumn(lines, shipping, config, i, IgstColumn);
    ValueCharged(lines[i], config.intraState, config.mode, gross);
  }

  /** Invoice rounding: in every column a line gets its share of what its slab is charged, in proportion to the gross values. */
  lemma LineShare(lines: seq<CalcLine>, shipping: nat, config: Config, i: nat, c: Column)
    requires config.policy == InvoiceHalfUp && i < |lines|
    ensures var r := Computed(lines, shipping, config);
      NearShare(Part(SlabOfLine(r, lines, config.intraState, i), c), Part(r.lines[i].amounts, c), r.lines[i].gross,
                SlabSum(GrossColumn(r.lines), lines, config.intraState, i))
  {
    var grosses, rates := Grosses(lines, shipping, config.shipping), AllRates(lines, config.intraState);
    var r, whole := Computed(lines, shipping, config), SlabSum(GrossColumn(Computed(lines, shipping, config).lines), lines, config.intraState, i);
    assert rates[i] == RatesOf(lines[i], config.intraState);
    assert LineColumn(r.lines, c)[i] == Part(r.lines[i].amounts, c) && GrossColumn(r.lines)[i] == r.lines[i].gross;
    GrossColumnIsGrosses(lines, shipping, config);
    LineColumnIsColumn(lines, shipping, config, c);
    hide Computed, ColumnOf, Grosses, AllRates, RatesOf, LineColumn, GrossColumn, SlabSum, Sum, SlabTax, NearShare, Allocated, Weights, Members, Total;
    assert r.lines[i].gross == grosses[i];
    SlabColumn(lines, shipping, config, i, c);
    SlabSumIsGathered(grosses, lines, config.intraState, i);
    ShareIsAllocated(grosses, rates, config.mode, c, i);
    SlabPart(r, lines, config.intraState, i, c);
    QuotaIsNear(SlabAmount(grosses, rates, config.mode, c, i), Weights(grosses, rates, rates[i]), |Members(rates, rates[i], i)|);
  }

  lemma SlabPart(r: GstResult, lines: seq<CalcLine>, intraState: bool, i: nat, c: Column)
    requires |r.lines| == |lines| && i < |lines|
    ensures Part(SlabOfLine(r, lines, intraState, i), c) == SlabSum(LineColumn(r.lines, c), lines, intraState, i)
  {
  }

  /** The parts of a line that do not depend on its rates. */
  lemma GoodsAndShipping(lines: seq<CalcLine>, shipping: nat, config: Config, i: nat)
    requires i < |lines|
    ensures var r := Computed(lines, shipping, config);
      && r.lines[i].key == lines[i].key && r.lines[i].gross == lines[i].value + r.lines[i].shipping
      && (config.shipping != TaxableWithGoods ==> r.shippingUntaxed == shipping && r.lines[i].shipping == 0)
      && (config.shipping == TaxableWithGoods ==>
        r.shippingUntaxed == 0 && NearShare(shipping, r.lines[i].shipping, lines[i].value, Total(Values(lines))))
  {
    hide ColumnOf, AllRates, RoundOffs, Allocated, NearShare, Sum, Total;
    QuotaIsNear(shipping, Values(lines), i);
    NothingShipped(Values(lines), i);
  }

  lemma NothingShipped(values: seq<nat>, i: nat)
    requires i < |values|
    ensures Allocated(0, values)[i] == 0 && NearShare(0, 0, values[i], Total(values))
  {
    hide Total, Sum;
  }
}
