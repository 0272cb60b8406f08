/**
 The tax engine around the arithmetic: which lines are ready to be taxed, how an order becomes tax lines, and what the engine
 therefore stands behind.
 */
module TaxEngine {
  import opened Arith
  import opened Sums
  import opened GstCalc
  import opened GstCalculate
  import opened GstCharges
  import opened Discount
  import opened Options

  datatype Status = Approved | NotApproved

  /** A stored tax rule; a treatment outside the known four keeps its name. */
  datatype RuleTreatment = Known(treatment: Treatment) | UnknownTreatment(name: string)
  datatype Rule = Rule(treatment: RuleTreatment, rates: Rates)

  /** What one request reads of the tax master: statuses and the approved rules that cover the date. */
  datatype Master = Master(statuses: map<nat, Status>, covering: map<nat, seq<Rule>>)

  datatype TaxLine = TaxLine(productId: nat, quantity: nat, unitPrice: nat, classification: Option<nat>, discount: nat)

  datatype Reason = MissingClassification | UnapprovedClassification | NoApplicableRule | AmbiguousRule | UnknownTreatmentReason
  datatype Blocker = Blocker(productId: nat, reason: Reason)

  function Covering(m: Master, cid: nat): seq<Rule> {
    if cid in m.covering then m.covering[cid] else []
  }

  /** Why one line cannot be taxed, if it cannot. */
  function LineBlocker(m: Master, line: TaxLine): Option<Blocker> {
    if line.classification.None? then Some(Blocker(line.productId, MissingClassification))
    else
      var cid := line.classification.value;
      if cid !in m.statuses || m.statuses[cid] != Approved then Some(Blocker(line.productId, UnapprovedClassification))
      else
        var covering := Covering(m, cid);
        if |covering| == 0 then Some(Blocker(line.productId, NoApplicableRule))
        else if |covering| > 1 then Some(Blocker(line.productId, AmbiguousRule))
        else if covering[0].treatment.UnknownTreatment? then Some(Blocker(line.productId, UnknownTreatmentReason))
        else None
  }

  function Blockers(m: Master, lines: seq<TaxLine>): seq<Blocker> {
    if lines == [] then []
    else
      var last := LineBlocker(m, lines[|lines| - 1]);
      Blockers(m, lines[..|lines| - 1]) + (if last.Some? then [last.value] else [])
  }

  /** One approved rule with a known treatment, under an approved classification. */
  predicate Ready(m: Master, line: TaxLine) {
    && line.classification.Some?
    && line.classification.value in m.statuses && m.statuses[line.classification.value] == Approved
    && |Covering(m, line.classification.value)| == 1
    && Covering(m, line.classification.value)[0].treatment.Known?
  }

  method EvaluateReadiness(m: Master, lines: seq<TaxLine>) returns (blockers: seq<Blocker>)
    ensures blockers == Blockers(m, lines)
    ensures blockers == [] <==> forall i :: 0 <= i < |lines| ==> Ready(m, lines[i])
  {
    blockers := [];
    for i := 0 to |lines|
      invariant blockers == Blockers(m, lines[..i])
    {
      assert lines[..i + 1][..i] == lines[..i];
      var line := lines[i];
      if line.classification.None? {
        blockers := blockers + [Blocker(line.productId, MissingClassification)];
      } else {
        var cid := line.classification.value;
        if cid !in m.statuses || m.statuses[cid] != Approved {
          blockers := blockers + [Blocker(line.productId, UnapprovedClassification)];
        } else {
          var covering := Covering(m, cid);
          if |covering| == 0 {
            blockers := blockers + [Blocker(line.productId, NoApplicableRule)];
          } else if |covering| > 1 {
            blockers := blockers + [Blocker(line.productId, AmbiguousRule)];
          } else if covering[0].treatment.UnknownTreatment? {
            blockers := blockers + [Blocker(line.productId, UnknownTreatmentReason)];
          }
        }
      }
    }
    assert lines[..|lines|] == lines;
    ReadyIffUnblocked(m, lines);
  }

  /** No blocker means every line is ready, and conversely. */
  lemma {:induction false} ReadyIffUnblocked(m: Master, lines: seq<TaxLine>)
    ensures Blockers(m, lines) == [] <==> forall i :: 0 <= i < |lines| ==> Ready(m, lines[i])
  {
    if lines != [] {
      var n := |lines| - 1;
      ReadyIffUnblocked(m, lines[..n]);
      assert forall i :: 0 <= i < n ==> lines[..n][i] == lines[i];
    }
  }

  /** The line's classification is there and approved. */
  predicate Classified(m: Master, line: TaxLine) {
    && line.classification.Some?
    && line.classification.value in m.statuses && m.statuses[line.classification.value] == Approved
  }

  /** How many approved rules cover the line's classification at the date. */
  function RuleCount(m: Master, line: TaxLine): nat
    requires line.classification.Some?
  {
    if line.classification.value in m.covering then |m.covering[line.classification.value]| else 0
  }

  /** What each reason says about its line; exactly one of them, or readiness, applies. */
  predicate Applies(m: Master, line: TaxLine, reason: Reason) {
    match reason
    case MissingClassification => line.classification.None?
    case UnapprovedClassification => line.classification.Some? && !Classified(m, line)
    case NoApplicableRule => Classified(m, line) && RuleCount(m, line) == 0
    case AmbiguousRule => Classified(m, line) && RuleCount(m, line) >= 2
    case UnknownTreatmentReason => Classified(m, line) && RuleCount(m, line) == 1 && m.covering[line.classification.value][0].treatment.UnknownTreatment?
  }

  lemma OneReason(m: Master, line: TaxLine, reason: Reason)
    ensures LineBlocker(m, line) == Some(Blocker(line.productId, reason)) <==> Applies(m, line, reason)
    ensures LineBlocker(m, line).None? <==> Ready(m, line)
    ensures LineBlocker(m, line).Some? ==> LineBlocker(m, line).value.productId == line.productId
  {
  }

  /** How many of these lines are not ready. */
  function Unready(m: Master, lines: seq<TaxLine>): nat {
    if lines == [] then 0 else Unready(m, lines[..|lines| - 1]) + if Ready(m, lines[|lines| - 1]) then 0 else 1
  }

  /** The blockers are one for each line that is not ready, in line order, with the product and the reason that applies to it. */
  lemma {:induction false} BlockersAreReasons(m: Master, lines: seq<TaxLine>, i: nat, reason: Reason)
    requires i < |lines| && Applies(m, lines[i], reason)
    ensures |Blockers(m, lines)| == Unready(m, lines)
    ensures var k := Unready(m, lines[..i]);
      k < |Blockers(m, lines)| && Blockers(m, lines)[k] == Blocker(lines[i].productId, reason)
  {
    var n := |lines| - 1;
    OneReason(m, lines[i], reason);
    OneReason(m, lines[n], reason);
    BlockersCounted(m, lines[..n]);
    hide LineBlocker, Applies, Ready;
    if i < n {
      BlockersAreReasons(m, lines[..n], i, reason);
      assert lines[..n][..i] == lines[..i];
    }
  }

  lemma {:induction false} BlockersCounted(m: Master, lines: seq<TaxLine>)
    ensures |Blockers(m, lines)| == Unready(m, lines)
  {
    if lines != [] {
      BlockersCounted(m, lines[..|lines| - 1]);
      OneReason(m, lines[|lines| - 1], MissingClassification);
      hide LineBlocker, Ready;
    }
  }

  // ------------------------------------------------------------ the GST engine

  datatype Request = Request(lines: seq<TaxLine>, shipping: nat)

  datatype Answer = Taxed(result: GstResult) | Blocked(blockers: seq<Blocker>) | Misconfigured

  /** The value rule of every stored tax rule: a taxable one splits its IGST rate into CGST and SGST, any other carries no rate. */
  predicate StoredRule(r: Rule) {
    && r.rates.igst <= 100_000
    && (if r.treatment == Known(Taxable) then r.rates.igst > 0 && r.rates.cgst + r.rates.sgst == r.rates.igst else r.rates == Rates(0, 0, 0))
  }

  ghost predicate StoredMaster(m: Master) {
    forall cid, k :: cid in m.covering && 0 <= k < |m.covering[cid]| ==> StoredRule(m.covering[cid][k])
  }

  /** No line is discounted by more than it costs. */
  predicate DiscountsWithin(lines: seq<TaxLine>) {
    forall i :: 0 <= i < |lines| ==> lines[i].discount <= lines[i].unitPrice * lines[i].quantity
  }

  function CalcLineOf(m: Master, line: TaxLine, index: nat): CalcLine
    requires Ready(m, line) && line.discount <= line.unitPrice * line.quantity
  {
    var rule := Covering(m, line.classification.value)[0];
    CalcLine(index, line.unitPrice * line.quantity - line.discount, rule.treatment.treatment, rule.rates)
  }

  function CalcLines(m: Master, lines: seq<TaxLine>): (c: seq<CalcLine>)
    requires forall i :: 0 <= i < |lines| ==> Ready(m, lines[i])
    requires DiscountsWithin(lines)
    ensures |c| == |lines|
  {
    seq(|lines|, i requires 0 <= i < |lines| => CalcLineOf(m, lines[i], i))
  }

  /** Blocked lines are reported, all of them; otherwise the tax is the computed one. */
  method CalculateTax(m: Master, request: Request, config: Config) returns (answer: Answer)
    requires DiscountsWithin(request.lines)
    ensures answer.Blocked? <==> exists i :: 0 <= i < |request.lines| && !Ready(m, request.lines[i])
    ensures answer.Blocked? ==> answer.blockers == Blockers(m, request.lines)
    ensures answer.Misconfigured? ==> config.mode.UnknownMode? || config.shipping.UnknownShipping? || config.policy.UnknownPolicy?
    ensures answer.Taxed? ==>
      && !config.mode.UnknownMode? && !config.shipping.UnknownShipping? && !config.policy.UnknownPolicy?
      && answer.result == Computed(CalcLines(m, request.lines), request.shipping, config)
  {
    var blockers := EvaluateReadiness(m, request.lines);
    if blockers != [] {
      return Blocked(blockers);
    }
    var calcLines := [];
    for i := 0 to |request.lines|
      invariant calcLines == CalcLines(m, request.lines)[..i]
    {
      calcLines := calcLines + [CalcLineOf(m, request.lines[i], i)];
    }
    hide Computed;
    assert calcLines == CalcLines(m, request.lines);
    var o := Calculate(calcLines, request.shipping, config);
    answer := if o.Calculated? then Taxed(o.result) else Misconfigured;
  }

  /** Line rounding: each line of the answer is charged by the one rule of its classification, on its price times quantity less its discount. */
  lemma ChargedByRule(m: Master, lines: seq<TaxLine>, shipping: nat, config: Config, i: nat, cid: nat, rule: Rule)
    requires DiscountsWithin(lines) && (forall k :: 0 <= k < |lines| ==> Ready(m, lines[k]))
    requires i < |lines| && lines[i].classification == Some(cid) && cid in m.covering && m.covering[cid] == [rule]
    ensures rule.treatment.Known?
    ensures var r := Computed(CalcLines(m, lines), shipping, config);
      && |r.lines| == |lines| && r.lines[i].key == i
      && r.lines[i].gross == lines[i].unitPrice * lines[i].quantity - lines[i].discount + r.lines[i].shipping
      && (config.policy == LineHalfUp ==>
        Charged(rule.treatment.treatment, rule.rates, config.intraState, config.mode, r.lines[i].gross, r.lines[i].amounts))
  {
    var calcLines := CalcLines(m, lines);
    assert Ready(m, lines[i]);
    assert calcLines[i].treatment == rule.treatment.treatment && calcLines[i].rates == rule.rates;
    hide Computed, Charged;
    GoodsAndShipping(calcLines, shipping, config, i);
    if config.policy == LineHalfUp {
      LineCharged(calcLines, shipping, config, i);
    }
  }

  // ------------------------------------------------------------ from coupon to tax

  /** The order lines of a cart, each with its share of the coupon's discount. */
  function Discounted(lines: seq<TaxLine>, coupon: Coupon, shipping: nat): (r: seq<TaxLine>)
    requires !coupon.OtherKind?
    ensures |r| == |lines|
  {
    var values := LineValues(lines);
    var shares := ShareDiscount(ComputeDiscount(coupon, Total(values), shipping).goods, values);
    seq(|lines|, i requires 0 <= i < |lines| => lines[i].(discount := shares[i]))
  }

  function LineValues(lines: seq<TaxLine>): (v: seq<nat>)
    ensures |v| == |lines|
  {
    seq(|lines|, i requires 0 <= i < |lines| => lines[i].unitPrice * lines[i].quantity)
  }

  /**
   End to end: with any coupon the engine accepts every discounted line, and the values it taxes are what the customer pays for the
   goods, the subtotal less the discount.
   */
  lemma CouponToTax(m: Master, lines: seq<TaxLine>, coupon: Coupon, shipping: nat)
    requires !coupon.OtherKind?
    requires forall i :: 0 <= i < |lines| ==> Ready(m, lines[i])
    ensures var taxed := Discounted(lines, coupon, shipping);
      && DiscountsWithin(taxed)
      && (forall i :: 0 <= i < |lines| ==> Ready(m, taxed[i]))
      && Sum(Values(CalcLines(m, taxed)))
         == Total(LineValues(lines)) - ComputeDiscount(coupon, Total(LineValues(lines)), shipping).goods
  {
    var values := LineValues(lines);
    var taxed := Discounted(lines, coupon, shipping);
    SharesReachTheLines(coupon, values, shipping);
    hide ComputeDiscount, Sum, Total, ShareDiscount;
    var shares := ShareDiscount(ComputeDiscount(coupon, Total(values), shipping).goods, values);
    forall i | 0 <= i < |lines| ensures taxed[i].discount <= taxed[i].unitPrice * taxed[i].quantity && Ready(m, taxed[i]) {
      assert 0 <= Remaining(values, shares)[i];
    }
    assert Values(CalcLines(m, taxed)) == Remaining(values, shares);
  }

  /** Stored rules satisfy the hypothesis of the round-off bounds, so the engine's inclusive round-off is at most 2 paise a line. */
  lemma StoredRulesBoundRoundOff(m: Master, lines: seq<TaxLine>, shipping: nat, config: Config)
    requires StoredMaster(m) && DiscountsWithin(lines) && forall i :: 0 <= i < |lines| ==> Ready(m, lines[i])
    requires config.mode == Inclusive && config.policy == LineHalfUp
    ensures -(2 * |lines|) <= Computed(CalcLines(m, lines), shipping, config).roundOff <= 2 * |lines|
  {
    var calcLines := CalcLines(m, lines);
    forall i | 0 <= i < |calcLines| ensures calcLines[i].rates.cgst + calcLines[i].rates.sgst <= 100_000 && calcLines[i].rates.igst <= 100_000 {
      var cid := lines[i].classification.value;
      assert Ready(m, lines[i]) && cid in m.covering && StoredRule(m.covering[cid][0]);
    }
    hide Computed, CalcLines;
    RoundOffByLine(calcLines, shipping, config);
    BoundTimes(calcLines);
  }

  lemma BoundTimes(calcLines: seq<CalcLine>)
    ensures Bound(calcLines) * |calcLines| <= 2 * |calcLines|
  {
    hide Bound;
    MulMonotone(|calcLines|, Bound(calcLines), 2);
  }
}
