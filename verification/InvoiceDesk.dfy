/**
 Issuing tax invoices and credit notes: the number series and the table of issued documents.

 A transaction asks for one document.  It reads the documents committed when it looks (its `seen` first ones, possibly fewer
 than exist when it inserts), takes the next number of its series under a row lock, inserts, and commits; a refusal or a later
 failure in the same transaction takes everything back, the number included.
 */
module InvoiceDesk {
  import opened Digits
  import opened InvoiceNumbers
  import opened Options
  import OrderGuards

  datatype Kind = TaxInvoice | CreditNote
  datatype Invoice = Invoice(order: nat, kind: Kind, number: string, sequence: nat, issuedOn: Day, related: Option<nat>)
  datatype Desk = Desk(sequences: map<string, nat>, invoices: seq<Invoice>)

  const Fresh := Desk(map[], [])

  datatype Order = Order(id: nat, demo: bool, gst: bool, status: OrderGuards.OrderStatus)

  datatype Request = ForInvoice(order: Order, explicit: bool) | ForCreditNote(order: Order)

  /** What a transaction meets: the day, the profile's prefix if there is a profile, and what goes wrong. */
  datatype Setting = Setting(seen: nat, day: Day, prefix: Option<string>, documentFails: bool, rolledBack: bool)

  datatype Refusal = NotApplicable | ProfileIncomplete | DocumentFailed | OutOfRange | NumberTooLong | NumberTaken | OrderTaken
  datatype Outcome = Nothing | Existing(index: nat) | Issued(index: nat) | Refused(why: Refusal)
  datatype Result = Result(desk: Desk, outcome: Outcome)

  function SeriesName(kind: Kind, fy: string): string {
    (if kind == TaxInvoice then "INV" else "CN") + [':'] + fy
  }

  function SeriesOf(i: Invoice): string {
    SeriesName(i.kind, FiscalYear(StartYear(i.issuedOn)))
  }

  function Last(d: Desk, series: string): nat {
    if series in d.sequences then d.sequences[series] else 0
  }

  function Prefix(kind: Kind, profile: string): string {
    if kind == TaxInvoice then profile else "CN"
  }

  function Find(invoices: seq<Invoice>, order: nat, kind: Kind): (i: Option<nat>)
    ensures i.Some? ==> i.value < |invoices| && invoices[i.value].order == order && invoices[i.value].kind == kind
    ensures i.None? ==> forall k :: 0 <= k < |invoices| ==> invoices[k].order != order || invoices[k].kind != kind
  {
    if invoices == [] then None
    else
      var last := invoices[|invoices| - 1];
      if last.order == order && last.kind == kind then Some(|invoices| - 1) else Find(invoices[..|invoices| - 1], order, kind)
  }

  function Seen(d: Desk, s: Setting): seq<Invoice> {
    if s.seen <= |d.invoices| then d.invoices[..s.seen] else d.invoices
  }

  predicate Taken(invoices: seq<Invoice>, number: string) {
    exists i :: 0 <= i < |invoices| && invoices[i].number == number
  }

  function Row(d: Desk, order: nat, kind: Kind, related: Option<nat>, day: Day, prefix: string): Invoice {
    var fy := FiscalYear(StartYear(day));
    var n := Last(d, SeriesName(kind, fy)) + 1;
    Invoice(order, kind, FormatNumber(prefix, fy, n), n, day, related)
  }

  /** The database's checks on a new row. */
  function Verdict(invoices: seq<Invoice>, row: Invoice): Option<Refusal> {
    if |row.number| > 16 then Some(NumberTooLong)
    else if Taken(invoices, row.number) then Some(NumberTaken)
    else if Find(invoices, row.order, row.kind).Some? then Some(OrderTaken)
    else None
  }

  function Issue(d: Desk, order: nat, kind: Kind, related: Option<nat>, s: Setting): Result {
    if s.prefix.None? then Result(d, Refused(ProfileIncomplete))
    else
      var row := Row(d, order, kind, related, s.day, Prefix(kind, s.prefix.value));
      if row.sequence > 2_147_483_647 then Result(d, Refused(OutOfRange))
      else if s.documentFails then Result(d, Refused(DocumentFailed))
      else
        var verdict := Verdict(d.invoices, row);
        if verdict.Some? then Result(d, Refused(verdict.value))
        else Result(Desk(d.sequences[SeriesOf(row) := row.sequence], d.invoices + [row]), Issued(|d.invoices|))
  }

  function Handle(d: Desk, r: Request, s: Setting): Result {
    match r
    case ForInvoice(order, explicit) =>
      var existing := Find(Seen(d, s), order.id, TaxInvoice);
      if existing.Some? then Result(d, Existing(existing.value))
      else if order.demo || !order.gst then Result(d, if explicit then Refused(NotApplicable) else Nothing)
      else if order.status != OrderGuards.Paid && order.status != OrderGuards.Fulfilled then Result(d, Refused(NotApplicable))
      else Issue(d, order.id, TaxInvoice, None, s)
    case ForCreditNote(order) =>
      var invoice := Find(Seen(d, s), order.id, TaxInvoice);
      var existing := Find(Seen(d, s), order.id, CreditNote);
      if invoice.None? then Result(d, Nothing)
      else if existing.Some? then Result(d, Existing(existing.value))
      else Issue(d, order.id, CreditNote, invoice, s)
  }

  /** A whole transaction: what it leaves committed. */
  function Transaction(d: Desk, r: Request, s: Setting): Result {
    var result := Handle(d, r, s);
    if result.outcome.Refused? || s.rolledBack then Result(d, result.outcome) else result
  }

  function After(d: Desk, es: seq<(Request, Setting)>): Desk {
    if es == [] then d else
      var n := |es| - 1;
      Transaction(After(d, es[..n]), es[n].0, es[n].1).desk
  }

  // ------------------------------------------------------------ what every run keeps

  function Count(invoices: seq<Invoice>, series: string): (c: nat)
    ensures c <= |invoices|
  {
    if invoices == [] then 0
    else Count(invoices[..|invoices| - 1], series) + if SeriesOf(invoices[|invoices| - 1]) == series then 1 else 0
  }

  ghost predicate NumberedBy(i: Invoice, prefix: string) {
    i.number == FormatNumber(prefix, FiscalYear(StartYear(i.issuedOn)), i.sequence)
  }

  /** The n-th document of a series bears the number n, and a credit note stands against an earlier invoice of its order. */
  ghost predicate RowSound(invoices: seq<Invoice>, k: nat)
    requires k < |invoices|
  {
    var i := invoices[k];
    && i.sequence == Count(invoices[..k + 1], SeriesOf(i))
    && |i.number| <= 16
    && (exists prefix :: NumberedBy(i, prefix))
    && (i.kind == CreditNote ==> NumberedBy(i, "CN") && i.related.Some? && Against(invoices, k, i.related.value))
    && (i.kind == TaxInvoice ==> i.related.None?)
  }

  predicate Against(invoices: seq<Invoice>, k: nat, j: nat)
    requires k < |invoices|
  {
    j < k && invoices[j].kind == TaxInvoice && invoices[j].order == invoices[k].order
  }

  predicate OneEach(invoices: seq<Invoice>) {
    forall j, k :: 0 <= j < k < |invoices| ==>
      invoices[j].number != invoices[k].number && (invoices[j].order, invoices[j].kind) != (invoices[k].order, invoices[k].kind)
  }

  ghost predicate RowsSound(invoices: seq<Invoice>) {
    forall k :: 0 <= k < |invoices| ==> RowSound(invoices, k)
  }

  ghost predicate Gapless(d: Desk) {
    forall series :: Last(d, series) == Count(d.invoices, series)
  }

  ghost predicate Sound(d: Desk) {
    RowsSound(d.invoices) && OneEach(d.invoices) && Gapless(d)
  }

  lemma RowStays(invoices: seq<Invoice>, row: Invoice, k: nat)
    requires k < |invoices| && RowSound(invoices, k)
    ensures RowSound(invoices + [row], k)
  {
    assert (invoices + [row])[..k + 1] == invoices[..k + 1];
    hide Count, SeriesOf, NumberedBy;
  }

  lemma CountStep(invoices: seq<Invoice>, row: Invoice, series: string)
    ensures Count(invoices + [row], series) == Count(invoices, series) + if SeriesOf(row) == series then 1 else 0
  {
    assert (invoices + [row])[..|invoices|] == invoices;
    hide SeriesOf;
  }

  /** A credit note needs an invoice of its order in the table; an invoice refers to nothing. */
  predicate Related(invoices: seq<Invoice>, order: nat, kind: Kind, related: Option<nat>) {
    if kind == TaxInvoice then related == None
    else related.Some? && related.value < |invoices| && invoices[related.value].kind == TaxInvoice && invoices[related.value].order == order
  }

  lemma NewRowSound(d: Desk, row: Invoice, prefix: string)
    requires Gapless(d) && Related(d.invoices, row.order, row.kind, row.related)
    requires row.sequence == Last(d, SeriesOf(row)) + 1 && |row.number| <= 16
    requires NumberedBy(row, prefix) && (row.kind == CreditNote ==> prefix == "CN")
    ensures RowSound(d.invoices + [row], |d.invoices|)
  {
    hide NumberedBy, Count, SeriesOf;
    var invoices := d.invoices + [row];
    assert invoices[..|d.invoices| + 1] == invoices;
    CountStep(d.invoices, row, SeriesOf(row));
  }

  lemma AddRow(d: Desk, row: Invoice)
    requires Sound(d) && RowSound(d.invoices + [row], |d.invoices|) && Verdict(d.invoices, row).None?
    requires row.sequence == Last(d, SeriesOf(row)) + 1
    ensures Sound(Desk(d.sequences[SeriesOf(row) := row.sequence], d.invoices + [row]))
  {
    forall k | 0 <= k < |d.invoices|
      ensures RowSound(d.invoices + [row], k)
    {
      RowStays(d.invoices, row, k);
    }
    NothingTaken(d.invoices, row);
    AddToSeries(d, row);
    hide Count, SeriesOf, RowSound, Verdict, OneEach, Gapless;
  }

  lemma AddToSeries(d: Desk, row: Invoice)
    requires Gapless(d) && row.sequence == Last(d, SeriesOf(row)) + 1
    ensures Gapless(Desk(d.sequences[SeriesOf(row) := row.sequence], d.invoices + [row]))
  {
    var after := Desk(d.sequences[SeriesOf(row) := row.sequence], d.invoices + [row]);
    forall series
      ensures Last(after, series) == Count(after.invoices, series)
    {
      CountStep(d.invoices, row, series);
    }
    hide Count, SeriesOf;
  }

  lemma RowNumber(d: Desk, order: nat, kind: Kind, related: Option<nat>, day: Day, prefix: string)
    ensures var row := Row(d, order, kind, related, day, prefix);
      row.sequence == Last(d, SeriesOf(row)) + 1 && NumberedBy(row, prefix)
  {
    hide FiscalYear, SeriesName, Last, FormatNumber;
  }

  lemma IssueKeeps(d: Desk, order: nat, kind: Kind, related: Option<nat>, s: Setting)
    requires Sound(d) && Related(d.invoices, order, kind, related)
    ensures Sound(Issue(d, order, kind, related, s).desk)
  {
    if Issue(d, order, kind, related, s).outcome.Issued? {
      var prefix := Prefix(kind, s.prefix.value);
      var row := Row(d, order, kind, related, s.day, prefix);
      assert Verdict(d.invoices, row).None? && |row.number| <= 16 by {
        hide Row, Find, Taken;
      }
      RowNumber(d, order, kind, related, s.day, prefix);
      NewRowSound(d, row, prefix);
      AddRow(d, row);
    }
    hide SeriesOf, RowSound, RowsSound, OneEach, Verdict, Last, FormatNumber, FiscalYear, NumberedBy, SeriesName;
  }

  lemma NothingTaken(invoices: seq<Invoice>, row: Invoice)
    requires OneEach(invoices) && Verdict(invoices, row).None?
    ensures OneEach(invoices + [row])
  {
    forall k | 0 <= k < |invoices|
      ensures invoices[k].number != row.number && (invoices[k].order, invoices[k].kind) != (row.order, row.kind)
    {
      assert !Taken(invoices, row.number) && Find(invoices, row.order, row.kind).None?;
    }
  }

  /** Every transaction keeps the desk sound, whatever it read and however it ends. */
  lemma TransactionKeeps(d: Desk, r: Request, s: Setting)
    requires Sound(d)
    ensures Sound(Transaction(d, r, s).desk)
  {
    hide Sound, Issue, Find;
    var seen := Seen(d, s);
    assert forall k :: 0 <= k < |seen| ==> k < |d.invoices| && seen[k] == d.invoices[k];
    match r
    case ForInvoice(order, explicit) =>
      IssueKeeps(d, order.id, TaxInvoice, None, s);
    case ForCreditNote(order) =>
      var invoice := Find(seen, order.id, TaxInvoice);
      if invoice.Some? {
        IssueKeeps(d, order.id, CreditNote, invoice, s);
      }
  }

  lemma {:induction false} RunsKeep(es: seq<(Request, Setting)>)
    ensures Sound(After(Fresh, es))
  {
    hide Sound, Transaction;
    if es == [] {
      FreshIsSound();
    } else {
      RunsKeep(es[..|es| - 1]);
      TransactionKeeps(After(Fresh, es[..|es| - 1]), es[|es| - 1].0, es[|es| - 1].1);
    }
  }

  lemma FreshIsSound()
    ensures Sound(Fresh)
  {
  }

  // ------------------------------------------------------------ consecutive numbers

  lemma {:induction false} CountMonotone(invoices: seq<Invoice>, k: nat, series: string)
    requires k <= |invoices|
    ensures Count(invoices[..k], series) <= Count(invoices, series)
  {
    if k == |invoices| {
      assert invoices[..k] == invoices;
    } else {
      var front := invoices[..|invoices| - 1];
      assert front[..k] == invoices[..k];
      CountMonotone(front, k, series);
    }
    hide SeriesOf;
  }

  /** Some document is the n-th of its series, for every n up to their number. */
  lemma {:induction false} NthOfSeries(invoices: seq<Invoice>, series: string, n: nat) returns (i: nat)
    requires 1 <= n <= Count(invoices, series)
    ensures i < |invoices| && SeriesOf(invoices[i]) == series && Count(invoices[..i + 1], series) == n
  {
    hide SeriesOf;
    var last := |invoices| - 1;
    if n == Count(invoices, series) && SeriesOf(invoices[last]) == series {
      i := last;
      assert invoices[..i + 1] == invoices;
    } else {
      i := NthOfSeries(invoices[..last], series, n);
      assert invoices[..last][..i + 1] == invoices[..i + 1];
    }
  }

  predicate Bears(i: Invoice, series: string, n: nat) {
    SeriesOf(i) == series && i.sequence == n
  }

  lemma SequenceBound(d: Desk, i: nat)
    requires Sound(d) && i < |d.invoices|
    ensures 1 <= d.invoices[i].sequence <= Last(d, SeriesOf(d.invoices[i]))
  {
    var series := SeriesOf(d.invoices[i]);
    assert RowSound(d.invoices, i);
    CountMonotone(d.invoices, i + 1, series);
    assert d.invoices[..i + 1][..i] == d.invoices[..i];
    assert d.invoices[..i + 1][i] == d.invoices[i];
    hide SeriesOf, Last, NumberedBy;
  }

  /** Later documents of a series have larger numbers. */
  lemma InOrder(d: Desk, i: nat, j: nat)
    requires Sound(d) && i < j < |d.invoices| && SeriesOf(d.invoices[i]) == SeriesOf(d.invoices[j])
    ensures d.invoices[i].sequence < d.invoices[j].sequence
  {
    hide SeriesOf, Last, NumberedBy;
    var series := SeriesOf(d.invoices[i]);
    assert RowSound(d.invoices, i) && RowSound(d.invoices, j);
    var front := d.invoices[..j];
    assert front[..i + 1] == d.invoices[..i + 1];
    CountMonotone(front, i + 1, series);
    assert d.invoices[..j + 1] == front + [d.invoices[j]];
    CountStep(front, d.invoices[j], series);
  }

  /** The committed numbers of a series are exactly 1 up to its last value, each borne by one document. */
  lemma ExactlyOneEach(d: Desk, series: string, n: nat)
    requires Sound(d)
    ensures 1 <= n <= Last(d, series) <==> exists i :: 0 <= i < |d.invoices| && Bears(d.invoices[i], series, n)
    ensures forall i, j :: 0 <= i < j < |d.invoices| ==> !(Bears(d.invoices[i], series, n) && Bears(d.invoices[j], series, n))
  {
    hide SeriesOf, Last, NumberedBy;
    if 1 <= n <= Last(d, series) {
      assert Last(d, series) == Count(d.invoices, series);
      var i := NthOfSeries(d.invoices, series, n);
      assert RowSound(d.invoices, i);
      assert Bears(d.invoices[i], series, n);
    }
    forall i | 0 <= i < |d.invoices| && Bears(d.invoices[i], series, n)
      ensures 1 <= n <= Last(d, series)
    {
      SequenceBound(d, i);
    }
    forall i, j | 0 <= i < j < |d.invoices|
      ensures !(Bears(d.invoices[i], series, n) && Bears(d.invoices[j], series, n))
    {
      if SeriesOf(d.invoices[i]) == SeriesOf(d.invoices[j]) {
        InOrder(d, i, j);
      }
    }
  }

  /** Over any run: gapless numbers, and at most one document of each kind per order. */
  lemma NumbersAreConsecutive(es: seq<(Request, Setting)>, series: string, n: nat)
    ensures var d := After(Fresh, es);
      && (1 <= n <= Last(d, series) <==> exists i :: 0 <= i < |d.invoices| && Bears(d.invoices[i], series, n))
      && (forall i, j :: 0 <= i < j < |d.invoices| ==> !(Bears(d.invoices[i], series, n) && Bears(d.invoices[j], series, n)))
      && OneEach(d.invoices)
  {
    RunsKeep(es);
    ExactlyOneEach(After(Fresh, es), series, n);
    hide Bears, OneEach, Last, After, RowsSound, Gapless;
  }

  lemma {:induction false} DocumentsStay(d: Desk, es: seq<(Request, Setting)>)
    ensures |d.invoices| <= |After(d, es).invoices| && After(d, es).invoices[..|d.invoices|] == d.invoices
    ensures forall series :: Last(d, series) <= Last(After(d, es), series)
  {
    if es != [] {
      var n := |es| - 1;
      DocumentsStay(d, es[..n]);
      OneDocument(After(d, es[..n]), es[n].0, es[n].1);
    }
    hide Transaction, Last;
  }

  /** A transaction commits nothing or one document, and moves no counter but that document's, by one. */
  lemma OneDocument(d: Desk, r: Request, s: Setting)
    ensures var after := Transaction(d, r, s).desk;
      after == d || (
        && |after.invoices| == |d.invoices| + 1 && after.invoices[..|d.invoices|] == d.invoices
        && forall series :: Last(after, series) == Last(d, series) + if SeriesOf(after.invoices[|d.invoices|]) == series then 1 else 0)
  {
    hide FiscalYear, FormatNumber, SeriesName, Verdict, Find, Seen;
  }

  // ------------------------------------------------------------ how a request is answered

  /** The i-th document is the order's, of this type, and committed when the transaction looked. */
  predicate Shown(d: Desk, s: Setting, order: nat, kind: Kind, i: nat) {
    i < |d.invoices| && i < s.seen && d.invoices[i].order == order && d.invoices[i].kind == kind
  }

  ghost predicate Unseen(d: Desk, s: Setting, order: nat, kind: Kind) {
    forall i: nat :: !Shown(d, s, order, kind, i)
  }

  lemma FoundIsShown(d: Desk, s: Setting, order: nat, kind: Kind)
    ensures var found := Find(Seen(d, s), order, kind);
      && (found.None? <==> Unseen(d, s, order, kind))
      && (found.Some? ==> Shown(d, s, order, kind, found.value))
  {
    hide Find;
    var seen, found := Seen(d, s), Find(Seen(d, s), order, kind);
    assert forall i :: 0 <= i < |seen| ==> i < s.seen && i < |d.invoices| && seen[i] == d.invoices[i];
    assert forall i: nat :: i < |d.invoices| && i < s.seen ==> i < |seen| && d.invoices[i] == seen[i];
    if found.Some? {
      assert Shown(d, s, order, kind, found.value);
    }
  }

  /**
   A request for an invoice: the one that can be seen already; else none for a demo order or one without GST, with an explanation if asked
   for outright; else a refusal for an order that is not paid or shipped; else the attempt to issue one.
   */
  lemma InvoiceAnswered(d: Desk, order: Order, explicit: bool, s: Setting)
    ensures var r := Transaction(d, ForInvoice(order, explicit), s);
      && (r.outcome.Existing? <==> !Unseen(d, s, order.id, TaxInvoice))
      && (r.outcome.Existing? ==> Shown(d, s, order.id, TaxInvoice, r.outcome.index) && r.desk == d)
      && (Unseen(d, s, order.id, TaxInvoice) ==> (
        && (order.demo || !order.gst ==> r == Result(d, if explicit then Refused(NotApplicable) else Nothing))
        && (!order.demo && order.gst && order.status !in {OrderGuards.Paid, OrderGuards.Fulfilled} ==> r == Result(d, Refused(NotApplicable)))
        && (!order.demo && order.gst && order.status in {OrderGuards.Paid, OrderGuards.Fulfilled} ==>
          Committed(d, s, Issue(d, order.id, TaxInvoice, None, s), r))))
  {
    hide Find, Issue, Unseen, Shown;
    FoundIsShown(d, s, order.id, TaxInvoice);
    OnlyIssues(d, order.id, TaxInvoice, None, s);
  }

  /** What stays of an attempt: everything when it issued a document and nothing else went wrong, nothing otherwise. */
  predicate Committed(d: Desk, s: Setting, attempt: Result, r: Result) {
    r.outcome == attempt.outcome && r.desk == if attempt.outcome.Issued? && !s.rolledBack then attempt.desk else d
  }

  /** A request for a credit note: nothing without an invoice; else the one that can be seen already; else the attempt to issue one against it. */
  lemma CreditNoteAnswered(d: Desk, order: Order, s: Setting)
    ensures var r := Transaction(d, ForCreditNote(order), s);
      && (Unseen(d, s, order.id, TaxInvoice) ==> r == Result(d, Nothing))
      && (!Unseen(d, s, order.id, TaxInvoice) && !Unseen(d, s, order.id, CreditNote) ==>
        r.desk == d && r.outcome.Existing? && Shown(d, s, order.id, CreditNote, r.outcome.index))
      && (!Unseen(d, s, order.id, TaxInvoice) && Unseen(d, s, order.id, CreditNote) ==>
        exists i: nat :: Shown(d, s, order.id, TaxInvoice, i) && Committed(d, s, Issue(d, order.id, CreditNote, Some(i), s), r))
  {
    hide Find, Unseen, Shown;
    FoundIsShown(d, s, order.id, TaxInvoice);
    FoundIsShown(d, s, order.id, CreditNote);
    OnlyIssues(d, order.id, CreditNote, Find(Seen(d, s), order.id, TaxInvoice), s);
    hide Issue;
    if !Unseen(d, s, order.id, TaxInvoice) {
      assert Shown(d, s, order.id, TaxInvoice, Find(Seen(d, s), order.id, TaxInvoice).value);
    }
  }

  lemma OnlyIssues(d: Desk, order: nat, kind: Kind, related: Option<nat>, s: Setting)
    ensures var attempt := Issue(d, order, kind, related, s);
      attempt.outcome.Issued? || (attempt.outcome.Refused? && attempt.desk == d)
  {
    hide Row, Verdict;
  }

  /** Why an attempt is refused, and what it issues: the first of these obstacles decides. */
  lemma AttemptExactly(d: Desk, order: nat, kind: Kind, related: Option<nat>, s: Setting)
    ensures var attempt := Issue(d, order, kind, related, s);
      if s.prefix.None? then attempt == Result(d, Refused(ProfileIncomplete))
      else
        var fy := FiscalYear(StartYear(s.day));
        var series := SeriesName(kind, fy);
        var n := (if series in d.sequences then d.sequences[series] else 0) + 1;
        var text := FormatNumber(if kind == TaxInvoice then s.prefix.value else "CN", fy, n);
        if n > 2_147_483_647 then attempt == Result(d, Refused(OutOfRange))
        else if s.documentFails then attempt == Result(d, Refused(DocumentFailed))
        else if |text| > 16 then attempt == Result(d, Refused(NumberTooLong))
        else if exists i :: 0 <= i < |d.invoices| && d.invoices[i].number == text then attempt == Result(d, Refused(NumberTaken))
        else if exists i :: 0 <= i < |d.invoices| && d.invoices[i].order == order && d.invoices[i].kind == kind
          then attempt == Result(d, Refused(OrderTaken))
        else
          attempt == Result(Desk(d.sequences[series := n], d.invoices + [Invoice(order, kind, text, n, s.day, related)]), Issued(|d.invoices|))
  {
    hide Find, FiscalYear, FormatNumber, SeriesName;
    if s.prefix.Some? {
      var row := Row(d, order, kind, related, s.day, Prefix(kind, s.prefix.value));
      RowNumber(d, order, kind, related, s.day, Prefix(kind, s.prefix.value));
      assert Find(d.invoices, order, kind).Some? <==> exists i :: 0 <= i < |d.invoices| && d.invoices[i].order == order && d.invoices[i].kind == kind;
    }
  }

  // ------------------------------------------------------------ when a number can be refused

  ghost predicate Near(i: Invoice, start: nat) {
    var own := StartYear(i.issuedOn);
    FourDigits(own) && FourDigits(own + 1) && -100 < own - start < 100
  }

  ghost predicate WithinCentury(d: Desk, start: nat) {
    forall i :: 0 <= i < |d.invoices| ==> Near(d.invoices[i], start)
  }

  ghost predicate CnFree(d: Desk) {
    forall i :: 0 <= i < |d.invoices| && d.invoices[i].kind == TaxInvoice ==> !NumberedBy(d.invoices[i], "CN")
  }

  /** A number equal to that of a new row comes from the same prefix, the same year within its century, and the same sequence number. */
  lemma SameNumber(i: Invoice, row: Invoice, p: string, prefix: string)
    requires Near(i, StartYear(row.issuedOn)) && FourDigits(StartYear(row.issuedOn)) && FourDigits(StartYear(row.issuedOn) + 1)
    requires NumberedBy(i, p) && NumberedBy(row, prefix) && i.number == row.number
    ensures p == prefix && StartYear(i.issuedOn) == StartYear(row.issuedOn) && i.sequence == row.sequence
  {
    hide FormatNumber, FiscalYear, StartYear;
    NumberDetermines(p, StartYear(i.issuedOn), i.sequence, prefix, StartYear(row.issuedOn), row.sequence);
    SameYear(StartYear(i.issuedOn), StartYear(row.issuedOn));
  }

  lemma SameYear(a: nat, b: nat)
    requires a % 100 == b % 100 && -100 < a - b < 100
    ensures a == b
  {
  }

  /** A document of the other type in the same year with the same sequence number, printed under the same prefix. */
  ghost predicate Clashes(i: Invoice, row: Invoice, prefix: string) {
    && i.kind != row.kind && StartYear(i.issuedOn) == StartYear(row.issuedOn) && i.sequence == row.sequence && NumberedBy(i, prefix)
  }

  lemma SameText(i: Invoice, row: Invoice, prefix: string)
    requires NumberedBy(i, prefix) && NumberedBy(row, prefix)
    requires StartYear(i.issuedOn) == StartYear(row.issuedOn) && i.sequence == row.sequence
    ensures i.number == row.number
  {
    hide FiscalYear, FormatNumber, StartYear;
  }

  /** A next number is taken exactly when a document of the other type already prints it. */
  lemma TakenExactly(d: Desk, row: Invoice, prefix: string)
    requires Sound(d) && NumberedBy(row, prefix) && row.sequence == Last(d, SeriesOf(row)) + 1
    requires FourDigits(StartYear(row.issuedOn)) && FourDigits(StartYear(row.issuedOn) + 1) && WithinCentury(d, StartYear(row.issuedOn))
    ensures Taken(d.invoices, row.number) <==> exists i :: 0 <= i < |d.invoices| && Clashes(d.invoices[i], row, prefix)
  {
    hide StartYear, NumberedBy, Last, FiscalYear, FormatNumber, SeriesName, Count, FourDigits;
    forall i | 0 <= i < |d.invoices|
      ensures d.invoices[i].number == row.number <==> Clashes(d.invoices[i], row, prefix)
    {
      var other := d.invoices[i];
      assert Near(other, StartYear(row.issuedOn)) && RowSound(d.invoices, i);
      SequenceBound(d, i);
      var p :| NumberedBy(other, p);
      if other.number == row.number {
        SameNumber(other, row, p, prefix);
      }
      if Clashes(other, row, prefix) {
        SameText(other, row, prefix);
      }
    }
  }

  lemma NotTaken(d: Desk, row: Invoice, prefix: string)
    requires Sound(d) && NumberedBy(row, prefix) && row.sequence == Last(d, SeriesOf(row)) + 1
    requires FourDigits(StartYear(row.issuedOn)) && FourDigits(StartYear(row.issuedOn) + 1)
    requires WithinCentury(d, StartYear(row.issuedOn)) && CnFree(d)
    requires row.kind == TaxInvoice <==> prefix != "CN"
    ensures !Taken(d.invoices, row.number)
  {
    hide StartYear, NumberedBy, Last, FiscalYear, FormatNumber, SeriesName, Count, Taken, WithinCentury, FourDigits;
    TakenExactly(d, row, prefix);
    forall i | 0 <= i < |d.invoices|
      ensures !Clashes(d.invoices[i], row, prefix)
    {
      assert RowSound(d.invoices, i);
      if d.invoices[i].kind == CreditNote && NumberedBy(d.invoices[i], prefix) {
        PrefixUnique(d.invoices[i], "CN", prefix);
      }
    }
  }

  /** Exactly when a document is issued: everything but the number itself decides. */
  lemma IssuedExactly(d: Desk, order: nat, kind: Kind, related: Option<nat>, s: Setting)
    requires Sound(d) && WithinCentury(d, StartYear(s.day)) && CnFree(d)
    requires FourDigits(StartYear(s.day)) && FourDigits(StartYear(s.day) + 1)
    requires s.prefix.Some? ==> |s.prefix.value| <= 5 && s.prefix.value != "CN"
    ensures var next := Last(d, SeriesName(kind, FiscalYear(StartYear(s.day)))) + 1;
      Issue(d, order, kind, related, s).outcome.Issued? <==> (
        && s.prefix.Some? && !s.documentFails && Find(d.invoices, order, kind).None?
        && next < Pow10(11 - |Prefix(kind, s.prefix.value)|) && next <= 2_147_483_647)
  {
    hide Find, Last, FiscalYear, FormatNumber, StartYear, SeriesName, Pow10, WithinCentury, CnFree, Sound, NumberedBy, Taken;
    if s.prefix.Some? {
      var prefix := Prefix(kind, s.prefix.value);
      var row := Row(d, order, kind, related, s.day, prefix);
      RowNumber(d, order, kind, related, s.day, prefix);
      NotTaken(d, row, prefix);
      NumberLength(prefix, StartYear(s.day), row.sequence);
    }
  }

  lemma PrefixUnique(i: Invoice, p: string, q: string)
    requires NumberedBy(i, p) && NumberedBy(i, q)
    ensures p == q
  {
    hide FiscalYear, Padded, Slice, StartYear;
    var fy := FiscalYear(StartYear(i.issuedOn));
    var rest := Slice(fy, 2, 4) + Slice(fy, 5, 7) + ['/'] + Padded(i.sequence, 6);
    assert i.number == p + rest && i.number == q + rest;
    assert |p| == |q|;
    assert p == i.number[..|p|] && q == i.number[..|q|];
  }

  /** The settings of a shop that keeps its prefix off the one of credit notes, in years near the given one. */
  ghost predicate Ordinary(s: Setting, start: nat) {
    var own := StartYear(s.day);
    && FourDigits(own) && FourDigits(own + 1) && start <= own < start + 100
    && (s.prefix.Some? ==> |s.prefix.value| <= 5 && s.prefix.value != "CN")
  }

  lemma OrdinaryStep(d: Desk, r: Request, s: Setting, start: nat)
    requires CnFree(d) && Ordinary(s, start) && (forall i :: 0 <= i < |d.invoices| ==> InYears(d.invoices[i], start))
    ensures var after := Transaction(d, r, s).desk;
      CnFree(after) && forall i :: 0 <= i < |after.invoices| ==> InYears(after.invoices[i], start)
  {
    hide Find, Last, FiscalYear, FormatNumber, StartYear, SeriesName, Verdict, Seen, NumberedBy;
    var after := Transaction(d, r, s).desk;
    if after != d {
      var kind := if r.ForInvoice? then TaxInvoice else CreditNote;
      var related := if r.ForInvoice? then None else Find(Seen(d, s), r.order.id, TaxInvoice);
      var prefix := Prefix(kind, s.prefix.value);
      var row := Row(d, r.order.id, kind, related, s.day, prefix);
      assert after.invoices == d.invoices + [row];
      RowNumber(d, r.order.id, kind, related, s.day, prefix);
      if kind == TaxInvoice && NumberedBy(row, "CN") {
        PrefixUnique(row, prefix, "CN");
      }
    }
  }

  ghost predicate InYears(i: Invoice, start: nat) {
    var own := StartYear(i.issuedOn);
    FourDigits(own) && FourDigits(own + 1) && start <= own < start + 100
  }

  lemma {:induction false} OrdinaryRuns(es: seq<(Request, Setting)>, start: nat)
    requires forall k :: 0 <= k < |es| ==> Ordinary(es[k].1, start)
    ensures var d := After(Fresh, es);
      CnFree(d) && forall i :: 0 <= i < |d.invoices| ==> InYears(d.invoices[i], start)
  {
    hide Transaction, CnFree, InYears, Ordinary;
    if es != [] {
      var n := |es| - 1;
      OrdinaryRuns(es[..n], start);
      OrdinaryStep(After(Fresh, es[..n]), es[n].0, es[n].1, start);
    } else {
      assert CnFree(Fresh) by { NothingNumbered(); }
    }
  }

  lemma NothingNumbered()
    ensures CnFree(Fresh)
  {
  }

  /** In a run within one century whose prefix is never CN, no transaction ever finds its number taken. */
  lemma NumbersNeverClash(es: seq<(Request, Setting)>, r: Request, s: Setting, start: nat)
    requires Ordinary(s, start) && forall k :: 0 <= k < |es| ==> Ordinary(es[k].1, start)
    ensures Transaction(After(Fresh, es), r, s).outcome != Refused(NumberTaken)
  {
    hide After, Find, Last, FiscalYear, FormatNumber, StartYear, SeriesName, Seen, Sound, CnFree, WithinCentury, NumberedBy, Taken;
    var d := After(Fresh, es);
    RunsKeep(es);
    OrdinaryRuns(es, start);
    assert WithinCentury(d, StartYear(s.day)) by { NearYears(d, StartYear(s.day), start); }
    if s.prefix.Some? {
      var kind := if r.ForInvoice? then TaxInvoice else CreditNote;
      var related := if r.ForInvoice? then None else Find(Seen(d, s), r.order.id, TaxInvoice);
      var prefix := Prefix(kind, s.prefix.value);
      RowNumber(d, r.order.id, kind, related, s.day, prefix);
      NotTaken(d, Row(d, r.order.id, kind, related, s.day, prefix), prefix);
    }
  }

  lemma NearYears(d: Desk, own: nat, start: nat)
    requires start <= own < start + 100 && forall i :: 0 <= i < |d.invoices| ==> InYears(d.invoices[i], start)
    ensures WithinCentury(d, own)
  {
    hide StartYear;
    forall i | 0 <= i < |d.invoices|
      ensures Near(d.invoices[i], own)
    {
      assert InYears(d.invoices[i], start);
    }
  }

  // ------------------------------------------------------------ a shop whose own prefix is CN

  lemma SeriesDetermines(kind: Kind, start: nat, kind': Kind, start': nat)
    ensures SeriesName(kind, FiscalYear(start)) == SeriesName(kind', FiscalYear(start')) <==> kind == kind' && start == start'
  {
    hide Decimal, Parse, Slice;
    if SeriesName(kind, FiscalYear(start)) == SeriesName(kind', FiscalYear(start')) {
      assert SeriesName(kind, FiscalYear(start))[0] == SeriesName(kind', FiscalYear(start'))[0];
      assert kind == kind';
      var skip := if kind == TaxInvoice then 4 else 3;
      assert SeriesName(kind, FiscalYear(start))[skip..] == FiscalYear(start);
      assert SeriesName(kind, FiscalYear(start'))[skip..] == FiscalYear(start');
      YearDetermined(start, start');
    }
  }

  lemma YearDetermined(start: nat, start': nat)
    requires FiscalYear(start) == FiscalYear(start')
    ensures start == start'
  {
    hide Decimal, Parse;
    NoDash(start);
    NoDash(start');
    NoDash(start + 1);
    NoDash(start' + 1);
    SplitAtLast(Decimal(start), Slice(Decimal(start + 1), 2, |Decimal(start + 1)| + 2),
                Decimal(start'), Slice(Decimal(start' + 1), 2, |Decimal(start' + 1)| + 2), '-');
  }

  lemma NoDash(n: nat)
    ensures forall i :: 0 <= i < |Decimal(n)| ==> Decimal(n)[i] != '-'
    ensures AllDigits(Decimal(n)) && Parse(Decimal(n)) == n
  {
    hide Decimal, Parse;
    ParseDecimal(n);
    assert AllDigits(Decimal(n));
  }

  function Ended(d: Desk, kind: Kind, start: nat): nat {
    Last(d, SeriesName(kind, FiscalYear(start)))
  }

  function Other(kind: Kind): Kind {
    if kind == TaxInvoice then CreditNote else TaxInvoice
  }

  /** All documents of this type in this year were printed under the prefix CN. */
  ghost predicate AllCn(d: Desk, kind: Kind, start: nat) {
    forall i :: 0 <= i < |d.invoices| && d.invoices[i].kind == kind && StartYear(d.invoices[i].issuedOn) == start ==>
      NumberedBy(d.invoices[i], "CN")
  }

  /** The year has more documents of the other type than of this one, all of them printed under the prefix CN. */
  ghost predicate Blocked(d: Desk, kind: Kind, start: nat) {
    Ended(d, Other(kind), start) > Ended(d, kind, start) && AllCn(d, Other(kind), start)
  }

  /** Credit notes always are. */
  lemma CreditNotesAreCn(d: Desk, start: nat)
    requires Sound(d)
    ensures AllCn(d, CreditNote, start)
  {
    hide NumberedBy, StartYear, Count, SeriesOf;
    forall i | 0 <= i < |d.invoices| && d.invoices[i].kind == CreditNote
      ensures NumberedBy(d.invoices[i], "CN")
    {
      assert RowSound(d.invoices, i);
    }
  }

  lemma NextIsTaken(d: Desk, row: Invoice)
    requires Sound(d) && NumberedBy(row, "CN") && row.sequence == Last(d, SeriesOf(row)) + 1
    requires Blocked(d, row.kind, StartYear(row.issuedOn))
    ensures Taken(d.invoices, row.number) && |row.number| <= 16
  {
    hide Last, FiscalYear, FormatNumber, StartYear, NumberedBy, Count, SeriesName;
    var start := StartYear(row.issuedOn);
    ExactlyOneEach(d, SeriesName(Other(row.kind), FiscalYear(start)), row.sequence);
    var i :| 0 <= i < |d.invoices| && Bears(d.invoices[i], SeriesName(Other(row.kind), FiscalYear(start)), row.sequence);
    assert RowSound(d.invoices, i);
    SeriesDetermines(d.invoices[i].kind, StartYear(d.invoices[i].issuedOn), Other(row.kind), start);
    SameText(d.invoices[i], row, "CN");
  }

  /** With the prefix CN a document of a blocked type is refused, and, where nothing else goes wrong, because its number is taken. */
  lemma CnPrefixRefused(d: Desk, order: nat, kind: Kind, related: Option<nat>, s: Setting)
    requires Sound(d) && s.prefix == Some("CN") && Blocked(d, kind, StartYear(s.day))
    ensures Issue(d, order, kind, related, s).outcome.Refused?
    ensures !s.documentFails && Ended(d, kind, StartYear(s.day)) < 2_147_483_647 ==>
      Issue(d, order, kind, related, s).outcome == Refused(NumberTaken)
  {
    hide Find, Last, FiscalYear, FormatNumber, StartYear, NumberedBy, Sound, Blocked, SeriesName, Taken;
    RowNumber(d, order, kind, related, s.day, "CN");
    RowFields(d, order, kind, related, s.day, "CN");
    NextIsTaken(d, Row(d, order, kind, related, s.day, "CN"));
  }

  /** Once a type of document is blocked in a year, no run with the prefix CN issues another one of that type and year. */
  lemma {:induction false} CnPrefixStalls(d: Desk, es: seq<(Request, Setting)>, kind: Kind, start: nat)
    requires Sound(d) && Blocked(d, kind, start)
    requires forall k :: 0 <= k < |es| ==> es[k].1.prefix == None || es[k].1.prefix == Some("CN")
    ensures Sound(After(d, es)) && Blocked(After(d, es), kind, start)
    ensures Ended(After(d, es), kind, start) == Ended(d, kind, start)
  {
    hide Sound, Transaction, Ended, Blocked;
    if es != [] {
      var n := |es| - 1;
      CnPrefixStalls(d, es[..n], kind, start);
      TransactionKeeps(After(d, es[..n]), es[n].0, es[n].1);
      StalledStep(After(d, es[..n]), es[n].0, es[n].1, kind, start);
    }
  }

  /** Which document a request asks for. */
  function KindOf(r: Request): Kind {
    if r.ForInvoice? then TaxInvoice else CreditNote
  }

  lemma CommittedRow(d: Desk, r: Request, s: Setting) returns (row: Invoice)
    requires Transaction(d, r, s).desk != d
    ensures s.prefix.Some? && Transaction(d, r, s).desk == Desk(d.sequences[SeriesOf(row) := row.sequence], d.invoices + [row])
    ensures row.kind == KindOf(r) && row.issuedOn == s.day && row.sequence == Last(d, SeriesOf(row)) + 1
    ensures NumberedBy(row, Prefix(row.kind, s.prefix.value)) && !Taken(d.invoices, row.number)
  {
    hide Find, Seen, Last, FiscalYear, FormatNumber, StartYear, SeriesName, NumberedBy, Taken;
    var related := if r.ForInvoice? then None else Find(Seen(d, s), r.order.id, TaxInvoice);
    row := Row(d, r.order.id, KindOf(r), related, s.day, Prefix(KindOf(r), s.prefix.value));
    RowNumber(d, r.order.id, KindOf(r), related, s.day, Prefix(KindOf(r), s.prefix.value));
    RowFields(d, r.order.id, KindOf(r), related, s.day, Prefix(KindOf(r), s.prefix.value));
  }

  lemma StalledStep(d: Desk, r: Request, s: Setting, kind: Kind, start: nat)
    requires Sound(d) && Blocked(d, kind, start) && (s.prefix == None || s.prefix == Some("CN"))
    ensures Blocked(Transaction(d, r, s).desk, kind, start)
    ensures Ended(Transaction(d, r, s).desk, kind, start) == Ended(d, kind, start)
  {
    hide Transaction, Sound, Blocked, Ended;
    if Transaction(d, r, s).desk != d {
      var row := CommittedRow(d, r, s);
      if row.kind == kind && StartYear(row.issuedOn) == start {
        NextIsTaken(d, row);
      }
      assert !(row.kind == kind && StartYear(row.issuedOn) == start);
      StillBlocked(d, row, kind, start);
    }
  }

  lemma StillBlocked(d: Desk, row: Invoice, kind: Kind, start: nat)
    requires Blocked(d, kind, start) && NumberedBy(row, "CN") && row.sequence == Last(d, SeriesOf(row)) + 1
    requires !(row.kind == kind && StartYear(row.issuedOn) == start)
    ensures var after := Desk(d.sequences[SeriesOf(row) := row.sequence], d.invoices + [row]);
      Blocked(after, kind, start) && Ended(after, kind, start) == Ended(d, kind, start)
  {
    hide NumberedBy, StartYear, FiscalYear, SeriesName;
    SeriesDetermines(row.kind, StartYear(row.issuedOn), kind, start);
  }

  lemma RowFields(d: Desk, order: nat, kind: Kind, related: Option<nat>, day: Day, prefix: string)
    ensures var row := Row(d, order, kind, related, day, prefix); row.kind == kind && row.issuedOn == day && row.order == order
  {
  }

  lemma AfterTwo(a: (Request, Setting), b: (Request, Setting))
    ensures After(Fresh, [a, b]) == Transaction(Transaction(Fresh, a.0, a.1).desk, b.0, b.1).desk
  {
    hide Transaction;
    var es := [a, b];
    assert es[..1] == [a] && es[..1][..0] == [];
    assert After(Fresh, es[..1]) == Transaction(After(Fresh, []), a.0, a.1).desk;
  }

  const March := Setting(1, Date(2027, 3, 31), Some("CN"), false, false)
  const April := Setting(1, Date(2027, 4, 1), Some("CN"), false, false)

  /** An order invoiced in one year and refunded in the next is enough: the first invoice of that next year is refused for good. */
  lemma CnPrefixReached(order: nat, other: nat)
    requires order != other
    ensures var paid := Order(order, false, true, OrderGuards.Fulfilled);
      var d := After(Fresh, [(ForInvoice(paid, false), March), (ForCreditNote(paid), April)]);
      && Sound(d) && Blocked(d, TaxInvoice, 2027) && Ended(d, TaxInvoice, 2027) == 0
      && Transaction(d, ForInvoice(Order(other, false, true, OrderGuards.Paid), true), April).outcome == Refused(NumberTaken)
  {
    hide FiscalYear, FormatNumber, SeriesName, Sound, After, Transaction, Issue, Ended, AllCn;
    var paid := Order(order, false, true, OrderGuards.Fulfilled);
    var es := [(ForInvoice(paid, false), March), (ForCreditNote(paid), April)];
    var invoiced := FirstInvoice(order, March);
    var d := FirstCreditNote(order, invoiced, March, April);
    AfterTwo(es[0], es[1]);
    assert d == After(Fresh, es);
    RunsKeep(es);
    CreditNotesAreCn(d, 2027);
    StillRefused(d, other, April);
  }

  lemma StillRefused(d: Desk, other: nat, s: Setting)
    requires Sound(d) && s == April && |d.invoices| == 2 && d.invoices[0].order != other
    requires Blocked(d, TaxInvoice, 2027) && Ended(d, TaxInvoice, 2027) == 0
    ensures Transaction(d, ForInvoice(Order(other, false, true, OrderGuards.Paid), true), s).outcome == Refused(NumberTaken)
  {
    hide Issue, Sound, Ended, Blocked;
    assert StartYear(s.day) == 2027;
    CnPrefixRefused(d, other, TaxInvoice, None, s);
    assert Seen(d, s) == d.invoices[..1];
  }

  /** Sooner still: the credit note of the year's first invoice is refused, and no credit note of that year can follow. */
  lemma CnCreditNoteRefused(order: nat)
    ensures var paid := Order(order, false, true, OrderGuards.Fulfilled);
      var d := After(Fresh, [(ForInvoice(paid, false), March)]);
      && Sound(d) && Blocked(d, CreditNote, 2026)
      && Transaction(d, ForCreditNote(paid), March).outcome == Refused(NumberTaken)
  {
    hide FiscalYear, FormatNumber, SeriesName, Sound, Transaction, Issue;
    var paid := Order(order, false, true, OrderGuards.Fulfilled);
    var es := [(ForInvoice(paid, false), March)];
    var d := FirstInvoice(order, March);
    assert es[..0] == [] && After(Fresh, es[..0]) == Fresh;
    assert d == After(Fresh, es);
    RunsKeep(es);
    SeriesDetermines(TaxInvoice, 2026, CreditNote, 2026);
    hide After;
    FirstNoteRefused(d, order, March);
  }

  lemma FirstNoteRefused(d: Desk, order: nat, s: Setting)
    requires Sound(d) && s == March && Blocked(d, CreditNote, 2026) && Ended(d, CreditNote, 2026) == 0
    requires |d.invoices| == 1 && d.invoices[0].order == order && d.invoices[0].kind == TaxInvoice
    ensures Transaction(d, ForCreditNote(Order(order, false, true, OrderGuards.Fulfilled)), s).outcome == Refused(NumberTaken)
  {
    hide Issue, Sound, Ended, Blocked;
    assert StartYear(s.day) == 2026;
    CnPrefixRefused(d, order, CreditNote, Some(0), s);
    assert Seen(d, s) == d.invoices[..1] == d.invoices;
    assert d.invoices[..0] == [];
  }

  lemma FirstInvoice(order: nat, s: Setting) returns (d: Desk)
    requires s == Setting(1, Date(2027, 3, 31), Some("CN"), false, false)
    ensures d == Transaction(Fresh, ForInvoice(Order(order, false, true, OrderGuards.Fulfilled), false), s).desk
    ensures d == Desk(map[SeriesName(TaxInvoice, FiscalYear(2026)) := 1],
                      [Invoice(order, TaxInvoice, FormatNumber("CN", FiscalYear(2026), 1), 1, s.day, None)])
  {
    hide FiscalYear, FormatNumber, SeriesName;
    d := Transaction(Fresh, ForInvoice(Order(order, false, true, OrderGuards.Fulfilled), false), s).desk;
    RowNumber(Fresh, order, TaxInvoice, None, s.day, "CN");
    ShortNumber(2026);
  }

  lemma FirstCreditNote(order: nat, before: Desk, march: Setting, s: Setting) returns (d: Desk)
    requires s == Setting(1, Date(2027, 4, 1), Some("CN"), false, false) && march.day == Date(2027, 3, 31)
    requires before == Desk(map[SeriesName(TaxInvoice, FiscalYear(2026)) := 1],
                            [Invoice(order, TaxInvoice, FormatNumber("CN", FiscalYear(2026), 1), 1, march.day, None)])
    ensures d == Transaction(before, ForCreditNote(Order(order, false, true, OrderGuards.Fulfilled)), s).desk
    ensures |d.invoices| == 2 && d.invoices[0] == before.invoices[0] && d.invoices[1].kind == CreditNote && d.invoices[1].order == order
    ensures Ended(d, TaxInvoice, 2026) == 1 && Ended(d, CreditNote, 2027) == 1 && Ended(d, TaxInvoice, 2027) == 0
  {
    hide FiscalYear, FormatNumber, SeriesName;
    d := Transaction(before, ForCreditNote(Order(order, false, true, OrderGuards.Fulfilled)), s).desk;
    SeriesDetermines(TaxInvoice, 2026, CreditNote, 2027);
    SeriesDetermines(TaxInvoice, 2026, TaxInvoice, 2027);
    SeriesDetermines(TaxInvoice, 2027, CreditNote, 2027);
    RowNumber(before, order, CreditNote, Some(0), s.day, "CN");
    ShortNumber(2027);
    YearsDiffer(2026, 2027);
    assert Find(before.invoices, order, TaxInvoice) == Some(0);
    assert Find(before.invoices, order, CreditNote) == None;
  }

  lemma ShortNumber(start: nat)
    requires start == 2026 || start == 2027
    ensures |FormatNumber("CN", FiscalYear(start), 1)| <= 16
  {
    NumberLength("CN", start, 1);
    hide FiscalYear, FormatNumber;
  }

  lemma YearsDiffer(a: nat, b: nat)
    requires FourDigits(a) && FourDigits(a + 1) && FourDigits(b) && FourDigits(b + 1) && a % 100 != b % 100
    ensures FormatNumber("CN", FiscalYear(a), 1) != FormatNumber("CN", FiscalYear(b), 1)
  {
    NumbersEqual("CN", a, 1, "CN", b, 1);
    hide FormatNumber, FiscalYear;
  }

  // ------------------------------------------------------------ asking again

  /** A document asked for again is the one already issued, at any later time and by any setting that sees it. */
  lemma AskedAgain(es: seq<(Request, Setting)>, r: Request, s: Setting, more: seq<(Request, Setting)>, again: Request, s': Setting)
    requires again.order.id == r.order.id && (again.ForInvoice? <==> r.ForInvoice?)
    requires !s.rolledBack && Transaction(After(Fresh, es), r, s).outcome.Issued?
    requires s'.seen > |After(Fresh, es).invoices|
    ensures var first := Transaction(After(Fresh, es), r, s);
      var later := After(first.desk, more);
      Transaction(later, again, s') == Result(later, Existing(first.outcome.index))
  {
    hide FiscalYear, FormatNumber, SeriesName, Verdict, Last;
    var d := After(Fresh, es);
    var first := Transaction(d, r, s);
    var later := After(first.desk, more);
    var kind := if r.ForInvoice? then TaxInvoice else CreditNote;
    RunsKeep(es);
    TransactionKeeps(d, r, s);
    RunsKeepFrom(first.desk, more);
    DocumentsStay(first.desk, more);
    var index := first.outcome.index;
    assert index == |d.invoices| && first.desk.invoices[index].order == r.order.id && first.desk.invoices[index].kind == kind by {
      var related := if r.ForInvoice? then None else Find(Seen(d, s), r.order.id, TaxInvoice);
      RowFields(d, r.order.id, kind, related, s.day, Prefix(kind, s.prefix.value));
    }
    assert later.invoices[index] == first.desk.invoices[index];
    var seen := Seen(later, s');
    assert seen[index] == later.invoices[index];
    FindOnly(later, seen, index, kind);
    if r.ForCreditNote? {
      assert RowSound(later.invoices, index);
      var j := later.invoices[index].related.value;
      assert Against(later.invoices, index, j);
      FindOnly(later, seen, j, TaxInvoice);
    }
  }

  lemma {:induction false} RunsKeepFrom(d: Desk, es: seq<(Request, Setting)>)
    requires Sound(d)
    ensures Sound(After(d, es))
  {
    hide Sound, Transaction;
    if es != [] {
      RunsKeepFrom(d, es[..|es| - 1]);
      TransactionKeeps(After(d, es[..|es| - 1]), es[|es| - 1].0, es[|es| - 1].1);
    }
  }

  lemma FindOnly(d: Desk, seen: seq<Invoice>, k: nat, kind: Kind)
    requires OneEach(d.invoices) && |seen| <= |d.invoices| && seen == d.invoices[..|seen|]
    requires k < |seen| && seen[k].kind == kind
    ensures Find(seen, seen[k].order, kind) == Some(k)
  {
    hide Find;
    var found := Find(seen, seen[k].order, kind);
    assert found.Some?;
    assert seen[found.value] == d.invoices[found.value] && seen[k] == d.invoices[k];
  }

  // ------------------------------------------------------------ the tables as a transaction changes them

  class InvoiceTables {
    var sequences: map<string, nat>
    var invoices: seq<Invoice>

    constructor ()
      ensures Value() == Fresh
    {
      sequences := map[];
      invoices := [];
    }

    function Value(): Desk
      reads this
    {
      Desk(sequences, invoices)
    }

    /** Takes the next number of a series; a rollback of the transaction gives it back. */
    method NextSequence(series: string) returns (n: nat)
      modifies this`sequences
      ensures n == Last(old(Value()), series) + 1 && sequences == old(sequences)[series := n]
    {
      if series !in sequences {
        sequences := sequences[series := 1];
      } else {
        sequences := sequences[series := sequences[series] + 1];
      }
      n := sequences[series];
    }

    /** Issues a document, or refuses; a refusal leaves the counter where the failed statement found it. */
    method IssueDocument(order: nat, kind: Kind, related: Option<nat>, s: Setting) returns (outcome: Outcome)
      modifies this
      ensures outcome == Issue(old(Value()), order, kind, related, s).outcome
      ensures !outcome.Refused? ==> Value() == Issue(old(Value()), order, kind, related, s).desk
    {
      if s.prefix.None? {
        return Refused(ProfileIncomplete);
      }
      var fy := FiscalYear(StartYear(s.day));
      var prefix := if kind == TaxInvoice then s.prefix.value else "CN";
      var sequence := NextSequence(SeriesName(kind, fy));
      if sequence > 2_147_483_647 {
        return Refused(OutOfRange);
      }
      if s.documentFails {
        return Refused(DocumentFailed);
      }
      var row := Invoice(order, kind, FormatNumber(prefix, fy, sequence), sequence, s.day, related);
      var verdict := Verdict(invoices, row);
      if verdict.Some? {
        return Refused(verdict.value);
      }
      invoices := invoices + [row];
      outcome := Issued(|invoices| - 1);
      hide Verdict, FiscalYear, FormatNumber, SeriesName;
    }

    method IssueInvoice(order: Order, explicit: bool, s: Setting) returns (outcome: Outcome)
      modifies this
      ensures outcome == Handle(old(Value()), ForInvoice(order, explicit), s).outcome
      ensures !outcome.Refused? ==> Value() == Handle(old(Value()), ForInvoice(order, explicit), s).desk
    {
      var existing := Find(Seen(Value(), s), order.id, TaxInvoice);
      if existing.Some? {
        return Existing(existing.value);
      }
      if order.demo {
        return if explicit then Refused(NotApplicable) else Nothing;
      }
      if !order.gst {
        return if explicit then Refused(NotApplicable) else Nothing;
      }
      if order.status != OrderGuards.Paid && order.status != OrderGuards.Fulfilled {
        return Refused(NotApplicable);
      }
      outcome := IssueDocument(order.id, TaxInvoice, None, s);
      hide Issue, Find;
    }

    method IssueCreditNote(order: Order, s: Setting) returns (outcome: Outcome)
      modifies this
      ensures outcome == Handle(old(Value()), ForCreditNote(order), s).outcome
      ensures !outcome.Refused? ==> Value() == Handle(old(Value()), ForCreditNote(order), s).desk
    {
      var invoice := Find(Seen(Value(), s), order.id, TaxInvoice);
      if invoice.None? {
        return Nothing;
      }
      var existing := Find(Seen(Value(), s), order.id, CreditNote);
      if existing.Some? {
        return Existing(existing.value);
      }
      outcome := IssueDocument(order.id, CreditNote, invoice, s);
      hide Issue, Find;
    }

    /** One transaction: its changes stay only when it neither refuses nor rolls back for another reason. */
    method Transact(r: Request, s: Setting) returns (outcome: Outcome)
      modifies this
      ensures Result(Value(), outcome) == Transaction(old(Value()), r, s)
    {
      var savedSequences, savedInvoices := sequences, invoices;
      match r {
        case ForInvoice(order, explicit) => outcome := IssueInvoice(order, explicit, s);
        case ForCreditNote(order) => outcome := IssueCreditNote(order, s);
      }
      if outcome.Refused? || s.rolledBack {
        sequences, invoices := savedSequences, savedInvoices;
      }
      hide Handle;
    }
  }
}
