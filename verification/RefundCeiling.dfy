/**
 The refund limit under concurrent transactions.

 Every transaction sees the committed rows and its own uncommitted ones, and a statement that needs a lock another transaction holds
 waits, that is, it is not yet enabled.  Locks last until the transaction ends.  Rows are numbered in order of creation.
 */
module RefundCeiling {

  datatype Status = Requested | Pending | Succeeded | Failed | Uncertain

  datatype Refund = Refund(payment: nat, order: nat, amount: int, currency: string, key: string, status: Status)

  type Rows = map<nat, Refund>

  /** amounts: what each payment was for; writes: the uncommitted rows of each open transaction. */
  datatype State = State(
    amounts: map<nat, nat>,
    refunds: Rows,
    bound: nat,
    writes: map<nat, Rows>,
    paymentLock: map<nat, nat>,
    rowLock: map<nat, nat>)

  const Start := State(map[], map[], 0, map[], map[], map[])

  datatype Event =
    | NewPayment(payment: nat, amount: nat)
    | Insert(tx: nat, row: Refund)
    | Update(tx: nat, id: nat, row: Refund)
    | Commit(tx: nat)
    | Abort(tx: nat)

  // ------------------------------------------------------------ the guards

  /** The statuses that count against the payment. */
  predicate Active(r: Refund) {
    r.status != Failed
  }

  /** What row id adds to the refunds of payment p. */
  function Share(m: Rows, id: nat, p: nat): int {
    if id in m && m[id].payment == p && Active(m[id]) then m[id].amount else 0
  }

  function Refunded(m: Rows, p: nat, n: nat): int {
    if n == 0 then 0 else Refunded(m, p, n - 1) + Share(m, n - 1, p)
  }

  function RefundedExcept(m: Rows, p: nat, id: nat, n: nat): int {
    if n == 0 then 0 else RefundedExcept(m, p, id, n - 1) + (if n - 1 == id then 0 else Share(m, n - 1, p))
  }

  function View(s: State, t: nat): Rows {
    if t in s.writes then s.refunds + s.writes[t] else s.refunds
  }

  /** The cumulative guard, run before the row is written: other active refunds of the payment plus this one stay within the amount. */
  predicate CumulativeGuard(s: State, t: nat, id: nat, row: Refund) {
    Active(row) && row.payment in s.amounts ==>
      RefundedExcept(View(s, t), row.payment, id, s.bound) + row.amount <= s.amounts[row.payment]
  }

  /** The cumulative guard as the trigger runs it, over the rows its transaction sees. */
  method RunCumulativeGuard(s: State, t: nat, id: nat, row: Refund) returns (ok: bool)
    ensures ok <==> (row.status != Failed && row.payment in s.amounts ==>
      Refunded(View(s, t), row.payment, s.bound) - (if id < s.bound then Share(View(s, t), id, row.payment) else 0) + row.amount
      <= s.amounts[row.payment])
    ensures ok == CumulativeGuard(s, t, id, row)
  {
    if id < s.bound {
      ExceptWithin(View(s, t), row.payment, id, s.bound);
    } else {
      ExceptBeyond(View(s, t), row.payment, id, s.bound);
    }
    if !Active(row) || row.payment !in s.amounts {
      return true;
    }
    var rows, committed := View(s, t), 0;
    for n := 0 to s.bound
      invariant committed == RefundedExcept(rows, row.payment, id, n)
    {
      if n != id && n in rows && rows[n].payment == row.payment && Active(rows[n]) {
        committed := committed + rows[n].amount;
      }
    }
    ok := committed + row.amount <= s.amounts[row.payment];
  }

  /** The update guard: what a refund is for is fixed, and a succeeded or failed one keeps its status. */
  predicate UpdateGuard(before: Refund, after: Refund) {
    && after.(status := before.status) == before
    && (before.status == Succeeded || before.status == Failed ==> after.status == before.status)
  }

  /** Checks and foreign key of the table. */
  predicate RowChecks(s: State, row: Refund) {
    row.amount > 0 && row.payment in s.amounts
  }

  // ------------------------------------------------------------ the steps

  predicate Free(locks: map<nat, nat>, x: nat, t: nat) {
    x !in locks || locks[x] == t
  }

  /** A statement on an active row waits for the payment's lock; an update waits for the row's lock. */
  predicate Enabled(s: State, e: Event) {
    match e
    case NewPayment(p, amount) => p !in s.amounts && amount > 0
    case Insert(t, row) => Active(row) ==> Free(s.paymentLock, row.payment, t)
    case Update(t, id, row) => id in View(s, t) && Free(s.rowLock, id, t) && (Active(row) ==> Free(s.paymentLock, row.payment, t))
    case Commit(t) => true
    case Abort(t) => true
  }

  function Own(s: State, t: nat): Rows {
    if t in s.writes then s.writes[t] else map[]
  }

  function Write(s: State, t: nat, id: nat, row: Refund): State {
    s.(writes := s.writes[t := Own(s, t)[id := row]],
       rowLock := s.rowLock[id := t],
       paymentLock := if Active(row) then s.paymentLock[row.payment := t] else s.paymentLock)
  }

  function Release(locks: map<nat, nat>, t: nat): map<nat, nat> {
    map x | x in locks && locks[x] != t :: locks[x]
  }

  function End(s: State, t: nat, refunds: Rows): State {
    s.(refunds := refunds, writes := s.writes - {t}, paymentLock := Release(s.paymentLock, t), rowLock := Release(s.rowLock, t))
  }

  /** A refused statement leaves the state as it is. */
  function Apply(s: State, e: Event): State
    requires Enabled(s, e)
  {
    match e
    case NewPayment(p, amount) => s.(amounts := s.amounts[p := amount])
    case Insert(t, row) =>
      if RowChecks(s, row) && CumulativeGuard(s, t, s.bound, row) then Write(s, t, s.bound, row).(bound := s.bound + 1) else s
    case Update(t, id, row) =>
      if RowChecks(s, row) && CumulativeGuard(s, t, id, row) && UpdateGuard(View(s, t)[id], row) then Write(s, t, id, row) else s
    case Commit(t) => End(s, t, View(s, t))
    case Abort(t) => End(s, t, s.refunds)
  }

  // ------------------------------------------------------------ sums of shares

  lemma {:induction false} SmallerShares(a: Rows, b: Rows, p: nat, n: nat)
    requires forall id :: 0 <= id < n ==> Share(a, id, p) <= Share(b, id, p)
    ensures Refunded(a, p, n) <= Refunded(b, p, n)
  {
    if n > 0 {
      SmallerShares(a, b, p, n - 1);
    }
  }

  lemma {:induction false} WithRow(m: Rows, p: nat, id: nat, row: Refund, n: nat)
    ensures Refunded(m[id := row], p, n)
         == RefundedExcept(m, p, id, n) + (if id < n then Share(m[id := row], id, p) else 0)
  {
    if n > 0 {
      WithRow(m, p, id, row, n - 1);
    }
  }

  // ------------------------------------------------------------ the invariant

  ghost predicate RowsGood(s: State) {
    && (forall id :: id in s.refunds ==> id < s.bound && s.refunds[id].amount > 0 && s.refunds[id].payment in s.amounts)
    && (forall t, id :: t in s.writes && id in s.writes[t] ==>
      id < s.bound && s.writes[t][id].amount > 0 && s.writes[t][id].payment in s.amounts)
  }

  /** A pending row is locked by its transaction, for the payment its committed version has, and an active one holds the payment's lock. */
  ghost predicate LocksGood(s: State) {
    forall t, id :: t in s.writes && id in s.writes[t] ==> WriteGood(s, t, id, s.writes[t][id])
  }

  predicate WriteGood(s: State, t: nat, id: nat, row: Refund) {
    && id in s.rowLock && s.rowLock[id] == t
    && (id in s.refunds ==> UpdateGuard(s.refunds[id], row))
    && (Active(row) ==> row.payment in s.paymentLock && s.paymentLock[row.payment] == t)
  }

  /** The committed refunds of a payment stay within it, and so do the ones its lock holder sees. */
  ghost predicate WithinAmounts(s: State) {
    && (forall p :: p in s.amounts ==> Refunded(s.refunds, p, s.bound) <= s.amounts[p])
    && (forall p :: p in s.amounts && p in s.paymentLock ==> Refunded(View(s, s.paymentLock[p]), p, s.bound) <= s.amounts[p])
    && (forall p :: p in s.paymentLock ==> p in s.amounts)
  }

  ghost predicate Inv(s: State) {
    RowsGood(s) && LocksGood(s) && WithinAmounts(s)
  }

  /** A transaction that does not hold a payment's lock can only have lowered its refunds. */
  lemma OutsidersOnlyLower(s: State, t: nat, p: nat)
    requires Inv(s) && (p !in s.paymentLock || s.paymentLock[p] != t)
    ensures forall id :: 0 <= id < s.bound ==> Share(View(s, t), id, p) <= Share(s.refunds, id, p)
    ensures Refunded(View(s, t), p, s.bound) <= Refunded(s.refunds, p, s.bound)
  {
    SmallerShares(View(s, t), s.refunds, p, s.bound);
  }

  lemma NoSharesOf(m: Rows, p: nat, n: nat)
    requires forall id :: id in m ==> m[id].payment != p
    ensures Refunded(m, p, n) == 0
  {
  }

  lemma NewPaymentKeeps(s: State, p: nat, amount: nat)
    requires Inv(s) && p !in s.amounts && amount > 0
    ensures Inv(s.(amounts := s.amounts[p := amount]))
  {
    NoSharesOf(s.refunds, p, s.bound);
  }

  /** A statement that may write row id now: a new row at the end, or one the transaction sees, with the locks it needs. */
  predicate Writable(s: State, t: nat, id: nat, row: Refund, bound: nat) {
    && RowChecks(s, row) && CumulativeGuard(s, t, id, row)
    && (Active(row) ==> Free(s.paymentLock, row.payment, t))
    && (if id == s.bound then bound == s.bound + 1
        else bound == s.bound && id in View(s, t) && Free(s.rowLock, id, t) && UpdateGuard(View(s, t)[id], row))
  }

  /** A guarded write: the writer's own view stays within every payment it has locked. */
  lemma WriteKeeps(s: State, t: nat, id: nat, row: Refund, bound: nat)
    requires Inv(s) && Writable(s, t, id, row, bound)
    ensures Inv(Write(s, t, id, row).(bound := bound))
  {
    var s' := Write(s, t, id, row).(bound := bound);
    WriteKeepsRows(s, t, id, row, bound);
    WriteKeepsLocks(s, t, id, row, bound);
    assert forall p :: p in s.amounts ==> Share(s.refunds, s.bound, p) == 0;
    forall p | p in s'.amounts && p in s'.paymentLock ensures Refunded(View(s', s'.paymentLock[p]), p, bound) <= s'.amounts[p] {
      if s'.paymentLock[p] == t {
        OwnViewKept(s, t, id, row, bound, p);
      } else {
        OtherViewKept(s, t, id, row, bound, p);
      }
    }
  }

  lemma WriteKeepsRows(s: State, t: nat, id: nat, row: Refund, bound: nat)
    requires Inv(s) && Writable(s, t, id, row, bound)
    ensures RowsGood(Write(s, t, id, row).(bound := bound))
  {
    hide LocksGood, WithinAmounts, CumulativeGuard;
  }

  lemma WrittenGood(s: State, t: nat, id: nat, row: Refund, bound: nat)
    requires Inv(s) && Writable(s, t, id, row, bound)
    ensures WriteGood(Write(s, t, id, row).(bound := bound), t, id, row)
  {
    hide WithinAmounts, CumulativeGuard, Refunded, RefundedExcept;
    assert t in s.writes && id in s.writes[t] ==> WriteGood(s, t, id, s.writes[t][id]);
  }

  lemma OtherWriteGood(s: State, t: nat, id: nat, row: Refund, bound: nat, u: nat, x: nat)
    requires RowsGood(s) && LocksGood(s) && Writable(s, t, id, row, bound)
    requires u in s.writes && x in s.writes[u] && (u != t || x != id)
    ensures WriteGood(Write(s, t, id, row).(bound := bound), u, x, s.writes[u][x])
  {
    hide CumulativeGuard, UpdateGuard;
    assert WriteGood(s, u, x, s.writes[u][x]);
    hide LocksGood;
  }

  lemma WriteKeepsLocks(s: State, t: nat, id: nat, row: Refund, bound: nat)
    requires Inv(s) && Writable(s, t, id, row, bound)
    ensures LocksGood(Write(s, t, id, row).(bound := bound))
  {
    hide RowsGood, WithinAmounts, WriteGood, Writable;
    var s' := Write(s, t, id, row).(bound := bound);
    forall u, x | u in s'.writes && x in s'.writes[u] ensures WriteGood(s', u, x, s'.writes[u][x]) {
      if u == t && x == id {
        WrittenGood(s, t, id, row, bound);
      } else {
        OtherWriteGood(s, t, id, row, bound, u, x);
      }
    }
  }

  lemma OwnViewWritten(s: State, t: nat, id: nat, row: Refund)
    ensures View(Write(s, t, id, row), t) == View(s, t)[id := row]
  {
  }

  lemma OwnRows(s: State, t: nat, id: nat, row: Refund, bound: nat)
    requires Inv(s) && Writable(s, t, id, row, bound)
    ensures id in View(s, t) ==> View(s, t)[id].amount > 0
    ensures s.bound !in View(s, t) && id < bound && s.bound <= bound <= s.bound + 1
    ensures bound == s.bound + 1 ==> id == s.bound
  {
    hide LocksGood, WithinAmounts, CumulativeGuard, UpdateGuard;
  }

  /** The sum a writer sees afterwards: all other rows, and the written one. */
  lemma WrittenSum(m: Rows, p: nat, id: nat, row: Refund, bound: nat, bound': nat)
    requires id < bound' && bound <= bound' <= bound + 1 && (bound' == bound + 1 ==> id == bound)
    ensures Refunded(m[id := row], p, bound')
         == RefundedExcept(m, p, id, bound) + if p == row.payment && Active(row) then row.amount else 0
  {
    WithRow(m, p, id, row, bound');
    assert RefundedExcept(m, p, id, bound') == RefundedExcept(m, p, id, bound);
  }

  lemma OwnViewKept(s: State, t: nat, id: nat, row: Refund, bound: nat, p: nat)
    requires Inv(s) && Writable(s, t, id, row, bound)
    requires p in s.amounts && ((p in s.paymentLock && s.paymentLock[p] == t) || (Active(row) && p == row.payment))
    ensures Refunded(View(Write(s, t, id, row), t), p, bound) <= s.amounts[p]
  {
    OwnViewWritten(s, t, id, row);
    OwnRows(s, t, id, row, bound);
    WrittenSum(View(s, t), p, id, row, s.bound, bound);
    ExceptIsLess(View(s, t), p, id, s.bound);
    hide View, Write, RowsGood, LocksGood, UpdateGuard, RowChecks, Refunded, RefundedExcept;
  }

  lemma {:induction false} ExceptIsLess(m: Rows, p: nat, id: nat, n: nat)
    requires id in m ==> m[id].amount > 0
    ensures RefundedExcept(m, p, id, n) <= Refunded(m, p, n)
  {
    if n > 0 {
      ExceptIsLess(m, p, id, n - 1);
    }
  }

  lemma OtherViewKept(s: State, t: nat, id: nat, row: Refund, bound: nat, p: nat)
    requires Inv(s) && Writable(s, t, id, row, bound)
    requires p in s.amounts && p in Write(s, t, id, row).paymentLock && Write(s, t, id, row).paymentLock[p] != t
    ensures var u := Write(s, t, id, row).paymentLock[p]; Refunded(View(Write(s, t, id, row), u), p, bound) <= s.amounts[p]
  {
    var u := Write(s, t, id, row).paymentLock[p];
    hide CumulativeGuard, UpdateGuard;
    assert p in s.paymentLock && s.paymentLock[p] == u;
    assert View(Write(s, t, id, row), u) == View(s, u);
    assert s.bound !in View(s, u);
  }

  lemma CommitKeeps(s: State, t: nat)
    requires Inv(s)
    ensures Inv(End(s, t, View(s, t)))
  {
    var s' := End(s, t, View(s, t));
    forall p | p in s.amounts ensures Refunded(s'.refunds, p, s.bound) <= s.amounts[p] {
      if p !in s.paymentLock || s.paymentLock[p] != t {
        OutsidersOnlyLower(s, t, p);
      }
    }
    forall p | p in s.amounts && p in s'.paymentLock ensures Refunded(View(s', s'.paymentLock[p]), p, s.bound) <= s.amounts[p] {
      CommitLowersOthers(s, t, p);
    }
    EndKeepsLocks(s, t, View(s, t));
  }

  /** Row id as transaction u sees it after t has committed: its own version, or what t saw. */
  lemma SeenAfterCommit(s: State, t: nat, u: nat, id: nat, p: nat)
    requires u != t
    ensures var after := View(End(s, t, View(s, t)), u);
      Share(after, id, p) == if u in s.writes && id in s.writes[u] then Share(View(s, u), id, p) else Share(View(s, t), id, p)
    ensures !(u in s.writes && id in s.writes[u]) ==> Share(View(s, u), id, p) == Share(s.refunds, id, p)
  {
    hide Release;
  }

  /** A lock holder that sees another transaction's commit sees its payment's refunds unchanged or lowered. */
  lemma CommitLowersOthers(s: State, t: nat, p: nat)
    requires Inv(s) && p in s.amounts && p in s.paymentLock && s.paymentLock[p] != t
    ensures var u := s.paymentLock[p]; Refunded(View(End(s, t, View(s, t)), u), p, s.bound) <= s.amounts[p]
  {
    var u := s.paymentLock[p];
    var after := View(End(s, t, View(s, t)), u);
    OutsidersOnlyLower(s, t, p);
    forall id | 0 <= id < s.bound
      ensures Share(after, id, p) <= Share(View(s, u), id, p)
    {
      SeenAfterCommit(s, t, u, id, p);
    }
    SmallerShares(after, View(s, u), p, s.bound);
    hide Share, View, End, Refunded, RowsGood, LocksGood;
  }

  lemma EndKeepsLocks(s: State, t: nat, refunds: Rows)
    requires Inv(s) && (refunds == s.refunds || refunds == View(s, t))
    ensures RowsGood(End(s, t, refunds)) && LocksGood(End(s, t, refunds))
  {
    hide WithinAmounts;
    var s' := End(s, t, refunds);
    forall u, x | u in s'.writes && x in s'.writes[u] ensures WriteGood(s', u, x, s'.writes[u][x]) {
      assert WriteGood(s, u, x, s.writes[u][x]) && u != t;
      assert t in s.writes && x in s.writes[t] ==> WriteGood(s, t, x, s.writes[t][x]);
    }
    hide LocksGood, WriteGood;
  }

  lemma AbortKeeps(s: State, t: nat)
    requires Inv(s)
    ensures Inv(End(s, t, s.refunds))
  {
    var s' := End(s, t, s.refunds);
    forall p | p in s.amounts && p in s'.paymentLock ensures Refunded(View(s', s'.paymentLock[p]), p, s.bound) <= s.amounts[p] {
      assert View(s', s'.paymentLock[p]) == View(s, s.paymentLock[p]);
    }
    EndKeepsLocks(s, t, s.refunds);
  }

  lemma SeenIsBelow(s: State, t: nat, id: nat)
    requires Inv(s) && id in View(s, t)
    ensures id < s.bound
  {
  }

  lemma StepKeeps(s: State, e: Event)
    requires Inv(s) && Enabled(s, e)
    ensures Inv(Apply(s, e))
  {
    hide Inv;
    match e
    case NewPayment(p, amount) => NewPaymentKeeps(s, p, amount);
    case Insert(t, row) =>
      if Apply(s, e) != s {
        WriteKeeps(s, t, s.bound, row, s.bound + 1);
      }
    case Update(t, id, row) =>
      if Apply(s, e) != s {
        SeenIsBelow(s, t, id);
        WriteKeeps(s, t, id, row, s.bound);
      }
    case Commit(t) => CommitKeeps(s, t);
    case Abort(t) => AbortKeeps(s, t);
  }

  // ------------------------------------------------------------ runs

  predicate IsRun(es: seq<Event>)
    decreases |es|, 0
  {
    es == [] || (IsRun(es[..|es| - 1]) && Enabled(After(es[..|es| - 1]), es[|es| - 1]))
  }

  function After(es: seq<Event>): State
    requires IsRun(es)
    decreases |es|, 1
  {
    if es == [] then Start else Apply(After(es[..|es| - 1]), es[|es| - 1])
  }

  lemma {:induction false} RunsKeep(es: seq<Event>)
    requires IsRun(es)
    ensures Inv(After(es))
  {
    hide Apply, Enabled;
    if es != [] {
      RunsKeep(es[..|es| - 1]);
      StepKeeps(After(es[..|es| - 1]), es[|es| - 1]);
    }
  }

  /** The ceiling: however transactions interleave, the committed active refunds of a payment never exceed its amount. */
  lemma RefundsWithinPayment(es: seq<Event>, p: nat)
    requires IsRun(es) && p in After(es).amounts
    ensures Refunded(After(es).refunds, p, After(es).bound) <= After(es).amounts[p]
  {
    hide Apply, Enabled;
    RunsKeep(es);
  }

  /** A new payment is what it was announced as, and a payment's amount never changes once it exists. */
  lemma AmountIsFixed(s: State, e: Event, p: nat)
    requires Enabled(s, e)
    ensures p in s.amounts ==> p in Apply(s, e).amounts && Apply(s, e).amounts[p] == s.amounts[p]
    ensures p !in s.amounts ==> (p in Apply(s, e).amounts <==> e.NewPayment? && e.payment == p)
    ensures e == NewPayment(p, if e.NewPayment? then e.amount else 0) ==>
      p in Apply(s, e).amounts && Apply(s, e).amounts[p] == e.amount && Apply(s, e) == s.(amounts := Apply(s, e).amounts)
  {
  }

  /** What a committed refund is for never changes, and once succeeded or failed it keeps its status, through any commit. */
  lemma CommittedRefundsAreFixed(es: seq<Event>, e: Event, id: nat)
    requires IsRun(es) && Enabled(After(es), e) && id in After(es).refunds
    ensures id in Apply(After(es), e).refunds && UpdateGuard(After(es).refunds[id], Apply(After(es), e).refunds[id])
  {
    var s := After(es);
    RunsKeep(es);
    hide After, IsRun, RowsGood, WithinAmounts;
    if e.Commit? && e.tx in s.writes && id in s.writes[e.tx] {
      assert WriteGood(s, e.tx, id, s.writes[e.tx][id]);
    }
  }

  // ------------------------------------------------------------ what exactly is accepted

  /** The rows a transaction sees: its own versions over the committed ones. */
  lemma SeenRows(s: State, t: nat, id: nat)
    ensures id in View(s, t) <==> id in s.refunds || (t in s.writes && id in s.writes[t])
    ensures id in View(s, t) ==> View(s, t)[id] == if t in s.writes && id in s.writes[t] then s.writes[t][id] else s.refunds[id]
  {
  }

  /** A new refund has a positive amount and a payment, and unless it has failed it fits beside the refunds its transaction sees. */
  predicate Fits(s: State, t: nat, row: Refund) {
    && row.amount > 0 && row.payment in s.amounts
    && (row.status == Failed || Refunded(View(s, t), row.payment, s.bound) + row.amount <= s.amounts[row.payment])
  }

  lemma {:induction false} ExceptBeyond(m: Rows, p: nat, id: nat, n: nat)
    requires n <= id
    ensures RefundedExcept(m, p, id, n) == Refunded(m, p, n)
  {
    if n > 0 {
      ExceptBeyond(m, p, id, n - 1);
    }
  }

  lemma {:induction false} ExceptWithin(m: Rows, p: nat, id: nat, n: nat)
    requires id < n
    ensures RefundedExcept(m, p, id, n) == Refunded(m, p, n) - Share(m, id, p)
  {
    if id == n - 1 {
      ExceptBeyond(m, p, id, n - 1);
    } else {
      ExceptWithin(m, p, id, n - 1);
    }
  }

  /** An insert whose locks are free is written exactly when it fits; otherwise nothing changes. */
  lemma InsertExactly(s: State, t: nat, row: Refund)
    requires Enabled(s, Insert(t, row))
    ensures var s' := Apply(s, Insert(t, row));
      if Fits(s, t, row) then
        && s'.bound == s.bound + 1 && t in s'.writes && s.bound in s'.writes[t] && s'.writes[t][s.bound] == row
        && s'.writes == s.writes[t := s'.writes[t]] && s'.refunds == s.refunds && s'.amounts == s.amounts
        && forall id :: id in s'.writes[t] && id != s.bound ==> t in s.writes && id in s.writes[t] && s'.writes[t][id] == s.writes[t][id]
      else s' == s
  {
    if row.payment in s.amounts {
      ExceptBeyond(View(s, t), row.payment, s.bound, s.bound);
    }
    hide View, Refunded, RefundedExcept, Share;
  }

  /** While nothing of a payment is refunded, a refund of all of it is accepted. */
  lemma FullRefundAccepted(s: State, t: nat, row: Refund)
    requires row.payment in s.amounts && Refunded(View(s, t), row.payment, s.bound) == 0
    requires 0 < row.amount <= s.amounts[row.payment]
    requires Enabled(s, Insert(t, row))
    ensures s.bound in View(Apply(s, Insert(t, row)), t) && View(Apply(s, Insert(t, row)), t)[s.bound] == row
  {
    InsertExactly(s, t, row);
    SeenRows(Apply(s, Insert(t, row)), t, s.bound);
    hide View, Apply, Refunded, Enabled;
  }

  /** Field by field: only the status differs, and it does not leave an end. */
  predicate MayBecome(before: Refund, after: Refund) {
    && after.payment == before.payment && after.order == before.order && after.amount == before.amount
    && after.currency == before.currency && after.key == before.key
    && (before.status == Succeeded ==> after.status == Succeeded) && (before.status == Failed ==> after.status == Failed)
  }

  /** What a transaction sees of a payment's refunds never exceeds its amount. */
  lemma ViewWithin(s: State, t: nat, p: nat)
    requires Inv(s) && p in s.amounts
    ensures Refunded(View(s, t), p, s.bound) <= s.amounts[p]
  {
    if p !in s.paymentLock || s.paymentLock[p] != t {
      OutsidersOnlyLower(s, t, p);
    }
  }

  lemma SeenSound(s: State, t: nat, id: nat)
    requires Inv(s) && id in View(s, t)
    ensures id < s.bound && View(s, t)[id].amount > 0 && View(s, t)[id].payment in s.amounts
  {
    hide LocksGood, WithinAmounts;
  }

  /** An update whose locks are free is written exactly when only the status differs and does not leave an end: the limit never refuses one. */
  lemma UpdateExactly(s: State, t: nat, id: nat, row: Refund)
    requires Inv(s) && Enabled(s, Update(t, id, row))
    ensures var s' := Apply(s, Update(t, id, row));
      if MayBecome(View(s, t)[id], row) then
        && s'.bound == s.bound && t in s'.writes && id in s'.writes[t] && s'.writes[t][id] == row
        && s'.writes == s.writes[t := s'.writes[t]] && s'.refunds == s.refunds && s'.amounts == s.amounts
        && forall x :: x in s'.writes[t] && x != id ==> t in s.writes && x in s.writes[t] && s'.writes[t][x] == s.writes[t][x]
      else s' == s
  {
    hide View, Inv, CumulativeGuard, UpdateGuard, RowChecks, MayBecome;
    UpdatePasses(s, t, id, row);
  }

  /** An update passes its checks and guards exactly when only the status differs and does not leave an end. */
  lemma UpdatePasses(s: State, t: nat, id: nat, row: Refund)
    requires Inv(s) && id in View(s, t)
    ensures RowChecks(s, row) && CumulativeGuard(s, t, id, row) && UpdateGuard(View(s, t)[id], row) <==> MayBecome(View(s, t)[id], row)
  {
    hide View, Refunded, RefundedExcept, Inv;
    SeenSound(s, t, id);
    if MayBecome(View(s, t)[id], row) {
      ViewWithin(s, t, row.payment);
      ExceptWithin(View(s, t), row.payment, id, s.bound);
    }
  }

  /** A commit makes the transaction's rows the committed ones, an abort forgets them; either gives back its locks and touches nobody else. */
  lemma EndsExactly(s: State, t: nat, e: Event)
    requires e == Commit(t) || e == Abort(t)
    ensures var s' := Apply(s, e);
      && (forall id :: id in s'.refunds <==> id in s.refunds || (e.Commit? && t in s.writes && id in s.writes[t]))
      && (forall id :: id in s'.refunds ==>
        s'.refunds[id] == if e.Commit? && t in s.writes && id in s.writes[t] then s.writes[t][id] else s.refunds[id])
      && t !in s'.writes && (forall u :: u != t ==> (u in s'.writes <==> u in s.writes) && (u in s.writes ==> s'.writes[u] == s.writes[u]))
      && (forall p :: p in s'.paymentLock <==> p in s.paymentLock && s.paymentLock[p] != t)
      && (forall p :: p in s'.paymentLock ==> s'.paymentLock[p] == s.paymentLock[p])
      && (forall id :: id in s'.rowLock <==> id in s.rowLock && s.rowLock[id] != t)
      && (forall id :: id in s'.rowLock ==> s'.rowLock[id] == s.rowLock[id])
      && s'.amounts == s.amounts && s'.bound == s.bound
  {
  }

  // ------------------------------------------------------------ who waits for whom

  /** The event is transaction t writing a refund of payment p that has not failed, and is accepted. */
  predicate WritesActive(s: State, e: Event, t: nat, p: nat) {
    || (e.Insert? && e.tx == t && e.row.payment == p && e.row.status != Failed && Fits(s, t, e.row))
    || (e.Update? && e.tx == t && e.row.payment == p && e.row.status != Failed && e.id in View(s, t) && MayBecome(View(s, t)[e.id], e.row))
  }

  predicate HasLock(s: State, p: nat, t: nat) {
    p in s.paymentLock && s.paymentLock[p] == t
  }

  lemma LockStep(s: State, e: Event, p: nat, t: nat)
    requires Inv(s) && Enabled(s, e)
    ensures HasLock(Apply(s, e), p, t) <==> WritesActive(s, e, t, p) || (HasLock(s, p, t) && !Ends(e, t))
  {
    hide View, Refunded, RefundedExcept, RowsGood, LocksGood, WithinAmounts, CumulativeGuard;
    match e
    case NewPayment(_, _) =>
    case Insert(u, row) => InsertLocks(s, u, row, p, t);
    case Update(u, id, row) => UpdateLocks(s, u, id, row, p, t);
    case Commit(u) => EndsExactly(s, u, e);
    case Abort(u) => EndsExactly(s, u, e);
  }

  lemma InsertLocks(s: State, u: nat, row: Refund, p: nat, t: nat)
    requires Enabled(s, Insert(u, row))
    ensures HasLock(Apply(s, Insert(u, row)), p, t) <==> WritesActive(s, Insert(u, row), t, p) || HasLock(s, p, t)
  {
    InsertExactly(s, u, row);
    hide View, Refunded, RefundedExcept, CumulativeGuard;
  }

  lemma UpdateLocks(s: State, u: nat, id: nat, row: Refund, p: nat, t: nat)
    requires Inv(s) && Enabled(s, Update(u, id, row))
    ensures HasLock(Apply(s, Update(u, id, row)), p, t) <==> WritesActive(s, Update(u, id, row), t, p) || HasLock(s, p, t)
  {
    UpdateExactly(s, u, id, row);
    hide View, Refunded, RefundedExcept, CumulativeGuard, Inv;
  }

  predicate Ends(e: Event, t: nat) {
    e == Commit(t) || e == Abort(t)
  }

  /** Transaction t wrote a refund of payment p that has not failed, and has not ended since. */
  ghost predicate LockedSince(es: seq<Event>, k: nat, p: nat, t: nat) {
    && k < |es| && IsRun(es[..k]) && WritesActive(After(es[..k]), es[k], t, p)
    && forall e :: e in es[k + 1..] ==> !Ends(e, t)
  }

  ghost predicate Locked(es: seq<Event>, p: nat, t: nat) {
    exists k: nat :: LockedSince(es, k, p, t)
  }

  lemma LockedOn(front: seq<Event>, e: Event, k: nat, p: nat, t: nat)
    requires k < |front|
    ensures LockedSince(front + [e], k, p, t) <==> LockedSince(front, k, p, t) && !Ends(e, t)
  {
    hide IsRun, After, WritesActive, Ends;
    var es := front + [e];
    assert es[..k] == front[..k] && es[k + 1..] == front[k + 1..] + [e];
    assert es[k + 1..][|front| - k - 1] == e;
  }

  lemma LockedNow(front: seq<Event>, e: Event, p: nat, t: nat)
    requires IsRun(front)
    ensures LockedSince(front + [e], |front|, p, t) <==> WritesActive(After(front), e, t, p)
  {
    hide IsRun, After, WritesActive;
    assert (front + [e])[..|front|] == front && (front + [e])[|front| + 1..] == [];
  }

  lemma LockedMore(front: seq<Event>, e: Event, p: nat, t: nat)
    requires IsRun(front)
    ensures Locked(front + [e], p, t) <==> WritesActive(After(front), e, t, p) || (Locked(front, p, t) && !Ends(e, t))
  {
    hide IsRun, After, WritesActive, Ends;
    LockedNow(front, e, p, t);
    forall k: nat | k < |front|
      ensures LockedSince(front + [e], k, p, t) <==> LockedSince(front, k, p, t) && !Ends(e, t)
    {
      LockedOn(front, e, k, p, t);
    }
    hide LockedSince;
    if Locked(front + [e], p, t) {
      var k: nat :| LockedSince(front + [e], k, p, t);
      assert k <= |front| by { LockedIndex(front + [e], k, p, t); }
    }
    if Locked(front, p, t) {
      var k: nat :| LockedSince(front, k, p, t);
      assert k < |front| by { LockedIndex(front, k, p, t); }
    }
  }

  lemma LockedIndex(es: seq<Event>, k: nat, p: nat, t: nat)
    requires LockedSince(es, k, p, t)
    ensures k < |es|
  {
  }

  /** Over any run a payment is locked by exactly the transaction that has written an active refund of it and not ended since. */
  lemma {:induction false} LockedExactly(es: seq<Event>, p: nat, t: nat)
    requires IsRun(es)
    ensures HasLock(After(es), p, t) <==> Locked(es, p, t)
  {
    hide Apply, Enabled, WritesActive;
    if es != [] {
      var n := |es| - 1;
      LockedExactly(es[..n], p, t);
      RunsKeep(es[..n]);
      LockStep(After(es[..n]), es[n], p, t);
      assert es == es[..n] + [es[n]];
      LockedMore(es[..n], es[n], p, t);
      hide Locked, HasLock, Inv;
    }
  }

  /** Over any run an insert waits exactly while it is active and another transaction has written an active refund of its payment. */
  lemma InsertWaitsExactly(es: seq<Event>, t: nat, row: Refund)
    requires IsRun(es)
    ensures Enabled(After(es), Insert(t, row)) <==> row.status == Failed || forall u :: u != t ==> !Locked(es, row.payment, u)
  {
    hide IsRun, After, Locked;
    forall u
      ensures HasLock(After(es), row.payment, u) <==> Locked(es, row.payment, u)
    {
      LockedExactly(es, row.payment, u);
    }
    var s := After(es);
    if row.payment in s.paymentLock && s.paymentLock[row.payment] != t {
      assert HasLock(s, row.payment, s.paymentLock[row.payment]);
    }
  }
}
