/**
 The order tables behind their guards: the order lifecycle, refunds, and restock events of order items.

 Each statement either passes every guard and check or is refused and changes nothing.  Deletes and direct writes to
 restocked_quantity are not statements of this model.
 */
module OrderGuards {
  import opened RefundCeiling
  import opened Options
  import opened Sets

  datatype OrderStatus = Waiting | Paid | Fulfilled | Cancelled | Refunded
  datatype Order = Order(status: OrderStatus, stockReleasedAt: Option<nat>, coupon: Option<nat>, currency: Option<string>)

  datatype PaymentStatus = PaymentPending | PaymentSucceeded | PaymentFailed | PaymentRefunded
  datatype Payment = Payment(order: nat, amount: nat, currency: string, status: PaymentStatus)

  datatype Item = Item(order: nat, quantity: nat, restocked: nat)
  datatype Restock = Restock(item: nat, eventKey: string, quantity: nat)

  datatype Db = Db(orders: map<nat, Order>, payments: map<nat, Payment>, refunds: map<nat, Refund>, items: map<nat, Item>, restocks: seq<Restock>)

  const Empty := Db(map[], map[], map[], map[], [])

  datatype Statement =
    | InsertOrder(id: nat, coupon: Option<nat>, currency: Option<string>)
    | UpdateOrder(id: nat, after: Order)
    | InsertPayment(id: nat, payment: Payment)
    | UpdatePayment(id: nat, payment: Payment)
    | InsertRefund(id: nat, refund: Refund)
    | UpdateRefund(id: nat, refund: Refund)
    | InsertItem(id: nat, order: nat, quantity: nat)
    | InsertRestock(restock: Restock)

  // ------------------------------------------------------------ the guards

  /** The moves an order's status may make. */
  predicate Moves(a: OrderStatus, b: OrderStatus) {
    || (a == Waiting && (b == Paid || b == Cancelled))
    || (a == Paid && (b == Fulfilled || b == Refunded))
    || (a == Fulfilled && b == Refunded)
  }

  predicate HasSucceededPayment(db: Db, order: nat) {
    exists p | p in db.payments :: db.payments[p].order == order && db.payments[p].status == PaymentSucceeded
  }

  predicate HasSucceededRefund(db: Db, order: nat) {
    exists r | r in db.refunds :: db.refunds[r].order == order && db.refunds[r].status == Succeeded
  }

  /** The lifecycle guard of an order update. */
  predicate LifecycleGuard(db: Db, id: nat, before: Order, after: Order) {
    && (before.stockReleasedAt.Some? ==> after.stockReleasedAt == before.stockReleasedAt)
    && (after.status != before.status ==>
      && Moves(before.status, after.status)
      && (after.status == Paid ==> HasSucceededPayment(db, id))
      && (after.status == Refunded ==> HasSucceededRefund(db, id))
      && (after.status == Cancelled ==> after.stockReleasedAt.Some?))
  }

  /** Currency once set, and the coupon from the start, are frozen. */
  predicate FrozenFields(before: Order, after: Order) {
    (before.currency.Some? ==> after.currency == before.currency) && after.coupon == before.coupon
  }

  function RestockedFor(restocks: seq<Restock>, item: nat): nat {
    if restocks == [] then 0
    else
      var last := restocks[|restocks| - 1];
      RestockedFor(restocks[..|restocks| - 1], item) + (if last.item == item then last.quantity else 0)
  }

  predicate EventKnown(restocks: seq<Restock>, r: Restock) {
    exists i | 0 <= i < |restocks| :: restocks[i].item == r.item && restocks[i].eventKey == r.eventKey
  }

  /** Unique event, positive quantity, and the item's own check after the trigger has added it. */
  predicate RestockAllowed(db: Db, r: Restock) {
    && r.quantity > 0 && r.item in db.items && !EventKnown(db.restocks, r)
    && db.items[r.item].restocked + r.quantity <= db.items[r.item].quantity
  }

  predicate Allowed(db: Db, s: Statement) {
    match s
    case InsertOrder(id, _, _) => id !in db.orders
    case UpdateOrder(id, after) => id in db.orders && LifecycleGuard(db, id, db.orders[id], after) && FrozenFields(db.orders[id], after)
    case InsertPayment(id, p) => id !in db.payments && p.order in db.orders && p.amount > 0
    case UpdatePayment(id, p) =>
      id in db.payments && p.amount == db.payments[id].amount && p.currency == db.payments[id].currency && p.order in db.orders
    case InsertRefund(id, r) => id !in db.refunds && r.payment in db.payments && r.order in db.orders && r.amount > 0
    case UpdateRefund(id, r) => id in db.refunds && UpdateGuard(db.refunds[id], r)
    case InsertItem(id, o, _) => id !in db.items && o in db.orders
    case InsertRestock(r) => RestockAllowed(db, r)
  }

  function Run(db: Db, s: Statement): Db {
    if !Allowed(db, s) then db
    else
      match s
      case InsertOrder(id, coupon, currency) => db.(orders := db.orders[id := Order(Waiting, None, coupon, currency)])
      case UpdateOrder(id, after) => db.(orders := db.orders[id := after])
      case InsertPayment(id, p) => db.(payments := db.payments[id := p])
      case UpdatePayment(id, p) => db.(payments := db.payments[id := p])
      case InsertRefund(id, r) => db.(refunds := db.refunds[id := r])
      case UpdateRefund(id, r) => db.(refunds := db.refunds[id := r])
      case InsertItem(id, o, quantity) => db.(items := db.items[id := Item(o, quantity, 0)])
      case InsertRestock(r) =>
        var item := db.items[r.item];
        db.(restocks := db.restocks + [r], items := db.items[r.item := item.(restocked := item.restocked + r.quantity)])
  }

  function RunAll(db: Db, ss: seq<Statement>): Db {
    if ss == [] then db else Run(RunAll(db, ss[..|ss| - 1]), ss[|ss| - 1])
  }

  // ------------------------------------------------------------ what every run keeps

  /** A refunded order has a succeeded refund; a cancelled order has released its stock. */
  ghost predicate LifecycleFacts(db: Db) {
    forall id :: id in db.orders ==>
      && (db.orders[id].status == Refunded ==> HasSucceededRefund(db, id))
      && (db.orders[id].status == Cancelled ==> db.orders[id].stockReleasedAt.Some?)
  }

  ghost predicate SumsAgree(items: map<nat, Item>, restocks: seq<Restock>) {
    forall id :: id in items ==> items[id].restocked == RestockedFor(restocks, id) <= items[id].quantity
  }

  predicate EventsDistinct(restocks: seq<Restock>) {
    forall i, j :: 0 <= i < j < |restocks| ==> restocks[i].item != restocks[j].item || restocks[i].eventKey != restocks[j].eventKey
  }

  predicate ItemsKnown(items: map<nat, Item>, restocks: seq<Restock>) {
    forall i :: 0 <= i < |restocks| ==> restocks[i].item in items
  }

  /** restocked_quantity is the sum of the item's distinct events and stays within the quantity. */
  ghost predicate RestockFacts(db: Db) {
    SumsAgree(db.items, db.restocks) && EventsDistinct(db.restocks) && ItemsKnown(db.items, db.restocks)
  }

  /** Succeeded refunds are never taken back. */
  lemma RefundsStay(db: Db, s: Statement, order: nat)
    requires HasSucceededRefund(db, order)
    ensures HasSucceededRefund(Run(db, s), order)
  {
    var r :| r in db.refunds && db.refunds[r].order == order && db.refunds[r].status == Succeeded;
    assert r in Run(db, s).refunds && Run(db, s).refunds[r].order == order && Run(db, s).refunds[r].status == Succeeded;
  }

  lemma LifecycleStep(db: Db, s: Statement)
    requires LifecycleFacts(db)
    ensures LifecycleFacts(Run(db, s))
  {
    var db' := Run(db, s);
    forall id | id in db'.orders && db'.orders[id].status == Refunded ensures HasSucceededRefund(db', id) {
      if HasSucceededRefund(db, id) {
        RefundsStay(db, s, id);
      }
    }
    hide HasSucceededRefund, HasSucceededPayment, RestockAllowed;
  }

  lemma {:induction false} NothingRestocked(restocks: seq<Restock>, item: nat)
    requires forall i :: 0 <= i < |restocks| ==> restocks[i].item != item
    ensures RestockedFor(restocks, item) == 0
  {
    if restocks != [] {
      NothingRestocked(restocks[..|restocks| - 1], item);
    }
  }

  lemma RestockStep(db: Db, s: Statement)
    requires RestockFacts(db)
    ensures RestockFacts(Run(db, s))
  {
    if Allowed(db, s) {
      match s
      case InsertItem(id, _, _) => NothingRestocked(db.restocks, id);
      case InsertRestock(r) => RestockInserted(db, r);
      case _ =>
    }
  }

  lemma RestockedMore(restocks: seq<Restock>, r: Restock, id: nat)
    ensures RestockedFor(restocks + [r], id) == RestockedFor(restocks, id) + if r.item == id then r.quantity else 0
  {
    assert (restocks + [r])[..|restocks|] == restocks;
  }

  lemma SumsStep(items: map<nat, Item>, restocks: seq<Restock>, r: Restock)
    requires SumsAgree(items, restocks) && r.item in items && items[r.item].restocked + r.quantity <= items[r.item].quantity
    ensures var item := items[r.item];
      SumsAgree(items[r.item := item.(restocked := item.restocked + r.quantity)], restocks + [r])
  {
    hide RestockedFor;
    forall id | id in items
      ensures RestockedFor(restocks + [r], id) == RestockedFor(restocks, id) + if r.item == id then r.quantity else 0
    {
      RestockedMore(restocks, r, id);
    }
  }

  lemma DistinctEvents(restocks: seq<Restock>, r: Restock)
    requires EventsDistinct(restocks) && !EventKnown(restocks, r)
    ensures EventsDistinct(restocks + [r])
  {
  }

  lemma RestockInserted(db: Db, r: Restock)
    requires RestockFacts(db) && RestockAllowed(db, r)
    ensures RestockFacts(Run(db, InsertRestock(r)))
  {
    SumsStep(db.items, db.restocks, r);
    DistinctEvents(db.restocks, r);
    hide EventKnown, EventsDistinct, SumsAgree, LifecycleGuard, UpdateGuard;
  }

  lemma {:induction false} FactsHold(ss: seq<Statement>)
    ensures LifecycleFacts(RunAll(Empty, ss)) && RestockFacts(RunAll(Empty, ss))
  {
    if ss != [] {
      FactsHold(ss[..|ss| - 1]);
      hide LifecycleFacts, RestockFacts, Run;
      LifecycleStep(RunAll(Empty, ss[..|ss| - 1]), ss[|ss| - 1]);
      RestockStep(RunAll(Empty, ss[..|ss| - 1]), ss[|ss| - 1]);
    }
  }

  // ------------------------------------------------------------ what never changes back

  /** Counts against a coupon's limits. */
  predicate Alive(o: Order) {
    o.status == Waiting || o.status == Paid || o.status == Fulfilled
  }

  /** How far an order is on its way; every change of status moves it forward. */
  function Progress(s: OrderStatus): nat {
    match s
    case Waiting => 0
    case Paid => 1
    case Fulfilled => 2
    case Cancelled => 3
    case Refunded => 3
  }

  /** What one statement may do to an order that exists. */
  ghost predicate Onward(before: Order, after: Order) {
    && after.coupon == before.coupon
    && (before.currency.Some? ==> after.currency == before.currency)
    && (before.stockReleasedAt.Some? ==> after.stockReleasedAt == before.stockReleasedAt)
    && (after.status == before.status || Progress(after.status) > Progress(before.status))
  }

  lemma OrderStep(db: Db, s: Statement, id: nat)
    requires id in db.orders
    ensures id in Run(db, s).orders && Onward(db.orders[id], Run(db, s).orders[id])
  {
    hide HasSucceededRefund, HasSucceededPayment, RestockAllowed;
  }

  /**
   Over any further statements an order only moves onward: an order that has left pending, paid and fulfilled never comes back, so the
   coupon use it gave back is given back once, and a released stock stays released at the same time.
   */
  lemma {:induction false} OrdersMoveOnward(db: Db, ss: seq<Statement>, id: nat)
    requires id in db.orders
    ensures id in RunAll(db, ss).orders && Onward(db.orders[id], RunAll(db, ss).orders[id])
    ensures !Alive(db.orders[id]) ==> RunAll(db, ss).orders[id].status == db.orders[id].status
  {
    if ss != [] {
      OrdersMoveOnward(db, ss[..|ss| - 1], id);
      OrderStep(RunAll(db, ss[..|ss| - 1]), ss[|ss| - 1], id);
      hide Run;
    }
  }

  /** Which of these orders carry coupon c and still count. */
  function Using(db: Db, c: nat, ids: set<nat>): set<nat> {
    set id | id in ids && id in db.orders && db.orders[id].coupon == Some(c) && Alive(db.orders[id])
  }

  /** Among any orders there are, the uses of a coupon only ever fall: no later statement makes one count again. */
  lemma UsesOnlyFall(db: Db, ss: seq<Statement>, c: nat, ids: set<nat>)
    requires ids <= db.orders.Keys
    ensures Using(RunAll(db, ss), c, ids) <= Using(db, c, ids) && |Using(RunAll(db, ss), c, ids)| <= |Using(db, c, ids)|
  {
    hide RunAll;
    forall id | id in Using(RunAll(db, ss), c, ids)
      ensures id in Using(db, c, ids)
    {
      OrdersMoveOnward(db, ss, id);
    }
    SubsetSmaller(Using(RunAll(db, ss), c, ids), Using(db, c, ids));
  }

  // ------------------------------------------------------------ when a paid order keeps its payment

  predicate Settled(db: Db, id: nat)
    requires id in db.orders
  {
    db.orders[id].status == Paid || db.orders[id].status == Fulfilled
  }

  /** Every paid or fulfilled order has a succeeded payment. */
  ghost predicate PaidFacts(db: Db) {
    forall id :: id in db.orders && Settled(db, id) ==> HasSucceededPayment(db, id)
  }

  predicate Pays(p: Payment, order: nat) {
    p.status == PaymentSucceeded && p.order == order
  }

  /** The update takes the only succeeded payment of a paid or fulfilled order away, to another status or to another order. */
  predicate Breaks(db: Db, s: Statement) {
    && s.UpdatePayment? && Allowed(db, s)
    && var order := db.payments[s.id].order;
      && order in db.orders && Settled(db, order)
      && Pays(db.payments[s.id], order) && !Pays(s.payment, order)
      && forall q :: q in db.payments && q != s.id ==> !Pays(db.payments[q], order)
  }

  /** Payments that count for an order go on counting unless this one is taken away. */
  lemma PaymentStays(db: Db, s: Statement, order: nat, q: nat)
    requires q in db.payments && Pays(db.payments[q], order)
    requires !(s.UpdatePayment? && Allowed(db, s) && s.id == q && !Pays(s.payment, order))
    ensures HasSucceededPayment(Run(db, s), order)
  {
    hide RestockAllowed, LifecycleGuard, UpdateGuard, FrozenFields;
    assert q in Run(db, s).payments && Pays(Run(db, s).payments[q], order);
  }

  lemma NewlySettled(db: Db, s: Statement, id: nat)
    requires id in Run(db, s).orders && Settled(Run(db, s), id) && (id !in db.orders || !Settled(db, id))
    ensures HasSucceededPayment(db, id) && !s.UpdatePayment?
  {
    hide RestockAllowed, UpdateGuard, FrozenFields, HasSucceededRefund;
  }

  lemma SettledBefore(db: Db, s: Statement, id: nat)
    requires s.UpdatePayment? && id in db.orders
    ensures id in Run(db, s).orders && Run(db, s).orders[id] == db.orders[id]
  {
    hide RestockAllowed, UpdateGuard, FrozenFields, LifecycleGuard;
  }

  lemma BrokenPays(db: Db, s: Statement)
    requires Breaks(db, s)
    ensures !PaidFacts(Run(db, s))
  {
    var order := db.payments[s.id].order;
    hide RestockAllowed, UpdateGuard, FrozenFields, LifecycleGuard;
    SettledBefore(db, s, order);
    var db' := Run(db, s);
    assert db'.payments == db.payments[s.id := s.payment];
    assert forall q :: q in db'.payments ==> !Pays(db'.payments[q], order);
    assert !HasSucceededPayment(db', order);
  }

  /** A statement leaves every paid or fulfilled order its payment exactly when it does not take the last one away. */
  lemma PaidExactly(db: Db, s: Statement)
    requires PaidFacts(db)
    ensures PaidFacts(Run(db, s)) <==> !Breaks(db, s)
  {
    if Breaks(db, s) {
      BrokenPays(db, s);
    } else {
      forall id | id in Run(db, s).orders && Settled(Run(db, s), id)
        ensures HasSucceededPayment(Run(db, s), id)
      {
        PaidStep(db, s, id);
      }
    }
    hide Run, Breaks, HasSucceededPayment;
  }

  lemma PaidStep(db: Db, s: Statement, id: nat)
    requires PaidFacts(db) && !Breaks(db, s) && id in Run(db, s).orders && Settled(Run(db, s), id)
    ensures HasSucceededPayment(Run(db, s), id)
  {
    hide Run;
    if id !in db.orders || !Settled(db, id) {
      NewlySettled(db, s, id);
      var q :| q in db.payments && Pays(db.payments[q], id);
      PaymentStays(db, s, id, q);
    } else {
      assert HasSucceededPayment(db, id);
      var q :| q in db.payments && Pays(db.payments[q], id);
      if s.UpdatePayment? && Allowed(db, s) && s.id == q && !Pays(s.payment, id) {
        var other :| other in db.payments && other != q && Pays(db.payments[other], id);
        PaymentStays(db, s, id, other);
      } else {
        PaymentStays(db, s, id, q);
      }
    }
  }

  ghost predicate PaidThroughout(ss: seq<Statement>) {
    forall k :: 0 <= k <= |ss| ==> PaidFacts(RunAll(Empty, ss[..k]))
  }

  ghost predicate UnbrokenThroughout(ss: seq<Statement>) {
    forall k :: 0 <= k < |ss| ==> !Breaks(RunAll(Empty, ss[..k]), ss[k])
  }

  lemma ThroughoutStep(front: seq<Statement>, s: Statement)
    ensures PaidThroughout(front + [s]) <==> PaidThroughout(front) && PaidFacts(RunAll(Empty, front + [s]))
    ensures UnbrokenThroughout(front + [s]) <==> UnbrokenThroughout(front) && !Breaks(RunAll(Empty, front), s)
    ensures PaidThroughout(front) ==> PaidFacts(RunAll(Empty, front))
  {
    hide PaidFacts, Breaks, RunAll;
    var ss := front + [s];
    assert forall k :: 0 <= k <= |front| ==> ss[..k] == front[..k];
    assert ss[..|ss|] == ss && front[..|front|] == front;
  }

  /** Over a run: paid and fulfilled orders have a succeeded payment all along exactly when no statement takes the last one away. */
  lemma {:induction false} PaidAllAlong(ss: seq<Statement>)
    ensures PaidThroughout(ss) <==> UnbrokenThroughout(ss)
  {
    hide PaidFacts, Breaks, Run;
    if ss == [] {
      NobodyPaid();
      assert ss[..0] == [];
    } else {
      hide PaidThroughout, UnbrokenThroughout;
      var front, s := ss[..|ss| - 1], ss[|ss| - 1];
      assert ss == front + [s];
      PaidAllAlong(front);
      ThroughoutStep(front, s);
      if PaidFacts(RunAll(Empty, front)) {
        PaidExactly(RunAll(Empty, front), s);
      }
    }
  }

  lemma NobodyPaid()
    ensures PaidFacts(RunAll(Empty, []))
  {
  }

  /** The excluded statement occurs: a paid order's payment is marked as failed. */
  lemma PaidCanLoseItsPayment()
    ensures var p := Payment(0, 100, "inr", PaymentSucceeded);
      var db := RunAll(Empty, [InsertOrder(0, None, None), InsertPayment(0, p), UpdateOrder(0, Order(Paid, None, None, None)),
                               UpdatePayment(0, p.(status := PaymentFailed))]);
      0 in db.orders && db.orders[0].status == Paid && !HasSucceededPayment(db, 0)
  {
    var p := Payment(0, 100, "inr", PaymentSucceeded);
    var ss := [InsertOrder(0, None, None), InsertPayment(0, p), UpdateOrder(0, Order(Paid, None, None, None)),
               UpdatePayment(0, p.(status := PaymentFailed))];
    assert ss[..1][..0] == [] && ss[..2][..1] == ss[..1] && ss[..3][..2] == ss[..2];
    assert RunAll(Empty, ss[..1][..0]) == Empty;
    var db1 := RunAll(Empty, ss[..1]);
    assert db1 == Run(Empty, ss[0]);
    var db2 := RunAll(Empty, ss[..2]);
    assert db2 == Run(db1, ss[1]);
    assert db2.payments[0] == p && HasSucceededPayment(db2, 0);
    var db3 := RunAll(Empty, ss[..3]);
    assert db3 == Run(db2, ss[2]) && db3.orders[0].status == Paid;
  }

  // ------------------------------------------------------------ which statements are accepted

  /** An order may go from one row to the other, with or without a succeeded payment and a succeeded refund. */
  predicate StepsTo(before: Order, after: Order, paid: bool, refunded: bool) {
    && after.coupon == before.coupon
    && (before.currency.None? || after.currency == before.currency)
    && (before.stockReleasedAt.None? || after.stockReleasedAt == before.stockReleasedAt)
    && match (before.status, after.status) {
      case (Waiting, Paid) => paid
      case (Waiting, Cancelled) => after.stockReleasedAt.Some?
      case (Paid, Fulfilled) => true
      case (Paid, Refunded) => refunded
      case (Fulfilled, Refunded) => refunded
      case (a, b) => a == b
    }
  }

  /** New rows: orders start pending with nothing released, items with nothing restocked; a payment or refund needs its order and an amount. */
  lemma InsertsExactly(db: Db, s: Statement)
    ensures s.InsertOrder? ==>
      Run(db, s) == if s.id in db.orders then db else db.(orders := db.orders[s.id := Order(Waiting, None, s.coupon, s.currency)])
    ensures s.InsertItem? ==>
      Run(db, s) == if s.id in db.items || s.order !in db.orders then db else db.(items := db.items[s.id := Item(s.order, s.quantity, 0)])
    ensures s.InsertPayment? ==>
      Run(db, s) == if s.id !in db.payments && s.payment.order in db.orders && s.payment.amount > 0
        then db.(payments := db.payments[s.id := s.payment]) else db
    ensures s.InsertRefund? ==>
      Run(db, s) == if s.id !in db.refunds && s.refund.payment in db.payments && s.refund.order in db.orders && s.refund.amount > 0
        then db.(refunds := db.refunds[s.id := s.refund]) else db
  {
  }

  /** Updates: a payment keeps its amount and currency; a refund keeps everything but its status, which does not leave an end. */
  lemma UpdatesExactly(db: Db, s: Statement)
    ensures s.UpdatePayment? ==>
      Run(db, s) == if s.id in db.payments && s.payment.order in db.orders
          && s.payment.amount == db.payments[s.id].amount && s.payment.currency == db.payments[s.id].currency
        then db.(payments := db.payments[s.id := s.payment]) else db
    ensures s.UpdateRefund? ==>
      Run(db, s) == if s.id in db.refunds && MayBecome(db.refunds[s.id], s.refund) then db.(refunds := db.refunds[s.id := s.refund]) else db
  {
  }

  // ------------------------------------------------------------ the tables as the statements change them

  class OrderTables {
    var orders: map<nat, Order>
    var payments: map<nat, Payment>
    var refunds: map<nat, Refund>
    var items: map<nat, Item>
    var restocks: seq<Restock>

    function Rows(): Db
      reads this
    {
      Db(orders, payments, refunds, items, restocks)
    }

    constructor ()
      ensures Rows() == Empty
    {
      orders, payments, refunds, items, restocks := map[], map[], map[], map[], [];
    }

    ghost predicate PaidFor(id: nat)
      reads this
    {
      exists p :: p in payments && payments[p].order == id && payments[p].status == PaymentSucceeded
    }

    ghost predicate RefundedFor(id: nat)
      reads this
    {
      exists r :: r in refunds && refunds[r].order == id && refunds[r].status == Succeeded
    }

    /**
     The order update with its triggers, in the order they raise: coupon, set currency and stock release are fixed, and the status stays or
     takes one of the five steps, for which payment, refund or stock release must be there.
     */
    method ChangeOrder(id: nat, after: Order) returns (ok: bool)
      modifies this
      ensures Rows() == Run(old(Rows()), UpdateOrder(id, after))
      ensures ok <==> id in old(orders) && StepsTo(old(orders)[id], after, old(PaidFor(id)), old(RefundedFor(id)))
      ensures orders == if ok then old(orders)[id := after] else old(orders)
      ensures payments == old(payments) && refunds == old(refunds) && items == old(items) && restocks == old(restocks)
    {
      if id !in orders {
        return false;
      }
      var before := orders[id];
      if before.coupon != after.coupon || (before.currency.Some? && after.currency != before.currency) {
        return false;
      }
      if before.stockReleasedAt.Some? && after.stockReleasedAt != before.stockReleasedAt {
        return false;
      }
      if after.status != before.status {
        if !Moves(before.status, after.status) {
          return false;
        }
        if after.status == Paid && !exists p | p in payments :: payments[p].order == id && payments[p].status == PaymentSucceeded {
          return false;
        }
        if after.status == Refunded && !exists r | r in refunds :: refunds[r].order == id && refunds[r].status == Succeeded {
          return false;
        }
        if after.status == Cancelled && after.stockReleasedAt.None? {
          return false;
        }
      }
      orders := orders[id := after];
      ok := true;
    }

    /** The restock event and the trigger that adds it to its item. */
    method AddRestock(r: Restock) returns (ok: bool)
      modifies this
      ensures Rows() == Run(old(Rows()), InsertRestock(r))
      ensures ok <==>
        && r.quantity > 0 && r.item in old(items)
        && (forall i :: 0 <= i < |old(restocks)| ==> old(restocks)[i].item != r.item || old(restocks)[i].eventKey != r.eventKey)
        && old(items)[r.item].restocked + r.quantity <= old(items)[r.item].quantity
      ensures restocks == if ok then old(restocks) + [r] else old(restocks)
      ensures items == if ok then
          var i := old(items)[r.item]; old(items)[r.item := Item(i.order, i.quantity, i.restocked + r.quantity)]
        else old(items)
      ensures orders == old(orders) && payments == old(payments) && refunds == old(refunds)
    {
      if r.quantity == 0 || r.item !in items || EventKnown(restocks, r) {
        return false;
      }
      var item := items[r.item];
      var restocked := item.restocked + r.quantity;
      if restocked > item.quantity {
        return false;
      }
      restocks := restocks + [r];
      items := items[r.item := item.(restocked := restocked)];
      ok := true;
    }
  }
}
