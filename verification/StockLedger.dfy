/** Stock and its append-only ledger: every change of a product's or variant's stock leaves one row. */
module StockLedger {
  import opened Options

  datatype Kind = Opening | Initial | Sale | RestockKind | AdminSet | AdminDelta | Conversion | Unspecified

  /** What is stocked: a simple product, or one variant. */
  datatype Unit = OfProduct(product: nat) | OfVariant(variant: nat)

  datatype Movement = Movement(kind: Kind, product: nat, variant: Option<nat>, delta: int, before: int, after: int, actor: Option<nat>, reason: Option<string>)

  datatype Product = Product(stock: int, options: nat)
  datatype Variant = Variant(product: nat, stock: int)

  datatype Db = Db(products: map<nat, Product>, variants: map<nat, Variant>, ledger: seq<Movement>)

  /** Why stock changes, as the transaction has announced it; an empty announcement is none. */
  datatype Context = Context(kind: Option<Kind>, actor: Option<nat>, reason: Option<string>)

  datatype Statement =
    | InsertProduct(id: nat, product: Product)
    | UpdateProduct(id: nat, product: Product)
    | InsertVariant(id: nat, variant: Variant)
    | UpdateVariantStock(id: nat, stock: int)
    | WriteLedger(row: Movement)
    | ChangeLedger(index: nat)

  function UnitOf(m: Movement): Unit {
    if m.variant.Some? then OfVariant(m.variant.value) else OfProduct(m.product)
  }

  function Trim(s: string): string {
    if s != "" && s[0] == ' ' then Trim(s[1..])
    else if s != "" && s[|s| - 1] == ' ' then Trim(s[..|s| - 1])
    else s
  }

  /** Trimming takes off the blanks at both ends and nothing else. */
  lemma {:induction false} TrimExactly(s: string) returns (from: nat, to: nat)
    ensures from <= to <= |s| && Trim(s) == s[from..to]
    ensures forall i :: 0 <= i < from || to <= i < |s| ==> s[i] == ' '
    ensures from < to ==> s[from] != ' ' && s[to - 1] != ' '
    decreases |s|
  {
    if s != "" && s[0] == ' ' {
      from, to := TrimExactly(s[1..]);
      assert s[1..][from..to] == s[from + 1..to + 1];
      assert forall i :: 1 <= i < |s| ==> s[i] == s[1..][i - 1];
      from, to := from + 1, to + 1;
    } else if s != "" && s[|s| - 1] == ' ' {
      var front := s[..|s| - 1];
      from, to := TrimExactly(front);
      assert front[from..to] == s[from..to];
      assert forall i :: 0 <= i < |front| ==> s[i] == front[i];
    } else {
      from, to := 0, |s|;
      assert s[0..|s|] == s;
    }
  }

  /** A missing reason makes the length unknown, and a check that is unknown passes. */
  predicate ReasonPasses(reason: Option<string>) {
    reason.Some? ==> |Trim(reason.value)| >= 3
  }

  /** The checks of a ledger row. */
  predicate RowChecks(m: Movement) {
    && m.delta != 0 && m.after == m.before + m.delta && m.after >= 0 && m.before >= 0
    && (m.kind == AdminSet || m.kind == AdminDelta ==> m.actor.Some? && ReasonPasses(m.reason))
  }

  /** A simple product keeps its stock, a product with options keeps none; neither is negative. */
  predicate ProductChecks(p: Product) {
    p.stock >= 0 && p.options <= 3 && (p.options == 0 || p.stock == 0)
  }

  /** The row the trigger writes for a change of stock; `fallback` is the kind when the transaction announced none. */
  function Row(c: Context, fallback: Kind, product: nat, variant: Option<nat>, before: int, after: int): Movement {
    Movement(if c.kind.Some? then c.kind.value else fallback, product, variant, after - before, before, after, c.actor, c.reason)
  }

  /** The ledger after a change of stock; no row when nothing changed. */
  function Recorded(ledger: seq<Movement>, c: Context, fallback: Kind, product: nat, variant: Option<nat>, before: int, after: int): seq<Movement> {
    if before == after then ledger else ledger + [Row(c, fallback, product, variant, before, after)]
  }

  predicate Recordable(c: Context, fallback: Kind, product: nat, variant: Option<nat>, before: int, after: int) {
    before != after ==> RowChecks(Row(c, fallback, product, variant, before, after))
  }

  /** One statement with its checks and triggers; a refused statement changes nothing. */
  function Run(db: Db, c: Context, s: Statement): Db {
    match s
    case InsertProduct(id, p) =>
      if id !in db.products && ProductChecks(p) && Recordable(c, Initial, id, None, 0, p.stock)
      then Db(db.products[id := p], db.variants, Recorded(db.ledger, c, Initial, id, None, 0, p.stock)) else db
    case UpdateProduct(id, p) =>
      if id in db.products && ProductChecks(p) && Recordable(c, Unspecified, id, None, db.products[id].stock, p.stock)
      then Db(db.products[id := p], db.variants, Recorded(db.ledger, c, Unspecified, id, None, db.products[id].stock, p.stock)) else db
    case InsertVariant(id, v) =>
      if id !in db.variants && v.product in db.products && v.stock >= 0 && Recordable(c, Initial, v.product, Some(id), 0, v.stock)
      then Db(db.products, db.variants[id := v], Recorded(db.ledger, c, Initial, v.product, Some(id), 0, v.stock)) else db
    case UpdateVariantStock(id, stock) =>
      if id in db.variants && stock >= 0 && Recordable(c, Unspecified, db.variants[id].product, Some(id), db.variants[id].stock, stock)
      then Db(db.products, db.variants[id := db.variants[id].(stock := stock)],
              Recorded(db.ledger, c, Unspecified, db.variants[id].product, Some(id), db.variants[id].stock, stock)) else db
    case WriteLedger(_) => db
    case ChangeLedger(_) => db
  }

  // ------------------------------------------------------------ agreement

  function Balance(ledger: seq<Movement>, u: Unit): int {
    if ledger == [] then 0
    else
      var last := ledger[|ledger| - 1];
      Balance(ledger[..|ledger| - 1], u) + (if UnitOf(last) == u then last.delta else 0)
  }

  predicate Exists(db: Db, u: Unit) {
    match u
    case OfProduct(id) => id in db.products
    case OfVariant(id) => id in db.variants
  }

  function StockOf(db: Db, u: Unit): int
    requires Exists(db, u)
  {
    match u
    case OfProduct(id) => db.products[id].stock
    case OfVariant(id) => db.variants[id].stock
  }

  /** Each row starts where the rows of its unit before it ended, so the rows of a unit chain from zero. */
  predicate Chained(ledger: seq<Movement>) {
    forall i :: 0 <= i < |ledger| ==> RowChecks(ledger[i]) && ledger[i].before == Balance(ledger[..i], UnitOf(ledger[i]))
  }

  ghost predicate Agrees(db: Db) {
    && Chained(db.ledger)
    && (forall u :: Exists(db, u) ==> StockOf(db, u) == Balance(db.ledger, u) >= 0)
    && (forall i :: 0 <= i < |db.ledger| ==> Exists(db, UnitOf(db.ledger[i])))
    && (forall id :: id in db.products ==> ProductChecks(db.products[id]))
  }

  lemma {:induction false} NoRowsNoBalance(ledger: seq<Movement>, u: Unit)
    requires forall i :: 0 <= i < |ledger| ==> UnitOf(ledger[i]) != u
    ensures Balance(ledger, u) == 0
  {
    if ledger != [] {
      NoRowsNoBalance(ledger[..|ledger| - 1], u);
    }
  }

  /** One more row that starts at its unit's balance keeps the chain and moves only that unit's balance. */
  lemma Appended(ledger: seq<Movement>, m: Movement)
    requires Chained(ledger) && RowChecks(m) && m.before == Balance(ledger, UnitOf(m))
    ensures Chained(ledger + [m])
    ensures forall u :: Balance(ledger + [m], u) == if UnitOf(m) == u then m.after else Balance(ledger, u)
  {
    var longer := ledger + [m];
    assert longer[..|ledger|] == ledger;
    forall i | 0 <= i < |longer| ensures RowChecks(longer[i]) && longer[i].before == Balance(longer[..i], UnitOf(longer[i])) {
      if i < |ledger| {
        assert longer[..i] == ledger[..i];
      }
    }
  }

  lemma RunKeeps(db: Db, c: Context, s: Statement)
    requires Agrees(db)
    ensures Agrees(Run(db, c, s))
  {
    hide RowChecks, Chained, Balance, Trim;
    if Run(db, c, s) != db {
      match s
      case InsertProduct(id, p) => ChangeKeeps(db, Run(db, c, s), OfProduct(id), Row(c, Initial, id, None, 0, p.stock));
      case UpdateProduct(id, p) => ChangeKeeps(db, Run(db, c, s), OfProduct(id), Row(c, Unspecified, id, None, db.products[id].stock, p.stock));
      case InsertVariant(id, v) => ChangeKeeps(db, Run(db, c, s), OfVariant(id), Row(c, Initial, v.product, Some(id), 0, v.stock));
      case UpdateVariantStock(id, stock) =>
        ChangeKeeps(db, Run(db, c, s), OfVariant(id), Row(c, Unspecified, db.variants[id].product, Some(id), db.variants[id].stock, stock));
      case WriteLedger(_) =>
      case ChangeLedger(_) =>
    }
  }

  /** A unit is created or changed, and its change of stock, if any, is recorded. */
  predicate Changes(db: Db, db': Db, u: Unit, m: Movement) {
    && UnitOf(m) == u && Exists(db', u) && StockOf(db', u) == m.after == m.before + m.delta >= 0
    && m.before == (if Exists(db, u) then StockOf(db, u) else 0)
    && db'.ledger == if m.delta == 0 then db.ledger else db.ledger + [m]
  }

  ghost predicate OthersSame(db: Db, db': Db, u: Unit) {
    forall w :: w != u ==> (Exists(db', w) <==> Exists(db, w)) && (Exists(db, w) ==> StockOf(db', w) == StockOf(db, w))
  }

  lemma BalancesMove(db: Db, db': Db, u: Unit, m: Movement)
    requires Agrees(db) && Changes(db, db', u, m) && (m.delta != 0 ==> RowChecks(m))
    ensures Chained(db'.ledger)
    ensures forall w :: Balance(db'.ledger, w) == if w == u then m.after else Balance(db.ledger, w)
  {
    if !Exists(db, u) {
      NoRowsNoBalance(db.ledger, u);
    }
    if m.delta != 0 {
      Appended(db.ledger, m);
    }
    hide RowChecks, Chained, Balance;
  }

  lemma ChangeKeeps(db: Db, db': Db, u: Unit, m: Movement)
    requires Agrees(db) && Changes(db, db', u, m) && OthersSame(db, db', u) && (m.delta != 0 ==> RowChecks(m))
    requires forall id :: id in db'.products ==> ProductChecks(db'.products[id])
    ensures Agrees(db')
  {
    hide RowChecks, Chained, Balance, StockOf;
    BalancesMove(db, db', u, m);
    forall i | 0 <= i < |db'.ledger|
      ensures Exists(db', UnitOf(db'.ledger[i]))
    {
      assert i < |db.ledger| ==> db'.ledger[i] == db.ledger[i];
    }
  }

  function RunAll(db: Db, steps: seq<(Context, Statement)>): Db {
    if steps == [] then db else Run(RunAll(db, steps[..|steps| - 1]), steps[|steps| - 1].0, steps[|steps| - 1].1)
  }

  /** Agreement over runs: stock is never negative and equals the sum of its ledger rows, which chain from zero. */
  lemma {:induction false} LedgerAgrees(db: Db, steps: seq<(Context, Statement)>)
    requires Agrees(db)
    ensures Agrees(RunAll(db, steps))
  {
    if steps != [] {
      hide Agrees, Run;
      LedgerAgrees(db, steps[..|steps| - 1]);
      RunKeeps(RunAll(db, steps[..|steps| - 1]), steps[|steps| - 1].0, steps[|steps| - 1].1);
    }
  }

  /** The ledger is append-only: whatever is run, earlier rows stay as they are. */
  lemma {:induction false} LedgerGrows(db: Db, steps: seq<(Context, Statement)>)
    ensures db.ledger <= RunAll(db, steps).ledger
  {
    if steps != [] {
      LedgerGrows(db, steps[..|steps| - 1]);
    }
  }

  /** Consecutive rows of one unit meet: the later one starts where the earlier one ended. */
  lemma {:induction false} RowsMeet(ledger: seq<Movement>, i: nat, j: nat)
    requires Chained(ledger) && i < j < |ledger| && UnitOf(ledger[i]) == UnitOf(ledger[j])
    requires forall k :: i < k < j ==> UnitOf(ledger[k]) != UnitOf(ledger[j])
    ensures ledger[j].before == ledger[i].after
  {
    BalanceSkips(ledger, UnitOf(ledger[j]), i + 1, j);
    assert ledger[..i + 1][..i] == ledger[..i];
  }

  lemma {:induction false} BalanceSkips(ledger: seq<Movement>, u: Unit, i: nat, j: nat)
    requires i <= j <= |ledger| && forall k :: i <= k < j ==> UnitOf(ledger[k]) != u
    ensures Balance(ledger[..j], u) == Balance(ledger[..i], u)
  {
    if i < j {
      BalanceSkips(ledger, u, i, j - 1);
      assert ledger[..j][..j - 1] == ledger[..j - 1];
    }
  }

  /** Over any run an admin row names who made it; its reason, if it has one, has three characters that are not blank at the ends. */
  lemma AdminRowsAreSigned(db: Db, steps: seq<(Context, Statement)>, i: nat)
    requires Agrees(db) && i < |RunAll(db, steps).ledger|
    ensures var m := RunAll(db, steps).ledger[i];
      m.kind == AdminSet || m.kind == AdminDelta ==> m.actor.Some? && ReasonPasses(m.reason)
  {
    LedgerAgrees(db, steps);
    hide RunAll, Trim, Balance;
  }

  /** A statement that changes a stock and passes every check but those of its ledger row. */
  predicate ChangesStock(db: Db, s: Statement) {
    match s
    case InsertProduct(id, p) => id !in db.products && ProductChecks(p) && p.stock != 0
    case UpdateProduct(id, p) => id in db.products && ProductChecks(p) && p.stock != db.products[id].stock
    case InsertVariant(id, v) => id !in db.variants && v.product in db.products && v.stock > 0
    case UpdateVariantStock(id, stock) => id in db.variants && stock >= 0 && stock != db.variants[id].stock
    case WriteLedger(_) => false
    case ChangeLedger(_) => false
  }

  /** An admin change of stock, whichever statement makes it, is accepted exactly when it names its actor and gives no reason or a long enough one. */
  lemma AdminAccepted(db: Db, c: Context, s: Statement)
    requires Agrees(db) && ChangesStock(db, s)
    requires c.kind == Some(AdminSet) || c.kind == Some(AdminDelta)
    ensures Run(db, c, s) != db <==> c.actor.Some? && ReasonPasses(c.reason)
  {
    hide Trim, Chained, Balance;
    if s.UpdateProduct? {
      assert Exists(db, OfProduct(s.id)) && StockOf(db, OfProduct(s.id)) >= 0;
    } else if s.UpdateVariantStock? {
      assert Exists(db, OfVariant(s.id)) && StockOf(db, OfVariant(s.id)) >= 0;
    }
  }

  // ------------------------------------------------------------ the tables as the triggers change them

  /** Only opening rows, for existing simple products. */
  ghost predicate IsOpening(ledger: seq<Movement>, existing: map<nat, Product>) {
    forall i :: 0 <= i < |ledger| ==> ledger[i].kind == Opening && ledger[i].variant.None? && ledger[i].product in existing
  }

  /** An announced admin change names who makes it, and its reason, if there is one, has three characters between the blanks at its ends. */
  predicate Signs(c: Context) {
    c.kind == Some(AdminSet) || c.kind == Some(AdminDelta) ==> c.actor.Some? && (c.reason.None? || |Trim(c.reason.value)| >= 3)
  }

  /** The balance every product that is still to be opened is missing, and no other. */
  ghost predicate Opened(ledger: seq<Movement>, existing: map<nat, Product>, rest: set<nat>) {
    forall id :: id in existing ==> Balance(ledger, OfProduct(id)) == if id in rest then 0 else existing[id].stock
  }

  /** What recording asks of a change of a stock that is not negative, to one that is not negative. */
  lemma RecordableExactly(c: Context, fallback: Kind, product: nat, variant: Option<nat>, before: int, after: int)
    requires before >= 0 && after >= 0 && fallback != AdminSet && fallback != AdminDelta
    ensures Recordable(c, fallback, product, variant, before, after) <==> before == after || Signs(c)
  {
    hide Trim;
  }

  lemma StockNotNegative(db: Db, u: Unit)
    requires Agrees(db)
    ensures Exists(db, u) ==> StockOf(db, u) >= 0
  {
    hide Chained, Balance, StockOf;
  }

  function OpeningRow(id: nat, stock: int): Movement {
    Movement(Opening, id, None, stock, 0, stock, None, Some("balance when the stock ledger was introduced"))
  }

  lemma OpenOne(ledger: seq<Movement>, existing: map<nat, Product>, rest: set<nat>, id: nat)
    requires id in rest && id in existing && existing[id].stock >= 0
    requires Chained(ledger) && IsOpening(ledger, existing) && Opened(ledger, existing, rest)
    ensures var after := if existing[id].stock > 0 then ledger + [OpeningRow(id, existing[id].stock)] else ledger;
      Chained(after) && IsOpening(after, existing) && Opened(after, existing, rest - {id})
  {
    hide Chained, Balance, Trim;
    if existing[id].stock > 0 {
      Appended(ledger, OpeningRow(id, existing[id].stock));
    }
  }

  method OpeningLedger(existing: map<nat, Product>) returns (ledger: seq<Movement>)
    requires forall id :: id in existing ==> ProductChecks(existing[id])
    ensures Chained(ledger) && IsOpening(ledger, existing) && Opened(ledger, existing, {})
  {
    ledger := [];
    var rest := existing.Keys;
    while rest != {}
      invariant rest <= existing.Keys && Chained(ledger) && IsOpening(ledger, existing) && Opened(ledger, existing, rest)
      decreases |rest|
    {
      var id :| id in rest;
      OpenOne(ledger, existing, rest, id);
      rest := rest - {id};
      if existing[id].stock > 0 {
        ledger := ledger + [OpeningRow(id, existing[id].stock)];
      }
    }
    hide Chained, IsOpening, Opened, OpeningRow;
  }

  class StockTables {
    var products: map<nat, Product>
    var variants: map<nat, Variant>
    var ledger: seq<Movement>

    function Rows(): Db
      reads this
    {
      Db(products, variants, ledger)
    }

    /** The migration: an empty ledger beside existing products, each with stock getting one opening row. */
    constructor (existing: map<nat, Product>)
      requires forall id :: id in existing ==> ProductChecks(existing[id])
      ensures products == existing && variants == map[] && Agrees(Rows())
      ensures IsOpening(ledger, existing)
    {
      products, variants, ledger := existing, map[], [];
      new;
      ledger := OpeningLedger(existing);
    }

    /** The ledger trigger. */
    method Record(c: Context, inserted: bool, product: nat, variant: Option<nat>, oldStock: int, newStock: int)
      modifies this`ledger
      ensures ledger == old(ledger) + [Row(c, if inserted then Initial else Unspecified, product, variant, if inserted then 0 else oldStock, newStock)]
    {
      var kind, before := c.kind, oldStock;
      if inserted {
        before := 0;
        if kind.None? {
          kind := Some(Initial);
        }
      } else if kind.None? {
        kind := Some(Unspecified);
      }
      ledger := ledger + [Movement(kind.value, product, variant, newStock - before, before, newStock, c.actor, c.reason)];
    }

    method NewProduct(c: Context, id: nat, p: Product) returns (ok: bool)
      requires Agrees(Rows())
      modifies this
      ensures Agrees(Rows()) && Rows() == Run(old(Rows()), c, InsertProduct(id, p))
      ensures ok <==> id !in old(products) && p.stock >= 0 && p.options <= 3 && (p.options == 0 || p.stock == 0) && (p.stock == 0 || Signs(c))
      ensures products == (if ok then old(products)[id := p] else old(products)) && variants == old(variants)
      ensures ledger == if ok && p.stock != 0
        then old(ledger) + [Movement(if c.kind.Some? then c.kind.value else Initial, id, None, p.stock, 0, p.stock, c.actor, c.reason)]
        else old(ledger)
    {
      RunKeeps(Rows(), c, InsertProduct(id, p));
      if p.stock >= 0 {
        RecordableExactly(c, Initial, id, None, 0, p.stock);
      }
      hide Agrees, Recordable, Signs;
      if id in products || !ProductChecks(p) || !Recordable(c, Initial, id, None, 0, p.stock) {
        return false;
      }
      products := products[id := p];
      if p.stock != 0 {
        Record(c, true, id, None, 0, p.stock);
      }
      ok := true;
    }

    method NewVariant(c: Context, id: nat, v: Variant) returns (ok: bool)
      requires Agrees(Rows())
      modifies this
      ensures Agrees(Rows()) && Rows() == Run(old(Rows()), c, InsertVariant(id, v))
      ensures ok <==> id !in old(variants) && v.product in old(products) && v.stock >= 0 && (v.stock == 0 || Signs(c))
      ensures variants == (if ok then old(variants)[id := v] else old(variants)) && products == old(products)
      ensures ledger == if ok && v.stock != 0
        then old(ledger) + [Movement(if c.kind.Some? then c.kind.value else Initial, v.product, Some(id), v.stock, 0, v.stock, c.actor, c.reason)]
        else old(ledger)
    {
      RunKeeps(Rows(), c, InsertVariant(id, v));
      if v.stock >= 0 {
        RecordableExactly(c, Initial, v.product, Some(id), 0, v.stock);
      }
      hide Agrees, Recordable, Signs;
      if id in variants || v.product !in products || v.stock < 0 || !Recordable(c, Initial, v.product, Some(id), 0, v.stock) {
        return false;
      }
      variants := variants[id := v];
      if v.stock != 0 {
        Record(c, true, v.product, Some(id), 0, v.stock);
      }
      ok := true;
    }

    method SetProduct(c: Context, id: nat, p: Product) returns (ok: bool)
      requires Agrees(Rows())
      modifies this
      ensures Agrees(Rows()) && Rows() == Run(old(Rows()), c, UpdateProduct(id, p))
      ensures ok <==> (
        && id in old(products) && p.stock >= 0 && p.options <= 3 && (p.options == 0 || p.stock == 0)
        && (p.stock == old(products)[id].stock || Signs(c)))
      ensures products == (if ok then old(products)[id := p] else old(products)) && variants == old(variants)
      ensures ledger == if ok && p.stock != old(products)[id].stock
        then
          var before := old(products)[id].stock;
          old(ledger) + [Movement(if c.kind.Some? then c.kind.value else Unspecified, id, None, p.stock - before, before, p.stock, c.actor, c.reason)]
        else old(ledger)
    {
      RunKeeps(Rows(), c, UpdateProduct(id, p));
      StockNotNegative(Rows(), OfProduct(id));
      if id in products && p.stock >= 0 {
        RecordableExactly(c, Unspecified, id, None, products[id].stock, p.stock);
      }
      hide Agrees, Recordable, Signs;
      if id !in products || !ProductChecks(p) || !Recordable(c, Unspecified, id, None, products[id].stock, p.stock) {
        return false;
      }
      var before := products[id].stock;
      products := products[id := p];
      if before != p.stock {
        Record(c, false, id, None, before, p.stock);
      }
      ok := true;
    }

    method SetVariantStock(c: Context, id: nat, stock: int) returns (ok: bool)
      requires Agrees(Rows())
      modifies this
      ensures Agrees(Rows()) && Rows() == Run(old(Rows()), c, UpdateVariantStock(id, stock))
      ensures ok <==> id in old(variants) && stock >= 0 && (stock == old(variants)[id].stock || Signs(c))
      ensures variants == (if ok then old(variants)[id := Variant(old(variants)[id].product, stock)] else old(variants)) && products == old(products)
      ensures ledger == if ok && stock != old(variants)[id].stock
        then
          var v := old(variants)[id];
          old(ledger) + [Movement(if c.kind.Some? then c.kind.value else Unspecified, v.product, Some(id), stock - v.stock, v.stock, stock, c.actor, c.reason)]
        else old(ledger)
    {
      RunKeeps(Rows(), c, UpdateVariantStock(id, stock));
      StockNotNegative(Rows(), OfVariant(id));
      if id in variants && stock >= 0 {
        RecordableExactly(c, Unspecified, variants[id].product, Some(id), variants[id].stock, stock);
      }
      hide Agrees, Recordable, Signs;
      if id !in variants || stock < 0 || !Recordable(c, Unspecified, variants[id].product, Some(id), variants[id].stock, stock) {
        return false;
      }
      var before := variants[id];
      variants := variants[id := before.(stock := stock)];
      if before.stock != stock {
        Record(c, false, before.product, Some(id), before.stock, stock);
      }
      ok := true;
    }
  }
}
