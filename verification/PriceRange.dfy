/** The price range of a product, kept current by triggers on products and variants. */
module PriceRange {
  import opened Options

  datatype Product = Product(price: int, options: nat, from: int, to: int)
  datatype Variant = Variant(product: nat, priceOverride: Option<int>, active: bool)

  type Products = map<nat, Product>
  type Variants = map<nat, Variant>

  function Effective(v: Variant, base: int): int {
    if v.priceOverride.Some? then v.priceOverride.value else base
  }

  /** An active variant of the product. */
  predicate Sold(vs: Variants, id: nat, pid: nat) {
    id in vs && vs[id].product == pid && vs[id].active
  }

  /** from and to are the lowest and highest price the product is sold at: its own price unless it has options and active variants. */
  ghost predicate IsRange(vs: Variants, pid: nat, base: int, options: nat, from: int, to: int) {
    if options == 0 || forall id :: !Sold(vs, id, pid) then from == base && to == base
    else
      && (exists id :: Sold(vs, id, pid) && Effective(vs[id], base) == from)
      && (exists id :: Sold(vs, id, pid) && Effective(vs[id], base) == to)
      && (forall id :: Sold(vs, id, pid) ==> from <= Effective(vs[id], base) <= to)
  }

  /** There is one range, and it is ordered. */
  lemma RangeUnique(vs: Variants, pid: nat, base: int, options: nat, from: int, to: int, from': int, to': int)
    requires IsRange(vs, pid, base, options, from, to) && IsRange(vs, pid, base, options, from', to')
    ensures from == from' && to == to' && from <= to
  {
    if options != 0 && exists id :: Sold(vs, id, pid) {
      var a :| Sold(vs, a, pid) && Effective(vs[a], base) == from;
      var b :| Sold(vs, b, pid) && Effective(vs[b], base) == to;
      var a' :| Sold(vs, a', pid) && Effective(vs[a'], base) == from';
      var b' :| Sold(vs, b', pid) && Effective(vs[b'], base) == to';
    }
  }

  /** A range depends only on the product's own variants. */
  lemma RangeOfOthers(vs: Variants, vs': Variants, pid: nat, base: int, options: nat, from: int, to: int)
    requires IsRange(vs, pid, base, options, from, to)
    requires forall id :: Sold(vs, id, pid) || Sold(vs', id, pid) ==> id in vs && id in vs' && vs[id] == vs'[id]
    ensures IsRange(vs', pid, base, options, from, to)
  {
    assert forall id :: Sold(vs, id, pid) <==> Sold(vs', id, pid);
    if options != 0 && exists id :: Sold(vs, id, pid) {
      var a :| Sold(vs, a, pid) && Effective(vs[a], base) == from;
      var b :| Sold(vs, b, pid) && Effective(vs[b], base) == to;
      assert Sold(vs', a, pid) && Sold(vs', b, pid);
    }
  }

  /** A price an active variant sells at: its own, or the product's when it has none of its own. */
  predicate SellsAt(v: Variant, base: int, price: int) {
    v.priceOverride == Some(price) || (v.priceOverride.None? && price == base)
  }

  /** In terms of the variants' own prices: the ends of the range are prices something sells at, and everything sells within them. */
  lemma RangeOfPrices(vs: Variants, pid: nat, base: int, options: nat, from: int, to: int)
    requires options != 0 && exists id :: Sold(vs, id, pid)
    ensures IsRange(vs, pid, base, options, from, to) <==>
      && (exists id :: Sold(vs, id, pid) && SellsAt(vs[id], base, from))
      && (exists id :: Sold(vs, id, pid) && SellsAt(vs[id], base, to))
      && (forall id, price :: Sold(vs, id, pid) && SellsAt(vs[id], base, price) ==> from <= price <= to)
  {
    assert forall id, price :: Sold(vs, id, pid) && SellsAt(vs[id], base, price) ==> price == Effective(vs[id], base);
    if forall id, price :: Sold(vs, id, pid) && SellsAt(vs[id], base, price) ==> from <= price <= to {
      forall id | Sold(vs, id, pid)
        ensures from <= Effective(vs[id], base) <= to
      {
        assert SellsAt(vs[id], base, Effective(vs[id], base));
      }
    }
  }

  /** The aggregate over the product's active variants. */
  method ProductPriceRange(vs: Variants, pid: nat, base: int, options: nat) returns (from: int, to: int)
    ensures IsRange(vs, pid, base, options, from, to)
  {
    from, to := base, base;
    if options == 0 {
      return;
    }
    var rest, any := vs.Keys, false;
    while rest != {}
      invariant rest <= vs.Keys
      invariant !any ==> from == base && to == base && forall id :: Sold(vs, id, pid) ==> id in rest
      invariant any ==> exists id :: Sold(vs, id, pid) && Effective(vs[id], base) == from
      invariant any ==> exists id :: Sold(vs, id, pid) && Effective(vs[id], base) == to
      invariant any ==> forall id :: Sold(vs, id, pid) && id !in rest ==> from <= Effective(vs[id], base) <= to
      decreases |rest|
    {
      var id :| id in rest;
      rest := rest - {id};
      if vs[id].product == pid && vs[id].active {
        var price := Effective(vs[id], base);
        assert Sold(vs, id, pid);
        from := if !any || price < from then price else from;
        to := if !any || price > to then price else to;
        any := true;
      }
    }
  }

  ghost predicate InSync(ps: Products, vs: Variants) {
    forall pid :: pid in ps ==> IsRange(vs, pid, ps[pid].price, ps[pid].options, ps[pid].from, ps[pid].to)
  }

  /** The variants of other products do not matter to this one. */
  lemma OtherProductsKeep(ps: Products, vs: Variants, ps': Products, vs': Variants, pid: nat)
    requires InSync(ps, vs) && ps'.Keys == ps.Keys
    requires forall q :: q in ps && q != pid ==> ps'[q] == ps[q]
    requires forall id, q :: q != pid && (Sold(vs, id, q) || Sold(vs', id, q)) ==> id in vs && id in vs' && vs[id] == vs'[id]
    requires pid in ps' ==> IsRange(vs', pid, ps'[pid].price, ps'[pid].options, ps'[pid].from, ps'[pid].to)
    ensures InSync(ps', vs')
  {
    forall q | q in ps' && q != pid ensures IsRange(vs', q, ps'[q].price, ps'[q].options, ps'[q].from, ps'[q].to) {
      RangeOfOthers(vs, vs', q, ps[q].price, ps[q].options, ps[q].from, ps[q].to);
    }
  }

  predicate OnlyVariant(vs: Variants, vs': Variants, id: nat, pid: nat) {
    && (forall j :: j in vs && j != id ==> j in vs' && vs'[j] == vs[j])
    && (forall j :: j in vs' && j != id ==> j in vs)
    && (id in vs ==> vs[id].product == pid) && (id in vs' ==> vs'[id].product == pid)
  }

  /** Every variant is one of a product with options. */
  ghost predicate Placed(ps: Products, vs: Variants) {
    forall id :: id in vs ==> vs[id].product in ps && ps[vs[id].product].options >= 1
  }

  /** Only this product's range may have changed. */
  predicate OnlyProduct(ps: Products, ps': Products, pid: nat) {
    && pid in ps && ps' == ps[pid := if pid in ps' then ps'[pid] else ps[pid]]
    && ps'[pid].options == ps[pid].options
  }

  lemma PlacedKeeps(ps: Products, vs: Variants, ps': Products, vs': Variants, pid: nat, id: nat)
    requires Placed(ps, vs) && OnlyProduct(ps, ps', pid) && OnlyVariant(vs, vs', id, pid)
    requires ps[pid].options >= 1
    ensures Placed(ps', vs')
  {
  }

  /** A change of one variant concerns its own product only. */
  lemma OneVariantKeeps(ps: Products, vs: Variants, ps': Products, vs': Variants, pid: nat, id: nat)
    requires InSync(ps, vs) && Placed(ps, vs) && OnlyProduct(ps, ps', pid) && OnlyVariant(vs, vs', id, pid)
    requires ps[pid].options >= 1
    requires IsRange(vs', pid, ps'[pid].price, ps'[pid].options, ps'[pid].from, ps'[pid].to)
    ensures InSync(ps', vs') && Placed(ps', vs')
  {
    hide IsRange, Placed;
    OtherProductsKeep(ps, vs, ps', vs', pid);
    PlacedKeeps(ps, vs, ps', vs', pid, id);
  }

  class PriceTables {
    var products: Products
    var variants: Variants

    ghost predicate Current()
      reads this
    {
      InSync(products, variants) && Placed(products, variants)
    }

    constructor ()
      ensures Current() && products == map[] && variants == map[]
    {
      products, variants := map[], map[];
    }

    /** A new product has no variants yet; the trigger gives it its own price as range. */
    method InsertProduct(pid: nat, price: int, options: nat) returns (ok: bool)
      requires Current()
      modifies this
      ensures Current()
      ensures ok <==> pid !in old(products) && price > 0 && options <= 3
      ensures variants == old(variants) && products == if ok then old(products)[pid := Product(price, options, price, price)] else old(products)
    {
      if pid in products || price <= 0 || options > 3 {
        return false;
      }
      var from, to := ProductPriceRange(variants, pid, price, options);
      products := products[pid := Product(price, options, from, to)];
      ok := true;
      forall q | q in products ensures IsRange(variants, q, products[q].price, products[q].options, products[q].from, products[q].to) {
        assert q != pid ==> q in old(products);
      }
    }

    /** A product's price or option count: the option count is fixed while it has variants. */
    method UpdateProduct(pid: nat, price: int, options: nat) returns (ok: bool)
      requires Current()
      modifies this
      ensures Current()
      ensures ok ==> pid in old(products) && price > 0 && options <= 3
      ensures pid in old(products) && price > 0 && options <= 3 ==>
        (ok <==> options == old(products)[pid].options || forall id :: id in variants ==> variants[id].product != pid)
      ensures variants == old(variants)
      ensures !ok ==> products == old(products)
      ensures ok ==> pid in products && products == old(products)[pid := products[pid]] && products[pid].price == price && products[pid].options == options
    {
      if pid !in products || price <= 0 || options > 3 {
        return false;
      }
      if options != products[pid].options && exists id | id in variants :: variants[id].product == pid {
        return false;
      }
      var from, to := ProductPriceRange(variants, pid, price, options);
      products := products[pid := Product(price, options, from, to)];
      ok := true;
      OtherProductsKeep(old(products), variants, products, variants, pid);
    }

    /** The trigger after a variant of pid was inserted, changed or deleted. */
    method Summarise(pid: nat)
      requires pid in products
      modifies this`products
      ensures pid in products && products == old(products)[pid := products[pid]]
      ensures products[pid].price == old(products)[pid].price && products[pid].options == old(products)[pid].options
      ensures IsRange(variants, pid, products[pid].price, products[pid].options, products[pid].from, products[pid].to)
    {
      var from, to := ProductPriceRange(variants, pid, products[pid].price, products[pid].options);
      if (products[pid].from, products[pid].to) != (from, to) {
        products := products[pid := products[pid].(from := from, to := to)];
      }
    }

    /** A new variant needs a product with options and, if it has its own price, a positive one. */
    method InsertVariant(id: nat, v: Variant) returns (ok: bool)
      requires Current()
      modifies this
      ensures Current()
      ensures ok <==> (
        && id !in old(variants) && v.product in old(products) && old(products)[v.product].options >= 1
        && (v.priceOverride.None? || v.priceOverride.value > 0))
      ensures variants == if ok then old(variants)[id := v] else old(variants)
      ensures !ok ==> products == old(products)
      ensures ok ==> v.product in products && products == old(products)[v.product := products[v.product]] && products[v.product].price == old(products)[v.product].price
    {
      if id in variants || v.product !in products || products[v.product].options == 0 || (v.priceOverride.Some? && v.priceOverride.value <= 0) {
        return false;
      }
      variants := variants[id := v];
      Summarise(v.product);
      ok := true;
      OneVariantKeeps(old(products), old(variants), products, variants, v.product, id);
      hide IsRange, InSync, Placed;
    }

    /** A variant's price or status; its product stays the same. */
    method UpdateVariant(id: nat, priceOverride: Option<int>, active: bool) returns (ok: bool)
      requires Current()
      modifies this
      ensures Current()
      ensures ok <==> id in old(variants) && (priceOverride.Some? ==> priceOverride.value > 0)
      ensures variants == if ok then old(variants)[id := old(variants)[id].(priceOverride := priceOverride, active := active)] else old(variants)
      ensures !ok ==> products == old(products)
      ensures ok ==> var pid := variants[id].product; pid in products && products == old(products)[pid := products[pid]] && products[pid].price == old(products)[pid].price
    {
      if id !in variants || (priceOverride.Some? && priceOverride.value <= 0) {
        return false;
      }
      var pid := variants[id].product;
      assert pid in products && products[pid].options >= 1;
      variants := variants[id := variants[id].(priceOverride := priceOverride, active := active)];
      Summarise(pid);
      ok := true;
      OneVariantKeeps(old(products), old(variants), products, variants, pid, id);
      hide IsRange, InSync, Placed;
    }

    method DeleteVariant(id: nat) returns (ok: bool)
      requires Current()
      modifies this
      ensures Current()
      ensures ok <==> id in old(variants)
      ensures variants == old(variants) - {id}
      ensures !ok ==> products == old(products)
      ensures ok ==> var pid := old(variants)[id].product; pid in products && products == old(products)[pid := products[pid]] && products[pid].price == old(products)[pid].price
    {
      if id !in variants {
        return false;
      }
      var pid := variants[id].product;
      assert pid in products && products[pid].options >= 1;
      variants := variants - {id};
      Summarise(pid);
      ok := true;
      OneVariantKeeps(old(products), old(variants), products, variants, pid, id);
      hide IsRange, InSync, Placed;
    }
  }

  // ------------------------------------------------------------ what the triggers do not cover

  /** The back-fill of the migration sets both ends to the product's own price. */
  function Backfilled(p: Product): Product {
    p.(from := p.price, to := p.price)
  }

  /** The back-fill is right exactly for products without options and for products whose active variants all sell at its own price. */
  lemma BackfillRight(vs: Variants, pid: nat, p: Product)
    ensures IsRange(vs, pid, p.price, p.options, Backfilled(p).from, Backfilled(p).to)
      <==> p.options == 0 || forall id :: Sold(vs, id, pid) ==> Effective(vs[id], p.price) == p.price
  {
    if p.options != 0 && (forall id :: Sold(vs, id, pid) ==> Effective(vs[id], p.price) == p.price) && exists id :: Sold(vs, id, pid) {
      var id :| Sold(vs, id, pid);
      assert Effective(vs[id], p.price) == p.price;
    }
  }

  /** A product with one active variant at another price when the back-fill ran has the wrong range. */
  lemma BackfillCanBeWrong()
    ensures !IsRange(map[5 := Variant(1, Some(80), true)], 1, 100, 1, 100, 100)
  {
    assert Sold(map[5 := Variant(1, Some(80), true)], 5, 1);
  }

  // ------------------------------------------------------------ a variant moved to another product

  /**
   Moving a variant fires no summary.  The real update also gives it option values of the product it moves to, which no range depends on.
   */
  function Moved(vs: Variants, id: nat, qid: nat): Variants
    requires id in vs
  {
    vs[id := vs[id].(product := qid)]
  }

  /** Active variants of the product other than this one. */
  predicate SoldBeside(vs: Variants, id: nat, j: nat, pid: nat) {
    j != id && Sold(vs, j, pid)
  }

  /** Without the variant the product still sells at both ends of its range. */
  ghost predicate MayLeave(vs: Variants, id: nat, pid: nat, p: Product)
    requires id in vs
  {
    || !vs[id].active || p.options == 0
    || (if exists j :: SoldBeside(vs, id, j, pid) then
          && (exists j :: SoldBeside(vs, id, j, pid) && Effective(vs[j], p.price) == p.from)
          && (exists j :: SoldBeside(vs, id, j, pid) && Effective(vs[j], p.price) == p.to)
        else Effective(vs[id], p.price) == p.price)
  }

  /** The variant's price at its new product lies within that product's range. */
  ghost predicate MayJoin(vs: Variants, id: nat, qid: nat, q: Product)
    requires id in vs
  {
    || !vs[id].active || q.options == 0
    || (if exists j :: Sold(vs, j, qid) then q.from <= Effective(vs[id], q.price) <= q.to else Effective(vs[id], q.price) == q.price)
  }

  lemma LeaveExactly(vs: Variants, id: nat, qid: nat, p: Product)
    requires id in vs && vs[id].product != qid && IsRange(vs, vs[id].product, p.price, p.options, p.from, p.to)
    ensures IsRange(Moved(vs, id, qid), vs[id].product, p.price, p.options, p.from, p.to) <==> MayLeave(vs, id, vs[id].product, p)
  {
    var vs', pid := Moved(vs, id, qid), vs[id].product;
    assert forall j :: Sold(vs', j, pid) <==> SoldBeside(vs, id, j, pid);
    assert forall j :: SoldBeside(vs, id, j, pid) ==> vs'[j] == vs[j];
    if !vs[id].active {
      assert forall j :: Sold(vs, j, pid) <==> SoldBeside(vs, id, j, pid);
      RangeOfOthers(vs, vs', pid, p.price, p.options, p.from, p.to);
    } else if p.options != 0 {
      assert Sold(vs, id, pid);
      if exists j :: SoldBeside(vs, id, j, pid) {
        LeaveOthers(vs, id, qid, p);
      } else {
        assert forall j :: Sold(vs, j, pid) ==> j == id;
        var a :| Sold(vs, a, pid) && Effective(vs[a], p.price) == p.from;
        var b :| Sold(vs, b, pid) && Effective(vs[b], p.price) == p.to;
      }
    }
  }

  lemma LeaveOthers(vs: Variants, id: nat, qid: nat, p: Product)
    requires id in vs && vs[id].product != qid && IsRange(vs, vs[id].product, p.price, p.options, p.from, p.to)
    requires vs[id].active && p.options != 0 && exists j :: SoldBeside(vs, id, j, vs[id].product)
    ensures IsRange(Moved(vs, id, qid), vs[id].product, p.price, p.options, p.from, p.to) <==> MayLeave(vs, id, vs[id].product, p)
  {
    var vs', pid := Moved(vs, id, qid), vs[id].product;
    assert forall j :: Sold(vs', j, pid) <==> SoldBeside(vs, id, j, pid);
    assert forall j :: SoldBeside(vs, id, j, pid) ==> vs'[j] == vs[j] && Sold(vs, j, pid);
    assert Sold(vs, id, pid);
    var k :| SoldBeside(vs, id, k, pid);
    assert Sold(vs', k, pid);
    if IsRange(vs', pid, p.price, p.options, p.from, p.to) {
      var a :| Sold(vs', a, pid) && Effective(vs'[a], p.price) == p.from;
      var b :| Sold(vs', b, pid) && Effective(vs'[b], p.price) == p.to;
      assert SoldBeside(vs, id, a, pid) && SoldBeside(vs, id, b, pid);
    }
    if MayLeave(vs, id, pid, p) {
      var a :| SoldBeside(vs, id, a, pid) && Effective(vs[a], p.price) == p.from;
      var b :| SoldBeside(vs, id, b, pid) && Effective(vs[b], p.price) == p.to;
      assert Sold(vs', a, pid) && Sold(vs', b, pid);
    }
  }

  lemma JoinExactly(vs: Variants, id: nat, qid: nat, q: Product)
    requires id in vs && vs[id].product != qid && IsRange(vs, qid, q.price, q.options, q.from, q.to)
    ensures IsRange(Moved(vs, id, qid), qid, q.price, q.options, q.from, q.to) <==> MayJoin(vs, id, qid, q)
  {
    var vs' := Moved(vs, id, qid);
    assert forall j :: j != id ==> (Sold(vs', j, qid) <==> Sold(vs, j, qid));
    assert forall j :: Sold(vs, j, qid) ==> j != id && vs'[j] == vs[j];
    assert Sold(vs', id, qid) <==> vs[id].active;
    if vs[id].active && exists j :: Sold(vs, j, qid) && q.options != 0 {
      if q.options != 0 {
        var a :| Sold(vs, a, qid) && Effective(vs[a], q.price) == q.from;
        var b :| Sold(vs, b, qid) && Effective(vs[b], q.price) == q.to;
        assert Sold(vs', a, qid) && Sold(vs', b, qid);
      }
    }
  }

  /** Moving a variant leaves every range right exactly when its old product can spare it and its new product's range covers it. */
  lemma MoveExactly(ps: Products, vs: Variants, id: nat, qid: nat)
    requires InSync(ps, vs) && id in vs && vs[id].product in ps && qid in ps && vs[id].product != qid
    ensures InSync(ps, Moved(vs, id, qid))
      <==> MayLeave(vs, id, vs[id].product, ps[vs[id].product]) && MayJoin(vs, id, qid, ps[qid])
  {
    var vs', pid := Moved(vs, id, qid), vs[id].product;
    LeaveExactly(vs, id, qid, ps[pid]);
    JoinExactly(vs, id, qid, ps[qid]);
    forall r | r in ps && r != pid && r != qid
      ensures IsRange(vs', r, ps[r].price, ps[r].options, ps[r].from, ps[r].to)
    {
      RangeOfOthers(vs, vs', r, ps[r].price, ps[r].options, ps[r].from, ps[r].to);
    }
    hide IsRange, MayLeave, MayJoin;
  }

  /** The excluded case occurs: a product keeps a range that it no longer sells at. */
  lemma MovedVariantLeavesStaleRange()
    ensures var ps := map[1 := Product(100, 1, 80, 80), 2 := Product(100, 1, 100, 100)];
      && InSync(ps, map[5 := Variant(1, Some(80), true)])
      && !InSync(ps, map[5 := Variant(2, Some(80), true)])
  {
    var vs, moved := map[5 := Variant(1, Some(80), true)], map[5 := Variant(2, Some(80), true)];
    assert Sold(vs, 5, 1) && Sold(moved, 5, 2);
    assert forall id :: !Sold(vs, id, 2) && !Sold(moved, id, 1);
    assert IsRange(vs, 1, 100, 1, 80, 80) && IsRange(vs, 2, 100, 1, 100, 100);
    assert !IsRange(moved, 1, 100, 1, 80, 80);
    var ps := map[1 := Product(100, 1, 80, 80), 2 := Product(100, 1, 100, 100)];
    assert 1 in ps && ps[1] == Product(100, 1, 80, 80);
  }
}
