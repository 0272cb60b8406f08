/** Bringing a guest's cart into a user's cart, on the cart rows as they are changed in place. */
module CartMerge {
  import opened Options

  datatype Key = Key(product: nat, variant: Option<nat>)
  datatype Line = Line(key: Key, quantity: int, price: int)

  // ------------------------------------------------------------ lines as values

  predicate UniqueKeys(ls: seq<Line>) {
    forall i, j :: 0 <= i < j < |ls| ==> ls[i].key != ls[j].key
  }

  predicate HasKey(ls: seq<Line>, k: Key) {
    exists i :: 0 <= i < |ls| && ls[i].key == k
  }

  /** How many of one product or variant the lines hold together. */
  function Total(ls: seq<Line>, k: Key): int {
    if ls == [] then 0
    else Total(ls[..|ls| - 1], k) + if ls[|ls| - 1].key == k then ls[|ls| - 1].quantity else 0
  }

  function At(ls: seq<Line>, k: Key): (i: nat)
    requires HasKey(ls, k)
    ensures i < |ls| && ls[i].key == k
  {
    if ls[|ls| - 1].key == k then |ls| - 1
    else
      assert HasKey(ls[..|ls| - 1], k) by {
        var i :| 0 <= i < |ls| && ls[i].key == k;
        assert ls[..|ls| - 1][i].key == k;
      }
      At(ls[..|ls| - 1], k)
  }

  function AddLine(ls: seq<Line>, l: Line): seq<Line> {
    if HasKey(ls, l.key) then
      var i := At(ls, l.key);
      ls[i := ls[i].(quantity := ls[i].quantity + l.quantity)]
    else ls + [l]
  }

  function Merged(base: seq<Line>, incoming: seq<Line>): seq<Line> {
    if incoming == [] then base
    else AddLine(Merged(base, incoming[..|incoming| - 1]), incoming[|incoming| - 1])
  }

  // ------------------------------------------------------------ what merging conserves

  lemma AddLineUnique(ls: seq<Line>, l: Line)
    requires UniqueKeys(ls)
    ensures UniqueKeys(AddLine(ls, l))
    ensures forall k :: HasKey(AddLine(ls, l), k) <==> HasKey(ls, k) || k == l.key
  {
    var after := AddLine(ls, l);
    assert forall i :: 0 <= i < |ls| ==> after[i].key == ls[i].key;
    forall k
      ensures HasKey(after, k) <==> HasKey(ls, k) || k == l.key
    {
      if HasKey(ls, k) {
        var i :| 0 <= i < |ls| && ls[i].key == k;
        assert after[i].key == k;
      }
      if k == l.key && !HasKey(ls, k) {
        assert after[|ls|].key == k;
      }
    }
  }

  lemma {:induction false} ReplaceTotal(ls: seq<Line>, i: nat, l: Line, k: Key)
    requires i < |ls| && l.key == ls[i].key
    ensures Total(ls[i := l], k) == Total(ls, k) + if k == l.key then l.quantity - ls[i].quantity else 0
  {
    var n := |ls| - 1;
    if i == n {
      assert ls[i := l][..n] == ls[..n];
    } else {
      ReplaceTotal(ls[..n], i, l, k);
      assert ls[i := l][..n] == ls[..n][i := l];
    }
  }

  lemma AddLineTotal(ls: seq<Line>, l: Line, k: Key)
    ensures Total(AddLine(ls, l), k) == Total(ls, k) + if l.key == k then l.quantity else 0
  {
    if HasKey(ls, l.key) {
      var i := At(ls, l.key);
      ReplaceTotal(ls, i, ls[i].(quantity := ls[i].quantity + l.quantity), k);
    } else {
      assert (ls + [l])[..|ls|] == ls;
    }
    hide HasKey;
  }

  /** Every product or variant ends with exactly what both sides held of it, on one line. */
  lemma {:induction false} MergeConserves(base: seq<Line>, incoming: seq<Line>)
    requires UniqueKeys(base)
    ensures UniqueKeys(Merged(base, incoming))
    ensures forall k :: Total(Merged(base, incoming), k) == Total(base, k) + Total(incoming, k)
    ensures forall k :: HasKey(Merged(base, incoming), k) <==> HasKey(base, k) || HasKey(incoming, k)
  {
    hide AddLine;
    if incoming != [] {
      var front, last := incoming[..|incoming| - 1], incoming[|incoming| - 1];
      MergeConserves(base, front);
      AddLineUnique(Merged(base, front), last);
      forall k
        ensures Total(Merged(base, incoming), k) == Total(base, k) + Total(incoming, k)
      {
        AddLineTotal(Merged(base, front), last, k);
      }
      assert incoming == front + [last];
      forall k
        ensures HasKey(incoming, k) <==> HasKey(front, k) || k == last.key
      {
        if HasKey(front, k) {
          var i :| 0 <= i < |front| && front[i].key == k;
          assert incoming[i].key == k;
        }
        assert incoming[|front|].key == last.key;
      }
      hide Total, HasKey, UniqueKeys;
    }
  }

  /** Lines already in the cart keep their places and prices; a new line carries the price of the first line that brought it. */
  ghost predicate PricesKept(base: seq<Line>, incoming: seq<Line>, merged: seq<Line>) {
    && |base| <= |merged|
    && (forall i :: 0 <= i < |base| ==> merged[i].key == base[i].key && merged[i].price == base[i].price)
    && (forall i :: |base| <= i < |merged| ==> Brought(incoming, merged[i]))
  }

  predicate Brought(incoming: seq<Line>, l: Line) {
    exists m :: 0 <= m < |incoming| && FirstOf(incoming, m, l)
  }

  predicate FirstOf(incoming: seq<Line>, m: nat, l: Line)
    requires m < |incoming|
  {
    incoming[m].key == l.key && incoming[m].price == l.price && !HasKey(incoming[..m], l.key)
  }

  lemma FirstOfMore(front: seq<Line>, last: Line, m: nat, l: Line)
    requires m < |front| && FirstOf(front, m, l)
    ensures FirstOf(front + [last], m, l)
  {
    assert (front + [last])[..m] == front[..m];
    hide HasKey;
  }

  lemma FirstOfNew(front: seq<Line>, last: Line)
    requires !HasKey(front, last.key)
    ensures FirstOf(front + [last], |front|, last)
  {
    assert (front + [last])[..|front|] == front;
    hide HasKey;
  }

  /** One more incoming line keeps the prices. */
  lemma PricesStep(base: seq<Line>, front: seq<Line>, last: Line, before: seq<Line>)
    requires PricesKept(base, front, before)
    requires HasKey(front, last.key) ==> HasKey(before, last.key)
    ensures PricesKept(base, front + [last], AddLine(before, last))
  {
    hide HasKey;
    var after := AddLine(before, last);
    assert forall i :: 0 <= i < |before| ==> after[i].key == before[i].key && after[i].price == before[i].price;
    forall i | |base| <= i < |after|
      ensures Brought(front + [last], after[i])
    {
      if i < |before| {
        assert Brought(front, before[i]);
        var m :| 0 <= m < |front| && FirstOf(front, m, before[i]);
        FirstOfMore(front, last, m, before[i]);
        SamePlace(front + [last], m, before[i], after[i]);
      } else {
        FirstOfNew(front, last);
      }
    }
    hide AddLine, FirstOf;
  }

  lemma SamePlace(incoming: seq<Line>, m: nat, l: Line, l': Line)
    requires m < |incoming| && FirstOf(incoming, m, l) && l.key == l'.key && l.price == l'.price
    ensures FirstOf(incoming, m, l')
  {
    hide HasKey;
  }

  lemma {:induction false} MergeKeepsPrices(base: seq<Line>, incoming: seq<Line>)
    requires UniqueKeys(base)
    ensures PricesKept(base, incoming, Merged(base, incoming))
  {
    if incoming != [] {
      var front, last := incoming[..|incoming| - 1], incoming[|incoming| - 1];
      MergeKeepsPrices(base, front);
      MergeConserves(base, front);
      PricesStep(base, front, last, Merged(base, front));
      assert incoming == front + [last];
    }
    hide UniqueKeys, HasKey, Total, FirstOf, AddLine;
  }

  /** Merging into an empty cart, and handing the guest's cart over, come to the same lines. */
  lemma {:induction false} MergeIntoEmpty(guest: seq<Line>)
    requires UniqueKeys(guest)
    ensures Merged([], guest) == guest
  {
    if guest != [] {
      var front, last := guest[..|guest| - 1], guest[|guest| - 1];
      MergeIntoEmpty(front);
      assert guest == front + [last];
      forall i | 0 <= i < |front|
        ensures front[i].key != last.key
      {
        assert guest[i].key != guest[|front|].key;
      }
    }
  }

  function NewKeys(base: seq<Line>, incoming: seq<Line>): set<Key> {
    set i | 0 <= i < |incoming| && !HasKey(base, incoming[i].key) :: incoming[i].key
  }

  /** A merge adds one line for each key the cart did not hold, with no upper limit on lines. */
  lemma {:induction false} MergedSize(base: seq<Line>, incoming: seq<Line>)
    requires UniqueKeys(base)
    ensures |Merged(base, incoming)| == |base| + |NewKeys(base, incoming)|
  {
    hide HasKey, UniqueKeys, Total, NewKeys;
    if incoming == [] {
      NoNewKeys(base);
    } else {
      var front, last := incoming[..|incoming| - 1], incoming[|incoming| - 1];
      MergedSize(base, front);
      MergeConserves(base, front);
      NewKeysStep(base, incoming);
      AddedLength(Merged(base, front), last);
      if HasKey(base, last.key) {
        assert NewKeys(base, incoming) == NewKeys(base, front);
      } else if HasKey(front, last.key) {
        assert NewKeys(base, incoming) == NewKeys(base, front);
      } else {
        assert |NewKeys(base, front) + {last.key}| == |NewKeys(base, front)| + 1;
      }
      hide AddLine;
    }
  }

  lemma NoNewKeys(base: seq<Line>)
    ensures NewKeys(base, []) == {}
  {
  }

  lemma AddedLength(ls: seq<Line>, l: Line)
    ensures |AddLine(ls, l)| == |ls| + if HasKey(ls, l.key) then 0 else 1
  {
  }

  lemma NewKeysStep(base: seq<Line>, incoming: seq<Line>)
    requires incoming != []
    ensures var front, last := incoming[..|incoming| - 1], incoming[|incoming| - 1];
      && NewKeys(base, incoming) == NewKeys(base, front) + (if HasKey(base, last.key) then {} else {last.key})
      && (last.key in NewKeys(base, front) <==> !HasKey(base, last.key) && HasKey(front, last.key))
  {
    var front, last := incoming[..|incoming| - 1], incoming[|incoming| - 1];
    assert forall i :: 0 <= i < |front| ==> incoming[i] == front[i];
    forall k
      ensures k in NewKeys(base, incoming) <==> k in NewKeys(base, front) || (!HasKey(base, last.key) && k == last.key)
    {
      if k in NewKeys(base, front) {
        var i :| 0 <= i < |front| && front[i].key == k;
        assert incoming[i].key == k;
      }
      if k == last.key {
        assert incoming[|front|].key == k;
      }
    }
  }

  // ------------------------------------------------------------ rows that are changed in place

  class CartItem {
    const key: Key
    var quantity: int
    var price: int

    constructor (key: Key, quantity: int, price: int)
      ensures this.key == key && this.quantity == quantity && this.price == price
    {
      this.key, this.quantity, this.price := key, quantity, price;
    }

    function Value(): Line
      reads this
    {
      Line(key, quantity, price)
    }
  }

  function Lines(items: seq<CartItem>): (ls: seq<Line>)
    reads items
    ensures |ls| == |items| && forall i :: 0 <= i < |items| ==> ls[i] == items[i].Value()
  {
    seq(|items|, i requires 0 <= i < |items| reads items => items[i].Value())
  }

  predicate Distinct(items: seq<CartItem>) {
    forall i, j :: 0 <= i < j < |items| ==> items[i] != items[j]
  }

  /** The index of a cart's rows by product and variant. */
  ghost predicate IndexOf(byLine: map<Key, CartItem>, items: seq<CartItem>)
    reads items
  {
    && (forall k :: k in byLine <==> HasKey(Lines(items), k))
    && (forall k :: k in byLine ==> byLine[k] in items && byLine[k].key == k)
  }

  lemma OnlyAt(ls: seq<Line>, i: nat)
    requires UniqueKeys(ls) && i < |ls|
    ensures HasKey(ls, ls[i].key) && At(ls, ls[i].key) == i
  {
    hide At;
  }

  method RaiseQuantity(rows: seq<CartItem>, byLine: map<Key, CartItem>, source: CartItem)
    requires Distinct(rows) && UniqueKeys(Lines(rows)) && IndexOf(byLine, rows) && source !in rows
    requires source.key in byLine
    modifies rows
    ensures Lines(rows) == AddLine(old(Lines(rows)), old(source.Value()))
    ensures IndexOf(byLine, rows)
  {
    hide HasKey, At;
    ghost var ls := Lines(rows);
    var existing := byLine[source.key];
    ghost var i :| 0 <= i < |rows| && rows[i] == existing;
    OnlyAt(ls, i);
    existing.quantity := existing.quantity + source.quantity;
    assert Lines(rows) == ls[i := ls[i].(quantity := ls[i].quantity + source.quantity)];
    SameKeys(ls, Lines(rows));
    hide Distinct, UniqueKeys;
  }

  method NewRow(rows: seq<CartItem>, byLine: map<Key, CartItem>, source: CartItem)
    returns (item: CartItem, byLine': map<Key, CartItem>)
    requires Distinct(rows) && IndexOf(byLine, rows) && source.key !in byLine
    ensures fresh(item) && byLine' == byLine[source.key := item]
    ensures Lines(rows + [item]) == AddLine(Lines(rows), source.Value())
    ensures Distinct(rows + [item]) && IndexOf(byLine', rows + [item])
  {
    hide HasKey, At;
    item := new CartItem(source.key, source.quantity, source.price);
    byLine' := byLine[source.key := item];
    assert Lines(rows + [item]) == Lines(rows) + [source.Value()];
    OneMoreKey(Lines(rows), source.Value());
  }

  /** One incoming line: its row in the cart grows, or a new row is added. */
  method MergeLine(rows: seq<CartItem>, byLine: map<Key, CartItem>, source: CartItem)
    returns (rows': seq<CartItem>, byLine': map<Key, CartItem>)
    requires Distinct(rows) && UniqueKeys(Lines(rows)) && IndexOf(byLine, rows) && source !in rows
    modifies rows
    ensures rows' == rows || exists item :: rows' == rows + [item] && fresh(item)
    ensures Lines(rows') == AddLine(old(Lines(rows)), old(source.Value()))
    ensures Distinct(rows') && IndexOf(byLine', rows')
  {
    hide IndexOf, AddLine, Lines, UniqueKeys, Distinct;
    if source.key in byLine {
      RaiseQuantity(rows, byLine, source);
      rows', byLine' := rows, byLine;
    } else {
      var item;
      item, byLine' := NewRow(rows, byLine, source);
      rows' := rows + [item];
    }
  }

  lemma SameKeys(a: seq<Line>, b: seq<Line>)
    requires |a| == |b| && forall k :: 0 <= k < |a| ==> a[k].key == b[k].key
    ensures forall k :: HasKey(a, k) <==> HasKey(b, k)
  {
    forall k
      ensures HasKey(a, k) <==> HasKey(b, k)
    {
      if HasKey(a, k) {
        var i :| 0 <= i < |a| && a[i].key == k;
        assert b[i].key == k;
      }
    }
  }

  lemma OneMoreKey(ls: seq<Line>, l: Line)
    ensures forall k :: HasKey(ls + [l], k) <==> HasKey(ls, k) || k == l.key
  {
    forall k
      ensures HasKey(ls + [l], k) <==> HasKey(ls, k) || k == l.key
    {
      if HasKey(ls, k) {
        var i :| 0 <= i < |ls| && ls[i].key == k;
        assert (ls + [l])[i].key == k;
      }
      assert (ls + [l])[|ls|].key == l.key;
    }
  }

  method IndexByLine(items: seq<CartItem>) returns (byLine: map<Key, CartItem>)
    ensures IndexOf(byLine, items)
  {
    byLine := map[];
    for n := 0 to |items|
      invariant IndexOf(byLine, items[..n])
    {
      byLine := byLine[items[n].key := items[n]];
      assert items[..n + 1] == items[..n] + [items[n]];
      assert Lines(items[..n + 1]) == Lines(items[..n]) + [items[n].Value()];
      OneMoreKey(Lines(items[..n]), items[n].Value());
    }
    assert items[..|items|] == items;
    hide HasKey;
  }

  /** Adds the quantities of `incoming` to rows of the cart, and creates the rows it lacks; the incoming rows are left alone. */
  method MergeItems(items: seq<CartItem>, incoming: seq<CartItem>) returns (rows: seq<CartItem>)
    requires Distinct(items) && UniqueKeys(Lines(items))
    requires forall i :: i in incoming ==> i !in items
    modifies items
    ensures items <= rows && forall i :: |items| <= i < |rows| ==> fresh(rows[i])
    ensures Distinct(rows)
    ensures Lines(rows) == Merged(old(Lines(items)), old(Lines(incoming)))
    ensures Lines(incoming) == old(Lines(incoming))
  {
    hide Total, HasKey, AddLine, UniqueKeys;
    ghost var base := Lines(items);
    ghost var brought := Lines(incoming);
    var byLine := IndexByLine(items);
    rows := items;
    for n := 0 to |incoming|
      invariant items <= rows && forall i :: |items| <= i < |rows| ==> fresh(rows[i])
      invariant Distinct(rows) && IndexOf(byLine, rows)
      invariant forall i :: 0 <= i < |incoming| ==> incoming[i] !in rows
      invariant forall i :: 0 <= i < |incoming| ==> incoming[i].Value() == brought[i]
      invariant Lines(rows) == Merged(base, brought[..n])
    {
      MergeConserves(base, brought[..n]);
      assert brought[..n + 1][..n] == brought[..n] && brought[..n + 1][n] == brought[n];
      rows, byLine := MergeLine(rows, byLine, incoming[n]);
      assert forall i :: 0 <= i < |incoming| ==> incoming[i].Value() == brought[i];
    }
    assert brought[..|incoming|] == brought;
  }

  // ------------------------------------------------------------ the carts of all customers

  /** A cart belongs to a user or to the holder of a guest token, never to both or neither. */
  datatype Owner = User(id: nat) | Guest(token: string)

  /** What a login does to everyone's carts. */
  function HandedOver(carts: map<Owner, seq<Line>>, user: nat, token: string): map<Owner, seq<Line>> {
    if Guest(token) !in carts then carts
    else
      var brought := carts[Guest(token)];
      (carts - {Guest(token)})[User(user) := if User(user) in carts then Merged(carts[User(user)], brought) else brought]
  }

  function LinesOf(carts: map<Owner, seq<Line>>, o: Owner): seq<Line> {
    if o in carts then carts[o] else []
  }

  /** After a login the user has all of both carts, the guest none, and nobody else's cart has changed. */
  lemma LoginConserves(carts: map<Owner, seq<Line>>, user: nat, token: string, o: Owner, k: Key)
    requires forall p :: p in carts ==> UniqueKeys(carts[p])
    ensures var after := HandedOver(carts, user, token);
      && UniqueKeys(LinesOf(after, o))
      && (o == User(user) ==> Total(LinesOf(after, o), k) == Total(LinesOf(carts, o), k) + Total(LinesOf(carts, Guest(token)), k))
      && (o == Guest(token) ==> o !in after)
      && (o != User(user) && o != Guest(token) ==> LinesOf(after, o) == LinesOf(carts, o))
  {
    if Guest(token) in carts && User(user) in carts {
      MergeConserves(carts[User(user)], carts[Guest(token)]);
    }
    hide Merged;
  }

  /** Handing a guest's cart over gives the lines that merging it into an empty cart would give. */
  lemma HandoverIsMerge(carts: map<Owner, seq<Line>>, user: nat, token: string)
    requires forall p :: p in carts ==> UniqueKeys(carts[p])
    requires User(user) !in carts && Guest(token) in carts
    ensures HandedOver(carts, user, token) == HandedOver(carts[User(user) := []], user, token)
  {
    MergeIntoEmpty(carts[Guest(token)]);
    assert carts[User(user) := []] - {Guest(token)} == (carts - {Guest(token)})[User(user) := []];
    hide Merged, UniqueKeys;
  }

  predicate Apart(a: seq<CartItem>, b: seq<CartItem>) {
    forall i, j :: 0 <= i < |a| && 0 <= j < |b| ==> a[i] != b[j]
  }

  predicate Inside(a: seq<CartItem>, rows: set<CartItem>) {
    forall i :: 0 <= i < |a| ==> a[i] in rows
  }

  ghost predicate Good(items: seq<CartItem>)
    reads items
  {
    Distinct(items) && UniqueKeys(Lines(items))
  }

  predicate Within(carts: map<Owner, seq<CartItem>>, rows: set<CartItem>) {
    forall o :: o in carts ==> Inside(carts[o], rows)
  }

  predicate Separate(carts: map<Owner, seq<CartItem>>) {
    forall o, p :: o in carts && p in carts && o != p ==> Apart(carts[o], carts[p])
  }

  /** Rows of its own may be added to one cart. */
  lemma PutApart(carts: map<Owner, seq<CartItem>>, rows: set<CartItem>, to: Owner, more: seq<CartItem>)
    requires Within(carts, rows) && Separate(carts) && to in carts && carts[to] <= more
    requires forall i :: |carts[to]| <= i < |more| ==> more[i] !in rows
    ensures Separate(carts[to := more]) && Within(carts[to := more], rows + set i | i in more)
  {
    hide Apart, Inside;
    forall o | o in carts && o != to
      ensures Apart(carts[o], more) && Apart(more, carts[o])
    {
      assert Apart(carts[o], carts[to]) && Inside(carts[o], rows);
      ApartMore(carts[o], carts[to], more, rows);
    }
    forall o | o in carts
      ensures Inside(carts[o], rows + set i | i in more)
    {
      InsideMore(carts[o], rows, set i | i in more);
    }
    AllInside(more, rows);
  }

  /** A cart may change its owner. */
  lemma MoveApart(carts: map<Owner, seq<CartItem>>, rows: set<CartItem>, from: Owner, to: Owner)
    requires Within(carts, rows) && Separate(carts) && from in carts && to !in carts
    ensures Separate((carts - {from})[to := carts[from]]) && Within((carts - {from})[to := carts[from]], rows)
  {
    hide Apart, Inside;
  }

  lemma ApartMore(a: seq<CartItem>, b: seq<CartItem>, more: seq<CartItem>, rows: set<CartItem>)
    requires Apart(a, b) && Inside(a, rows) && b <= more && forall i :: |b| <= i < |more| ==> more[i] !in rows
    ensures Apart(a, more) && Apart(more, a)
  {
  }

  lemma InsideMore(a: seq<CartItem>, rows: set<CartItem>, others: set<CartItem>)
    requires Inside(a, rows)
    ensures Inside(a, rows + others)
  {
  }

  lemma AllInside(a: seq<CartItem>, rows: set<CartItem>)
    ensures Inside(a, rows + set i | i in a)
  {
  }

  /** The carts by owner (an owner has at most one), each with its rows. */
  class CartTables {
    var carts: map<Owner, seq<CartItem>>
    ghost var rows: set<CartItem>

    constructor ()
      ensures Valid() && View() == map[]
    {
      carts := map[];
      rows := {};
    }

    ghost predicate Valid()
      reads this, rows
    {
      Within(carts, rows) && Separate(carts) && forall o :: o in carts ==> Good(carts[o])
    }

    ghost function View(): map<Owner, seq<Line>>
      requires Within(carts, rows)
      reads this, rows
    {
      map o | o in carts :: Lines(carts[o])
    }

    /** Merges the rows of one cart into those of another, and leaves every other cart's rows alone. */
    method MergeRows(to: Owner, from: Owner) returns (more: seq<CartItem>)
      requires Valid() && to in carts && from in carts && to != from
      modifies carts[to]
      ensures Good(more) && carts[to] <= more && Lines(more) == old(Merged(Lines(carts[to]), Lines(carts[from])))
      ensures forall i :: |carts[to]| <= i < |more| ==> fresh(more[i])
      ensures forall o :: o in carts && o != to ==> Lines(carts[o]) == old(Lines(carts[o])) && Good(carts[o])
    {
      hide Merged, UniqueKeys, Distinct, Lines;
      ghost var own, brought := carts[to], carts[from];
      MergeConserves(Lines(own), Lines(brought));
      assert Good(own) && Apart(brought, own);
      more := MergeItems(carts[to], carts[from]);
      forall o | o in carts && o != to
        ensures Lines(carts[o]) == old(Lines(carts[o])) && Good(carts[o])
      {
        assert Apart(carts[o], own) && old(Good(carts[o]));
        assert forall n :: 0 <= n < |carts[o]| ==> carts[o][n] !in own;
      }
      hide Within, Inside;
    }

    /** Rows that were put aside for a cart become its rows. */
    method PutRows(to: Owner, more: seq<CartItem>)
      requires Within(carts, rows) && Separate(carts) && to in carts && carts[to] <= more && Good(more)
      requires forall i :: |carts[to]| <= i < |more| ==> more[i] !in rows
      requires forall o :: o in carts && o != to ==> Good(carts[o])
      modifies this
      ensures Valid() && rows == old(rows) + set i | i in more
      ensures carts == old(carts)[to := more] && View() == old(View())[to := Lines(more)]
    {
      hide Good, Lines, Apart, Inside, Within, Separate;
      PutApart(carts, rows, to, more);
      rows := rows + set i | i in more;
      carts := carts[to := more];
    }

    method DeleteCart(o: Owner)
      requires Valid() && o in carts
      modifies this`carts
      ensures Valid() && View() == old(View()) - {o}
    {
      hide Good, Apart, Inside, Lines;
      carts := carts - {o};
    }

    /** Gives a guest's cart to a user who has none. */
    method ReassignToUser(user: nat, token: string)
      requires Valid() && Guest(token) in carts && User(user) !in carts
      modifies this`carts
      ensures Valid() && View() == (old(View()) - {Guest(token)})[User(user) := old(View()[Guest(token)])]
    {
      hide Good, Lines, Within, Separate;
      MoveApart(carts, rows, Guest(token), User(user));
      carts := (carts - {Guest(token)})[User(user) := carts[Guest(token)]];
    }

    method MergeGuestCartIntoUser(user: nat, token: string)
      requires Valid()
      modifies this, rows
      ensures Valid() && fresh(rows - old(rows))
      ensures View() == old(HandedOver(View(), user, token))
    {
      hide Good, Apart, Lines, Merged, Separate, HandedOver;
      ghost var before := View();
      HandedOverCases(before, user, token);
      if Guest(token) !in carts {
        return;
      }
      if User(user) !in carts {
        ReassignToUser(user, token);
        return;
      }
      assert Inside(carts[User(user)], rows);
      var more := MergeRows(User(user), Guest(token));
      assert View()[User(user) := Lines(more)] == before[User(user) := Lines(more)];
      PutRows(User(user), more);
      DeleteCart(Guest(token));
    }
  }

  lemma HandedOverCases(carts: map<Owner, seq<Line>>, user: nat, token: string)
    ensures Guest(token) !in carts ==> HandedOver(carts, user, token) == carts
    ensures Guest(token) in carts && User(user) !in carts ==>
      HandedOver(carts, user, token) == (carts - {Guest(token)})[User(user) := carts[Guest(token)]]
    ensures Guest(token) in carts && User(user) in carts ==>
      HandedOver(carts, user, token) == carts[User(user) := Merged(carts[User(user)], carts[Guest(token)])] - {Guest(token)}
  {
    hide Merged;
  }
}
