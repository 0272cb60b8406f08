/** The text a cart's fingerprint is taken of. */
module CartDigest {
  import opened Digits
  import opened Texts
  import opened Options

  datatype Line = Line(product: int, variant: Option<int>, quantity: int)

  /** What of a line counts: no variant and variant 0 are the same. */
  datatype Key = Key(product: int, variant: int, quantity: int)

  function KeyOf(l: Line): Key {
    Key(l.product, if l.variant.Some? then l.variant.value else 0, l.quantity)
  }

  function Printed(n: int): string {
    if n < 0 then ['-'] + Decimal(0 - n) else Decimal(n)
  }

  function KeyText(k: Key): string {
    Printed(k.product) + [':'] + Printed(k.variant) + [':'] + Printed(k.quantity)
  }

  function Map<A, B>(f: A -> B, xs: seq<A>): (ys: seq<B>)
    ensures |ys| == |xs| && forall i :: 0 <= i < |xs| ==> ys[i] == f(xs[i])
  {
    seq(|xs|, i requires 0 <= i < |xs| => f(xs[i]))
  }

  // ------------------------------------------------------------ sorting

  /** Texts in the order of their characters; a text comes before its extensions. */
  predicate AtMost(s: string, t: string) {
    s == "" || (t != "" && (s[0] < t[0] || (s[0] == t[0] && AtMost(s[1..], t[1..]))))
  }

  function Insert(x: string, s: seq<string>): seq<string> {
    if s == [] || AtMost(x, s[0]) then [x] + s else [s[0]] + Insert(x, s[1..])
  }

  function Sort(s: seq<string>): seq<string> {
    if s == [] then [] else Insert(s[0], Sort(s[1..]))
  }

  predicate IsSorted(s: seq<string>) {
    forall i, j :: 0 <= i < j < |s| ==> AtMost(s[i], s[j])
  }

  function LineTexts(lines: seq<Line>): seq<string> {
    Map(l => KeyText(KeyOf(l)), lines)
  }

  function DigestText(lines: seq<Line>): string {
    Join(Sort(LineTexts(lines)), '|')
  }

  lemma {:induction false} AtMostTotal(s: string, t: string)
    ensures AtMost(s, t) || AtMost(t, s)
    ensures AtMost(s, t) && AtMost(t, s) ==> s == t
  {
    if s != "" && t != "" {
      AtMostTotal(s[1..], t[1..]);
      assert s == [s[0]] + s[1..] && t == [t[0]] + t[1..];
    }
  }

  lemma {:induction false} AtMostTransitive(s: string, t: string, u: string)
    requires AtMost(s, t) && AtMost(t, u)
    ensures AtMost(s, u)
  {
    if s != "" && s[0] == t[0] == u[0] {
      AtMostTransitive(s[1..], t[1..], u[1..]);
    }
  }

  lemma {:induction false} InsertSorts(x: string, s: seq<string>)
    requires IsSorted(s)
    ensures IsSorted(Insert(x, s)) && multiset(Insert(x, s)) == multiset(s) + multiset{x}
    decreases |s|
  {
    if s == [] {
    } else if AtMost(x, s[0]) {
      forall j | 0 <= j < |s|
        ensures AtMost(x, s[j])
      {
        if j > 0 {
          AtMostTransitive(x, s[0], s[j]);
        }
      }
    } else {
      var rest := Insert(x, s[1..]);
      InsertSorts(x, s[1..]);
      AtMostTotal(x, s[0]);
      assert s == [s[0]] + s[1..];
      forall j | 0 <= j < |rest|
        ensures AtMost(s[0], rest[j])
      {
        assert rest[j] in multiset(rest);
        assert rest[j] == x || rest[j] in s[1..];
      }
    }
    hide AtMost;
  }

  lemma {:induction false} SortSorts(s: seq<string>)
    ensures IsSorted(Sort(s)) && multiset(Sort(s)) == multiset(s)
    decreases |s|
  {
    if s != [] {
      SortSorts(s[1..]);
      InsertSorts(s[0], Sort(s[1..]));
      assert s == [s[0]] + s[1..];
    }
    hide Insert, AtMost;
  }

  /** Two sorted lists of the same texts are the same list. */
  lemma {:induction false} SortedUnique(a: seq<string>, b: seq<string>)
    requires IsSorted(a) && IsSorted(b) && multiset(a) == multiset(b)
    ensures a == b
    decreases |a|
  {
    assert |multiset(a)| == |a| && |multiset(b)| == |b|;
    if a != [] {
      assert a[0] in multiset(b) && b[0] in multiset(a);
      FirstLeast(a, b[0]);
      FirstLeast(b, a[0]);
      AtMostTotal(a[0], b[0]);
      assert a == [a[0]] + a[1..] && b == [b[0]] + b[1..];
      TakeFirst(a);
      TakeFirst(b);
      SortedRest(a);
      SortedRest(b);
      SortedUnique(a[1..], b[1..]);
    }
    hide AtMost, IsSorted;
  }

  lemma SortedRest(a: seq<string>)
    requires IsSorted(a) && a != []
    ensures IsSorted(a[1..])
  {
    hide AtMost;
  }

  lemma FirstLeast(a: seq<string>, x: string)
    requires IsSorted(a) && x in a
    ensures AtMost(a[0], x)
  {
    AtMostTotal(x, x);
    hide AtMost;
  }

  // ------------------------------------------------------------ lists that hold the same things

  lemma TakeOut<A>(ys: seq<A>, i: nat)
    requires i < |ys|
    ensures multiset(ys) == multiset{ys[i]} + multiset(ys[..i] + ys[i + 1..])
  {
    assert ys == ys[..i] + [ys[i]] + ys[i + 1..];
  }

  lemma TakeFirst<A>(xs: seq<A>)
    requires xs != []
    ensures multiset(xs[1..]) == multiset(xs) - multiset{xs[0]}
  {
    assert xs == [xs[0]] + xs[1..];
  }

  lemma SameWithout<A>(xs: seq<A>, ys: seq<A>, i: nat)
    requires multiset(xs) == multiset(ys) && xs != [] && i < |ys| && ys[i] == xs[0]
    ensures multiset(xs[1..]) == multiset(ys[..i] + ys[i + 1..])
  {
    TakeFirst(xs);
    TakeOut(ys, i);
    assert multiset(ys[..i] + ys[i + 1..]) == multiset(ys) - multiset{ys[i]};
  }

  lemma MapWithout<A, B>(f: A -> B, ys: seq<A>, i: nat)
    requires i < |ys|
    ensures multiset(Map(f, ys)) == multiset{f(ys[i])} + multiset(Map(f, ys[..i] + ys[i + 1..]))
  {
    var zs := Map(f, ys);
    TakeOut(zs, i);
    assert Map(f, ys[..i] + ys[i + 1..]) == zs[..i] + zs[i + 1..];
  }

  lemma MapFirst<A, B>(f: A -> B, xs: seq<A>)
    requires xs != []
    ensures multiset(Map(f, xs)) == multiset{f(xs[0])} + multiset(Map(f, xs[1..]))
  {
    assert Map(f, xs) == [f(xs[0])] + Map(f, xs[1..]);
    hide Map;
  }

  lemma Matching<A, B>(f: A -> B, xs: seq<A>, ys: seq<A>) returns (others: seq<A>)
    requires multiset(xs) == multiset(ys) && xs != []
    ensures multiset(xs[1..]) == multiset(others)
    ensures multiset(Map(f, ys)) == multiset{f(xs[0])} + multiset(Map(f, others))
  {
    assert xs[0] in multiset(ys);
    var i :| 0 <= i < |ys| && ys[i] == xs[0];
    others := ys[..i] + ys[i + 1..];
    SameWithout(xs, ys, i);
    MapWithout(f, ys, i);
    hide Map;
  }

  lemma {:induction false} MapKeeps<A, B>(f: A -> B, xs: seq<A>, ys: seq<A>)
    requires multiset(xs) == multiset(ys)
    ensures multiset(Map(f, xs)) == multiset(Map(f, ys))
    decreases |xs|
  {
    if xs == [] {
      assert |multiset(ys)| == 0;
    } else {
      var others := Matching(f, xs, ys);
      MapKeeps(f, xs[1..], others);
      MapFirst(f, xs);
      hide Map;
    }
  }

  // ------------------------------------------------------------ the text of one line

  lemma PrintedPieces(n: int)
    ensures Piece(Printed(n), ':') && Piece(Printed(n), '|')
  {
    hide Decimal, Parse;
    ParseDecimal(if n < 0 then 0 - n else n);
  }

  lemma PrintedDetermines(n: int, m: int)
    requires Printed(n) == Printed(m)
    ensures n == m
  {
    hide Decimal, Parse;
    ParseDecimal(if n < 0 then 0 - n else n);
    ParseDecimal(if m < 0 then 0 - m else m);
    if n < 0 {
      assert Printed(n)[0] == '-' && Printed(n)[1..] == Decimal(0 - n);
    }
    if m < 0 {
      assert Printed(m)[0] == '-' && Printed(m)[1..] == Decimal(0 - m);
    }
  }

  lemma KeyTextPiece(k: Key)
    ensures Piece(KeyText(k), '|')
  {
    PrintedPieces(k.product);
    PrintedPieces(k.variant);
    PrintedPieces(k.quantity);
    hide Printed;
  }

  lemma KeyTextDetermines(k: Key, m: Key)
    requires KeyText(k) == KeyText(m)
    ensures k == m
  {
    hide Printed;
    PrintedPieces(k.quantity);
    PrintedPieces(m.quantity);
    SplitAtLast(Printed(k.product) + [':'] + Printed(k.variant), Printed(k.quantity),
                Printed(m.product) + [':'] + Printed(m.variant), Printed(m.quantity), ':');
    PrintedPieces(k.variant);
    PrintedPieces(m.variant);
    SplitAtLast(Printed(k.product), Printed(k.variant), Printed(m.product), Printed(m.variant), ':');
    PrintedDetermines(k.product, m.product);
    PrintedDetermines(k.variant, m.variant);
    PrintedDetermines(k.quantity, m.quantity);
  }

  ghost function KeyRead(s: string): Key {
    if exists k :: KeyText(k) == s then var k :| KeyText(k) == s; k else Key(0, 0, 0)
  }

  lemma KeyReadText(k: Key)
    ensures KeyRead(KeyText(k)) == k
  {
    hide KeyText;
    KeyTextDetermines(KeyRead(KeyText(k)), k);
  }

  function Keys(lines: seq<Line>): seq<Key> {
    Map(KeyOf, lines)
  }

  lemma TextsAreKeyTexts(lines: seq<Line>)
    ensures LineTexts(lines) == Map(KeyText, Keys(lines))
    ensures Keys(lines) == Map(KeyRead, LineTexts(lines))
  {
    hide KeyText, KeyOf, KeyRead;
    assert forall i :: 0 <= i < |lines| ==> LineTexts(lines)[i] == KeyText(KeyOf(lines[i]));
    forall i | 0 <= i < |lines|
      ensures Map(KeyRead, LineTexts(lines))[i] == Keys(lines)[i]
    {
      KeyReadText(KeyOf(lines[i]));
    }
  }

  /** How many lines hold this product, this variant (0 for none) and this quantity. */
  function Count(lines: seq<Line>, product: int, variant: int, quantity: int): nat {
    if lines == [] then 0
    else
      var l := lines[|lines| - 1];
      Count(lines[..|lines| - 1], product, variant, quantity)
      + if l.product == product && l.quantity == quantity && (l.variant == Some(variant) || (l.variant.None? && variant == 0)) then 1 else 0
  }

  lemma {:induction false} CountIsMultiplicity(lines: seq<Line>, product: int, variant: int, quantity: int)
    ensures Count(lines, product, variant, quantity) == multiset(Keys(lines))[Key(product, variant, quantity)]
  {
    if lines != [] {
      var front, last := lines[..|lines| - 1], lines[|lines| - 1];
      CountIsMultiplicity(front, product, variant, quantity);
      assert Keys(lines) == Keys(front) + [KeyOf(last)];
    }
  }

  /** As many lines of every product, variant and quantity. */
  ghost predicate SameCounts(a: seq<Line>, b: seq<Line>) {
    forall product, variant, quantity :: Count(a, product, variant, quantity) == Count(b, product, variant, quantity)
  }

  lemma CountsDecide(a: seq<Line>, b: seq<Line>)
    ensures multiset(Keys(a)) == multiset(Keys(b)) <==> SameCounts(a, b)
  {
    hide Keys, Count;
    if SameCounts(a, b) {
      forall k: Key
        ensures multiset(Keys(a))[k] == multiset(Keys(b))[k]
      {
        CountIsMultiplicity(a, k.product, k.variant, k.quantity);
        CountIsMultiplicity(b, k.product, k.variant, k.quantity);
      }
      assert multiset(Keys(a)) == multiset(Keys(b));
    } else {
      var product, variant, quantity :| Count(a, product, variant, quantity) != Count(b, product, variant, quantity);
      CountIsMultiplicity(a, product, variant, quantity);
      CountIsMultiplicity(b, product, variant, quantity);
    }
  }

  /**
   Two carts have the same digest text exactly when, for every product, variant and quantity, they have as many lines that hold it, in
   whatever order.
   */
  lemma DigestIsCanonical(a: seq<Line>, b: seq<Line>)
    ensures DigestText(a) == DigestText(b) <==> SameCounts(a, b)
  {
    hide SameCounts, DigestText, Keys;
    SameKeysSameText(a, b);
    CountsDecide(a, b);
  }

  lemma SameKeysSameText(a: seq<Line>, b: seq<Line>)
    ensures DigestText(a) == DigestText(b) <==> multiset(Keys(a)) == multiset(Keys(b))
  {
    hide KeyText, KeyOf, KeyRead, Sort, Join, Keys, IsSorted;
    TextsAreKeyTexts(a);
    TextsAreKeyTexts(b);
    SortSorts(LineTexts(a));
    SortSorts(LineTexts(b));
    assert DigestText(a) == Join(Sort(LineTexts(a)), '|') && DigestText(b) == Join(Sort(LineTexts(b)), '|');
    if DigestText(a) == DigestText(b) {
      SortedPieces(a);
      SortedPieces(b);
      JoinDetermines(Sort(LineTexts(a)), Sort(LineTexts(b)), '|');
      MapKeeps(KeyRead, LineTexts(a), LineTexts(b));
    }
    if multiset(Keys(a)) == multiset(Keys(b)) {
      MapKeeps(KeyText, Keys(a), Keys(b));
      SortedUnique(Sort(LineTexts(a)), Sort(LineTexts(b)));
    }
  }

  lemma SortedPieces(lines: seq<Line>)
    ensures forall i :: 0 <= i < |Sort(LineTexts(lines))| ==> Piece(Sort(LineTexts(lines))[i], '|')
  {
    hide KeyText, KeyOf, Sort, Piece;
    SortSorts(LineTexts(lines));
    var sorted := Sort(LineTexts(lines));
    forall i | 0 <= i < |sorted|
      ensures Piece(sorted[i], '|')
    {
      assert sorted[i] in multiset(LineTexts(lines));
      var j :| 0 <= j < |lines| && LineTexts(lines)[j] == sorted[i];
      KeyTextPiece(KeyOf(lines[j]));
    }
  }
}
