/** Amounts in figures, with Indian digit grouping, and a reader that gets the amount back. */
module Inr {
  import opened Digits
  import opened Texts
  import opened Options

  // ------------------------------------------------------------ the printer

  /** The digits before the last three, in groups of two from the right. */
  function Groups(head: string): seq<string> {
    if head == "" then [] else if |head| <= 2 then [head]
    else Groups(head[..|head| - 2]) + [head[|head| - 2..]]
  }

  function Grouped(digits: string): string {
    if |digits| <= 3 then digits
    else Join(Groups(digits[..|digits| - 3]) + [digits[|digits| - 3..]], ',')
  }

  function Magnitude(paise: int): nat {
    if paise < 0 then 0 - paise else paise
  }

  function Figures(paise: Option<int>): string {
    if paise.None? then ""
    else
      var m := Magnitude(paise.value);
      (if paise.value < 0 then "-" else "") + Grouped(Decimal(m / 100)) + ['.'] + Padded(m % 100, 2)
  }

  // ------------------------------------------------------------ the reader

  predicate IsMark(c: char) {
    c == '-' || c == ',' || c == '.'
  }

  /** The text without its sign, commas and dot. */
  function Erased(s: string): string {
    if s == "" then ""
    else if IsMark(s[|s| - 1]) then Erased(s[..|s| - 1])
    else Erased(s[..|s| - 1]) + [s[|s| - 1]]
  }

  function FiguresRead(s: string): int
    requires AllDigits(Erased(s))
  {
    if s != "" && s[0] == '-' then 0 - Parse(Erased(s)) else Parse(Erased(s))
  }

  lemma {:induction false} ErasedAppend(x: string, y: string)
    ensures Erased(x + y) == Erased(x) + Erased(y)
  {
    if y == "" {
      assert x + y == x;
    } else {
      ErasedAppend(x, y[..|y| - 1]);
      assert (x + y)[..|x + y| - 1] == x + y[..|y| - 1];
    }
  }

  lemma {:induction false} ErasedDigits(s: string)
    requires AllDigits(s)
    ensures Erased(s) == s
  {
    if s != "" {
      ErasedDigits(s[..|s| - 1]);
      assert IsDigit(s[|s| - 1]);
    }
  }

  lemma ErasedMark(c: char)
    requires IsMark(c)
    ensures Erased([c]) == ""
  {
    assert [c][..0] == "";
  }

  /** The groups of two, joined by commas. */
  function HeadText(head: string): string {
    if |head| <= 2 then head else HeadText(head[..|head| - 2]) + [','] + head[|head| - 2..]
  }

  lemma {:induction false} JoinGroups(head: string)
    requires head != ""
    ensures Groups(head) != [] && Join(Groups(head), ',') == HeadText(head)
  {
    if |head| > 2 {
      JoinGroups(head[..|head| - 2]);
      JoinLast(Groups(head[..|head| - 2]), head[|head| - 2..], ',');
    }
    hide Join;
  }

  lemma GroupedText(digits: string)
    requires |digits| > 3
    ensures Grouped(digits) == HeadText(digits[..|digits| - 3]) + [','] + digits[|digits| - 3..]
  {
    JoinGroups(digits[..|digits| - 3]);
    JoinLast(Groups(digits[..|digits| - 3]), digits[|digits| - 3..], ',');
    hide Join, Groups, HeadText;
  }

  lemma {:induction false} HeadErased(head: string)
    requires AllDigits(head)
    ensures Erased(HeadText(head)) == head
  {
    if |head| <= 2 {
      ErasedDigits(head);
    } else {
      var front, pair := head[..|head| - 2], head[|head| - 2..];
      HeadErased(front);
      CommaErased(HeadText(front), pair);
      assert head == front + pair;
    }
    hide Erased, IsDigit;
  }

  lemma CommaErased(x: string, digits: string)
    requires AllDigits(digits)
    ensures Erased(x + [','] + digits) == Erased(x) + digits
  {
    ErasedAppend(x + [','], digits);
    ErasedAppend(x, [',']);
    ErasedMark(',');
    ErasedDigits(digits);
    hide Erased, IsDigit;
  }

  lemma GroupedErased(digits: string)
    requires AllDigits(digits)
    ensures Erased(Grouped(digits)) == digits
  {
    if |digits| <= 3 {
      ErasedDigits(digits);
    } else {
      var front, tail := digits[..|digits| - 3], digits[|digits| - 3..];
      GroupedText(digits);
      HeadErased(front);
      CommaErased(HeadText(front), tail);
      assert digits == front + tail;
    }
    hide Erased, IsDigit, HeadText;
  }

  predicate CommaAt(s: string, r: nat)
    requires r < |s|
  {
    s[|s| - 1 - r] == ','
  }

  lemma NoComma(s: string, r: nat)
    requires AllDigits(s) && r < |s|
    ensures !CommaAt(s, r)
  {
    assert IsDigit(s[|s| - 1 - r]);
  }

  /** Where the commas of h, tail are: none in the tail, one before it, then those of h. */
  lemma CommaBefore(h: string, tail: string, r: nat)
    requires AllDigits(tail) && r < |h| + 1 + |tail|
    ensures CommaAt(h + [','] + tail, r) <==> r == |tail| || (r > |tail| && CommaAt(h, r - |tail| - 1))
  {
    var s := h + [','] + tail;
    if r < |tail| {
      assert s[|s| - 1 - r] == tail[|tail| - 1 - r];
      NoComma(tail, r);
    } else if r > |tail| {
      assert s[|s| - 1 - r] == h[|h| - 1 - (r - |tail| - 1)];
    }
    hide IsDigit;
  }

  lemma {:induction false} HeadPlaces(head: string, r: nat)
    requires AllDigits(head) && r < |HeadText(head)|
    ensures CommaAt(HeadText(head), r) <==> r % 3 == 2
  {
    if |head| <= 2 {
      NoComma(head, r);
    } else {
      var front, pair := head[..|head| - 2], head[|head| - 2..];
      CommaBefore(HeadText(front), pair, r);
      if r >= 3 {
        HeadPlaces(front, r - 3);
      }
    }
    hide CommaAt, IsDigit;
  }

  lemma EveryThird(r: nat)
    requires r >= 4
    ensures (r - 4) % 3 == 2 <==> r % 3 == 0
  {
  }

  /** Counted from the right, commas stand at the third place and then at every third one: groups of three, then of two digits. */
  lemma CommaPlaces(digits: string, r: nat)
    requires AllDigits(digits) && r < |Grouped(digits)|
    ensures CommaAt(Grouped(digits), r) <==> r > 0 && r % 3 == 0
  {
    if |digits| <= 3 {
      NoComma(digits, r);
    } else {
      var front, tail := digits[..|digits| - 3], digits[|digits| - 3..];
      GroupedText(digits);
      CommaBefore(HeadText(front), tail, r);
      if r >= 4 {
        HeadPlaces(front, r - 4);
        EveryThird(r);
      }
    }
    hide CommaAt, IsDigit, HeadText, Join, Groups;
  }

  /** Grouping puts no comma in front. */
  lemma FirstDigitFirst(digits: string)
    requires AllDigits(digits) && digits != ""
    ensures Grouped(digits) != "" && Grouped(digits)[0] == digits[0]
  {
    if |digits| > 3 {
      GroupedText(digits);
      HeadStart(digits[..|digits| - 3]);
    }
    hide HeadText, IsDigit;
  }

  lemma {:induction false} HeadStart(head: string)
    requires AllDigits(head) && head != ""
    ensures HeadText(head) != "" && HeadText(head)[0] == head[0]
  {
    if |head| > 2 {
      HeadStart(head[..|head| - 2]);
    }
  }

  // ------------------------------------------------------------ reading a printed amount

  lemma ErasedParts(sign: string, g: string, paisa: string)
    requires (sign == "" || sign == "-") && AllDigits(paisa)
    ensures Erased(sign + g + ['.'] + paisa) == Erased(g) + paisa
  {
    hide AllDigits;
    assert Erased("-") == "" by { ErasedMark('-'); }
    assert Erased("") == "";
    hide Erased;
    ErasedDigits(paisa);
    ErasedMark('.');
    ErasedAppend(sign + g + ['.'], paisa);
    ErasedAppend(sign + g, ['.']);
    ErasedAppend(sign, g);
  }

  lemma FiguresText(paise: int)
    ensures Erased(Figures(Some(paise))) == Decimal(Magnitude(paise) / 100) + Padded(Magnitude(paise) % 100, 2)
  {
    hide Erased, Grouped, Decimal, Padded, AllDigits, Parse;
    var m := Magnitude(paise);
    ParseDecimal(m / 100);
    ParsePadded(m % 100, 2);
    GroupedErased(Decimal(m / 100));
    ErasedParts(if paise < 0 then "-" else "", Grouped(Decimal(m / 100)), Padded(m % 100, 2));
  }

  lemma FiguresSign(paise: int)
    ensures Figures(Some(paise)) != "" && (Figures(Some(paise))[0] == '-' <==> paise < 0)
  {
    hide Grouped, Decimal, Padded, Parse;
    var rupees := Decimal(Magnitude(paise) / 100);
    ParseDecimal(Magnitude(paise) / 100);
    FirstDigitFirst(rupees);
    assert IsDigit(rupees[0]);
    if paise >= 0 {
      assert Figures(Some(paise))[0] == Grouped(rupees)[0] by {
        assert "" + Grouped(rupees) == Grouped(rupees);
      }
    }
  }

  /** Erasing the sign, commas and dot of any printed amount leaves its digits, and reading them gives the amount back. */
  lemma FiguresCanBeRead(paise: int)
    ensures AllDigits(Erased(Figures(Some(paise)))) && FiguresRead(Figures(Some(paise))) == paise
  {
    hide Figures, Decimal, Padded, AllDigits, Parse, Erased, Pow10, Magnitude;
    var m := Magnitude(paise);
    FiguresText(paise);
    FiguresSign(paise);
    ParseDecimal(m / 100);
    ParsePadded(m % 100, 2);
    ParseAppend(Decimal(m / 100), Padded(m % 100, 2));
    TwoPlaces(m % 100);
    WholeAndPart(m);
    MagnitudeIs(paise);
  }

  lemma WholeAndPart(m: nat)
    ensures m / 100 * 100 + m % 100 == m
  {
  }

  lemma MagnitudeIs(paise: int)
    ensures paise == if paise < 0 then 0 - Magnitude(paise) else Magnitude(paise)
  {
  }

  lemma TwoPlaces(n: nat)
    requires n < 100
    ensures |Padded(n, 2)| == 2 && Pow10(2) == 100
  {
    DecimalLength(n, 2);
    assert Pow10(2) == 100;
    hide Decimal;
  }

  /** Different amounts are printed differently, and no amount prints as the empty text of a missing one. */
  lemma FiguresAreInjective(p: Option<int>, q: Option<int>)
    requires Figures(p) == Figures(q)
    ensures p == q
  {
    if p.Some? && q.Some? {
      FiguresCanBeRead(p.value);
      FiguresCanBeRead(q.value);
    }
    hide FiguresRead, AllDigits, Grouped, Decimal, Padded;
  }

  // ------------------------------------------------------------ where the marks of a printed amount stand

  lemma {:induction false} HeadChars(head: string)
    requires AllDigits(head)
    ensures forall i :: 0 <= i < |HeadText(head)| ==> HeadText(head)[i] == ',' || IsDigit(HeadText(head)[i])
  {
    hide IsDigit;
    if |head| > 2 {
      HeadChars(head[..|head| - 2]);
    }
  }

  lemma GroupedChars(digits: string)
    requires AllDigits(digits)
    ensures forall i :: 0 <= i < |Grouped(digits)| ==> Grouped(digits)[i] == ',' || IsDigit(Grouped(digits)[i])
  {
    hide IsDigit, HeadText;
    if |digits| > 3 {
      GroupedText(digits);
      HeadChars(digits[..|digits| - 3]);
    }
  }

  /** A sign in front exactly of a negative amount, a point before the last two digits, and commas in the rupees; all else are digits. */
  lemma MarkPlaces(paise: int, i: nat)
    requires i < |Figures(Some(paise))|
    ensures var s := Figures(Some(paise)); var r := |s| - 4 - i;
      && (s[i] == '-' <==> i == 0 && paise < 0)
      && (s[i] == '.' <==> r == -1)
      && (s[i] == ',' <==> r > 0 && r % 3 == 0 && s[i] != '-')
      && (s[i] != '-' && s[i] != '.' && s[i] != ',' ==> IsDigit(s[i]))
  {
    hide Grouped, Decimal, Padded, Parse, Pow10, Magnitude;
    var m := Magnitude(paise);
    var sign, rupees, paisa := if paise < 0 then "-" else "", Decimal(m / 100), Padded(m % 100, 2);
    ParseDecimal(m / 100);
    ParsePadded(m % 100, 2);
    TwoPlaces(m % 100);
    GroupedChars(rupees);
    var g := Grouped(rupees);
    assert Figures(Some(paise)) == sign + g + ['.'] + paisa;
    hide Figures;
    if |sign| <= i < |sign| + |g| {
      CommaPlaces(rupees, |g| - 1 - (i - |sign|));
      assert g[i - |sign|] == ',' || IsDigit(g[i - |sign|]);
    } else if i > |sign| + |g| {
      assert IsDigit(paisa[i - |sign| - |g| - 1]);
    }
  }

  // ------------------------------------------------------------ the printer as it runs

  method PrintFigures(paise: Option<int>) returns (s: string)
    ensures s == Figures(paise) && (paise.None? ==> s == "")
  {
    if paise.None? {
      return "";
    }
    var sign := if paise.value < 0 then "-" else "";
    var rupees, paisa := Magnitude(paise.value) / 100, Magnitude(paise.value) % 100;
    var digits := Decimal(rupees);
    if |digits| > 3 {
      var head, tail := digits[..|digits| - 3], digits[|digits| - 3..];
      var groups := [];
      while |head| > 2
        invariant Groups(head) + groups == Groups(digits[..|digits| - 3])
      {
        assert Groups(head) + groups == Groups(head[..|head| - 2]) + ([head[|head| - 2..]] + groups);
        groups := [head[|head| - 2..]] + groups;
        head := head[..|head| - 2];
      }
      assert Groups(head) + groups == if head == "" then groups else [head] + groups;
      if head != "" {
        groups := [head] + groups;
      }
      assert groups == Groups(digits[..|digits| - 3]);
      digits := Join(groups + [tail], ',');
    }
    s := sign + digits + ['.'] + Padded(paisa, 2);
    hide Decimal, Padded, Join;
  }
}