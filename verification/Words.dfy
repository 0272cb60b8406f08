/** Amounts in words, and a reader that gets the amount back. */
module Words {
  import opened Texts

  datatype Words = Text(text: string) | IndexError

  const ONES := ["", "One", "Two", "Three", "Four", "Five", "Six", "Seven", "Eight", "Nine", "Ten", "Eleven", "Twelve", "Thirteen",
                 "Fourteen", "Fifteen", "Sixteen", "Seventeen", "Eighteen", "Nineteen"]
  const TENS := ["", "", "Twenty", "Thirty", "Forty", "Fifty", "Sixty", "Seventy", "Eighty", "Ninety"]

  /** The names of the sizes, largest first. */
  const NAMES := ["Crore", "Lakh", "Thousand"]
  const SIZES: seq<nat> := [10_000_000, 100_000, 1_000]

  // ------------------------------------------------------------ the printer

  function One(n: nat): Words {
    if n < |ONES| then Text(ONES[n]) else IndexError
  }

  function BelowHundred(n: nat): Words {
    if n < 20 then One(n)
    else if n / 10 >= |TENS| then IndexError
    else if n % 10 == 0 then Text(TENS[n / 10])
    else Text(TENS[n / 10] + [' '] + ONES[n % 10])
  }

  datatype Parts = Parts(list: seq<string>) | NoParts

  /** The parts of a number whose larger sizes are done, from size k on. */
  function PartsFrom(n: nat, k: nat): Parts
    requires k <= 3
    decreases 3 - k
  {
    if k == 3 then
      if n == 0 then Parts([])
      else
        var w := BelowThousand(n);
        if w.Text? then Parts([w.text]) else NoParts
    else if n < SIZES[k] then PartsFrom(n, k + 1)
    else
      var w := if SIZES[k] > 1000 || n / SIZES[k] < 100 then BelowHundred(n / SIZES[k]) else BelowThousand(n / SIZES[k]);
      if w.IndexError? then NoParts
      else
        var rest := PartsFrom(n % SIZES[k], k + 1);
        if rest.NoParts? then NoParts else Parts([w.text + [' '] + NAMES[k]] + rest.list)
  }

  function BelowThousand(n: nat): Words {
    if n >= 100 then
      if n / 100 >= |ONES| then IndexError
      else
        var hundreds := ONES[n / 100] + [' '] + "Hundred";
        if n % 100 == 0 then Text(hundreds)
        else
          var w := BelowHundred(n % 100);
          if w.Text? then Text(Join([hundreds, w.text], ' ')) else IndexError
    else if n == 0 then Text("")
    else BelowHundred(n)
  }

  function NumberInWords(n: nat): Words {
    if n == 0 then Text("Zero")
    else
      var parts := PartsFrom(n, 0);
      if parts.Parts? then Text(Join(parts.list, ' ')) else IndexError
  }

  function AmountInWords(paise: nat, inr: bool): Words {
    if !inr then Text("")
    else
      var rupees := NumberInWords(paise / 100);
      if rupees.IndexError? then IndexError
      else
        var text := "Rupees" + [' '] + rupees.text;
        if paise % 100 == 0 then Text(text + [' '] + "Only")
        else
          var paisa := NumberInWords(paise % 100);
          if paisa.IndexError? then IndexError
          else Text(text + [' '] + "and" + [' '] + paisa.text + [' '] + "Paise" + [' '] + "Only")
  }

  // ------------------------------------------------------------ the reader

  /** The words of a text, cut at every space. */
  function Split(s: string): (ws: seq<string>)
    ensures |ws| >= 1
  {
    if s == "" then [""]
    else AddChar(Split(s[..|s| - 1]), s[|s| - 1])
  }

  /** One more character: it extends the last word, unless it is a space. */
  function AddChar(front: seq<string>, c: char): (ws: seq<string>)
    requires |front| >= 1
    ensures |ws| >= 1
  {
    if c == ' ' then front + [""] else front[..|front| - 1] + [front[|front| - 1] + [c]]
  }

  datatype Acc = Acc(rupees: nat, paise: nat, total: nat, group: nat)

  function Position(words: seq<string>, w: string): nat {
    if words == [] then 0
    else if words[|words| - 1] == w then |words| - 1
    else Position(words[..|words| - 1], w)
  }

  /** What a counting word is worth; any other word is worth nothing. */
  function Worth(w: string): nat {
    if w in ONES then Position(ONES, w) else 10 * Position(TENS, w)
  }

  function Hear(a: Acc, w: string): Acc {
    if w == "Hundred" then a.(group := 100 * a.group)
    else if w == "Thousand" then a.(total := a.total + 1_000 * a.group, group := 0)
    else if w == "Lakh" then a.(total := a.total + 100_000 * a.group, group := 0)
    else if w == "Crore" then a.(total := a.total + 10_000_000 * a.group, group := 0)
    else if w == "and" then Acc(a.total + a.group, a.paise, 0, 0)
    else if w == "Paise" then Acc(a.rupees, a.total + a.group, 0, 0)
    else if w == "Only" then Acc(a.rupees + a.total + a.group, a.paise, 0, 0)
    else a.(group := a.group + Worth(w))
  }

  function Read(a: Acc, ws: seq<string>): Acc {
    if ws == [] then a else Hear(Read(a, ws[..|ws| - 1]), ws[|ws| - 1])
  }

  const Start := Acc(0, 0, 0, 0)

  function NumberRead(s: string): nat {
    var a := Read(Start, Split(s));
    a.total + a.group
  }

  function AmountRead(s: string): nat {
    var a := Read(Start, Split(s));
    100 * a.rupees + a.paise
  }

  // ------------------------------------------------------------ single words

  predicate Plain(w: string) {
    |w| > 0 && ' ' !in w
  }

  lemma OnesPlain(n: nat)
    requires 1 <= n < 20
    ensures Plain(ONES[n])
  {
  }

  lemma {:induction false} LastPosition(words: seq<string>, k: nat)
    requires k < |words| && forall j :: k < j < |words| ==> words[j] != words[k]
    ensures Position(words, words[k]) == k
  {
    if k < |words| - 1 {
      LastPosition(words[..|words| - 1], k);
    }
  }

  lemma OnesDistinct()
    ensures forall j, k :: 0 <= j < k < 20 ==> ONES[j] != ONES[k]
  {
  }

  lemma TensDistinct()
    ensures forall j, k :: 2 <= j < k < 10 ==> TENS[j] != TENS[k]
    ensures forall j, k :: 2 <= j < 10 && 0 <= k < 20 ==> TENS[j] != ONES[k]
  {
  }

  lemma HearOnes(a: Acc, n: nat)
    requires 1 <= n < 20
    ensures Hear(a, ONES[n]) == a.(group := a.group + n)
  {
    OnesDistinct();
    LastPosition(ONES, n);
    OnesCount(n);
    hide Position;
  }

  lemma OnesCount(n: nat)
    requires 1 <= n < 20
    ensures ONES[n] !in ["Hundred", "Thousand", "Lakh", "Crore", "and", "Paise", "Only"]
  {
  }

  lemma HearTens(a: Acc, n: nat)
    requires 2 <= n < 10
    ensures Hear(a, TENS[n]) == a.(group := a.group + 10 * n)
  {
    TensDistinct();
    assert TENS[n] !in ONES;
    LastPosition(TENS, n);
    TensCount(n);
    hide Position;
  }

  lemma TensCount(n: nat)
    requires 2 <= n < 10
    ensures TENS[n] !in ["Hundred", "Thousand", "Lakh", "Crore", "and", "Paise", "Only"] && Plain(TENS[n])
  {
  }

  // ------------------------------------------------------------ texts put together with spaces

  lemma SplitLast(s: string)
    requires s != ""
    ensures Split(s) == AddChar(Split(s[..|s| - 1]), s[|s| - 1])
  {
    hide AddChar;
  }

  lemma {:induction false} SplitPlain(w: string)
    requires ' ' !in w
    ensures Split(w) == [w]
  {
    if w == "" {
      assert Split("") == [""];
    } else {
      var front, c := w[..|w| - 1], w[|w| - 1];
      assert c in w && w == front + [c];
      SplitPlain(front);
      SplitLast(w);
      AddCharToOne(front, c);
      hide Split, AddChar;
    }
  }

  lemma AddCharToOne(front: string, c: char)
    requires c != ' '
    ensures AddChar([front], c) == [front + [c]]
  {
  }

  lemma AddCharAfter(x: seq<string>, y: seq<string>, c: char)
    requires |y| >= 1
    ensures AddChar(x + y, c) == x + AddChar(y, c)
  {
  }

  lemma {:induction false} SplitAppend(x: string, y: string)
    ensures Split(x + [' '] + y) == Split(x) + Split(y)
  {
    var whole := x + [' '] + y;
    SplitLast(whole);
    if y == "" {
      assert whole[..|whole| - 1] == x;
    } else {
      var front := y[..|y| - 1];
      SplitAppend(x, front);
      assert whole[..|whole| - 1] == x + [' '] + front;
      SplitLast(y);
      AddCharAfter(Split(x), Split(front), y[|y| - 1]);
      hide Split, AddChar;
    }
    assert Split("") == [""];
  }

  lemma {:induction false} ReadAppend(a: Acc, x: seq<string>, y: seq<string>)
    ensures Read(a, x + y) == Read(Read(a, x), y)
  {
    if y == [] {
      assert x + y == x;
    } else {
      ReadAppend(a, x, y[..|y| - 1]);
      assert (x + y)[..|x + y| - 1] == x + y[..|y| - 1];
    }
    hide Hear;
  }

  lemma ReadSpaced(a: Acc, x: string, y: string)
    ensures Read(a, Split(x + [' '] + y)) == Read(Read(a, Split(x)), Split(y))
  {
    SplitAppend(x, y);
    ReadAppend(a, Split(x), Split(y));
    hide Read, Split;
  }

  lemma ReadWord(a: Acc, w: string)
    requires ' ' !in w
    ensures Read(a, Split(w)) == Hear(a, w)
  {
    SplitPlain(w);
    assert Read(a, [w]) == Hear(Read(a, []), w) by { assert [w][..0] == []; }
    hide Split, Hear;
  }

  lemma ReadThenWord(a: Acc, x: string, w: string)
    requires ' ' !in w
    ensures Read(a, Split(x + [' '] + w)) == Hear(Read(a, Split(x)), w)
  {
    ReadSpaced(a, x, w);
    ReadWord(Read(a, Split(x)), w);
    hide Split, Hear, Read;
  }

  function ReadParts(a: Acc, parts: seq<string>): Acc
    decreases |parts|
  {
    if parts == [] then a else ReadParts(Read(a, Split(parts[0])), parts[1..])
  }

  lemma {:induction false} JoinRead(a: Acc, parts: seq<string>)
    requires parts != []
    ensures Read(a, Split(Join(parts, ' '))) == ReadParts(a, parts)
    decreases |parts|
  {
    if |parts| == 1 {
      assert ReadParts(a, parts) == ReadParts(Read(a, Split(parts[0])), []);
    } else {
      ReadSpaced(a, parts[0], Join(parts[1..], ' '));
      JoinRead(Read(a, Split(parts[0])), parts[1..]);
    }
    hide Read, Split;
  }

  // ------------------------------------------------------------ what a printed number reads as

  lemma ReadBelowHundred(n: nat, a: Acc)
    requires 1 <= n < 100
    ensures BelowHundred(n).Text? && Read(a, Split(BelowHundred(n).text)) == a.(group := a.group + n)
  {
    hide Read, Split, Hear;
    if n < 20 {
      OnesPlain(n);
      ReadWord(a, ONES[n]);
      HearOnes(a, n);
    } else {
      TensCount(n / 10);
      ReadWord(a, TENS[n / 10]);
      HearTens(a, n / 10);
      if n % 10 != 0 {
        OnesPlain(n % 10);
        ReadThenWord(a, TENS[n / 10], ONES[n % 10]);
        HearOnes(a.(group := a.group + 10 * (n / 10)), n % 10);
      }
    }
  }

  lemma ReadHundreds(h: nat, a: Acc)
    requires 1 <= h < 20 && a.group == 0
    ensures Read(a, Split(ONES[h] + [' '] + "Hundred")) == a.(group := 100 * h)
  {
    hide Read, Split;
    OnesPlain(h);
    ReadWord(a, ONES[h]);
    HearOnes(a, h);
    ReadThenWord(a, ONES[h], "Hundred");
    hide Worth;
  }

  lemma ReadHundredsAnd(h: nat, m: nat, a: Acc)
    requires 1 <= h < 20 && 1 <= m < 100 && a.group == 0
    ensures BelowHundred(m).Text?
    ensures Read(a, Split(ONES[h] + [' '] + "Hundred" + [' '] + BelowHundred(m).text)) == a.(group := 100 * h + m)
  {
    hide Read, Split, BelowHundred;
    ReadHundreds(h, a);
    ReadBelowHundred(m, a.(group := 100 * h));
    ReadSpaced(a, ONES[h] + [' '] + "Hundred", BelowHundred(m).text);
  }

  lemma ReadBelowThousand(n: nat, a: Acc)
    requires 1 <= n < 1000 && a.group == 0
    ensures BelowThousand(n).Text? && Read(a, Split(BelowThousand(n).text)) == a.(group := n)
  {
    hide Read, Split, BelowHundred;
    var h, m := n / 100, n % 100;
    if n < 100 {
      ReadBelowHundred(n, a);
    } else if m == 0 {
      ReadHundreds(h, a);
    } else {
      ReadHundredsAnd(h, m, a);
      var parts := [ONES[h] + [' '] + "Hundred", BelowHundred(m).text];
      assert Join(parts, ' ') == parts[0] + [' '] + parts[1] by { assert parts[1..] == [parts[1]]; }
    }
  }

  // ------------------------------------------------------------ whole numbers

  /** The numbers that are left when the sizes before k are done. */
  function Bound(k: nat): nat
    requires k <= 3
  {
    if k == 0 then 1_000_000_000 else SIZES[k - 1]
  }

  lemma HearSize(a: Acc, k: nat)
    requires k < 3
    ensures ' ' !in NAMES[k] && Hear(a, NAMES[k]) == a.(total := a.total + SIZES[k] * a.group, group := 0)
  {
  }

  lemma QuotientBound(n: nat, k: nat)
    requires k < 3 && n < Bound(k) && n >= SIZES[k]
    ensures 1 <= n / SIZES[k] < 100 && n % SIZES[k] < Bound(k + 1) && n == SIZES[k] * (n / SIZES[k]) + n % SIZES[k]
  {
  }

  /** The part for one size, with its name. */
  lemma ReadSize(n: nat, k: nat, a: Acc, w: string)
    requires k < 3 && 1 <= n < 100 && a.group == 0 && BelowHundred(n) == Text(w)
    ensures Read(a, Split(w + [' '] + NAMES[k])) == a.(total := a.total + SIZES[k] * n)
  {
    hide Read, Split, Hear, BelowHundred;
    ReadBelowHundred(n, a);
    HearSize(a.(group := n), k);
    ReadThenWord(a, w, NAMES[k]);
  }

  lemma {:induction false} ReadPartsFrom(n: nat, k: nat, a: Acc)
    requires k <= 3 && n < Bound(k) && a.group == 0
    ensures PartsFrom(n, k).Parts? && (n > 0 ==> PartsFrom(n, k).list != [])
    ensures var b := ReadParts(a, PartsFrom(n, k).list); b.total + b.group == a.total + n && b.rupees == a.rupees && b.paise == a.paise
    decreases 3 - k
  {
    if k == 3 {
      if n > 0 {
        ReadBelowThousand(n, a);
        OnePart(a, BelowThousand(n).text);
      }
    } else if n < SIZES[k] {
      ReadPartsFrom(n, k + 1, a);
    } else {
      QuotientBound(n, k);
      var q := n / SIZES[k];
      ReadBelowHundred(q, a);
      var part := BelowHundred(q).text + [' '] + NAMES[k];
      ReadSize(q, k, a, BelowHundred(q).text);
      var b := a.(total := a.total + SIZES[k] * q);
      ReadPartsFrom(n % SIZES[k], k + 1, b);
      var rest := PartsFrom(n % SIZES[k], k + 1).list;
      assert PartsFrom(n, k).list == [part] + rest;
      FirstPart(a, part, rest);
    }
    hide Read, Split, Hear, BelowHundred, BelowThousand, ReadParts;
  }

  lemma OnePart(a: Acc, part: string)
    ensures ReadParts(a, [part]) == Read(a, Split(part))
  {
    assert [part][1..] == [];
    hide Read, Split;
  }

  lemma FirstPart(a: Acc, part: string, rest: seq<string>)
    ensures ReadParts(a, [part] + rest) == ReadParts(Read(a, Split(part)), rest)
  {
    assert ([part] + rest)[1..] == rest;
    hide Read, Split;
  }

  lemma ReadNumber(n: nat, a: Acc)
    requires n < 1_000_000_000 && a.total == 0 && a.group == 0
    ensures NumberInWords(n).Text?
    ensures var b := Read(a, Split(NumberInWords(n).text)); b.total + b.group == n && b.rupees == a.rupees && b.paise == a.paise
  {
    if n == 0 {
      ReadWord(a, "Zero");
      HearZero(a);
    } else {
      ReadPartsFrom(n, 0, a);
      JoinRead(a, PartsFrom(n, 0).list);
    }
    hide Read, Split, Hear, PartsFrom, ReadParts, Join;
  }

  lemma HearOther(a: Acc, w: string)
    requires w !in ONES && w !in TENS && w !in ["Hundred", "Thousand", "Lakh", "Crore", "and", "Paise", "Only"]
    ensures Hear(a, w) == a
  {
    PositionMissing(TENS, w);
    hide Position;
  }

  lemma ZeroIsOther()
    ensures "Zero" !in ONES && "Zero" !in TENS && "Zero" !in ["Hundred", "Thousand", "Lakh", "Crore", "and", "Paise", "Only"]
  {
  }

  lemma RupeesIsOther()
    ensures "Rupees" !in ONES && "Rupees" !in TENS && "Rupees" !in ["Hundred", "Thousand", "Lakh", "Crore", "and", "Paise", "Only"]
  {
  }

  lemma HearZero(a: Acc)
    ensures Hear(a, "Zero") == a && Hear(a, "Rupees") == a
  {
    hide *;
    ZeroIsOther();
    RupeesIsOther();
    HearOther(a, "Zero");
    HearOther(a, "Rupees");
  }

  lemma {:induction false} PositionMissing(words: seq<string>, w: string)
    requires w !in words
    ensures Position(words, w) == 0
  {
    if words != [] {
      PositionMissing(words[..|words| - 1], w);
    }
  }

  /** Reading the words of a number below a hundred crore gives it back; from there on there are no words. */
  lemma WordsCanBeRead(n: nat)
    ensures NumberInWords(n).Text? <==> n < 1_000_000_000
    ensures n < 1_000_000_000 ==> NumberRead(NumberInWords(n).text) == n
  {
    hide Read, Split, Hear, BelowHundred, BelowThousand, Join;
    if n < 1_000_000_000 {
      ReadNumber(n, Start);
      hide PartsFrom;
    } else {
      assert n / 10_000_000 >= 100;
      TooLarge(n / 10_000_000);
    }
  }

  lemma TooLarge(n: nat)
    requires n >= 100
    ensures BelowHundred(n).IndexError?
  {
  }

  /** Different numbers have different words. */
  lemma WordsAreInjective(n: nat, m: nat)
    requires NumberInWords(n).Text? && NumberInWords(n) == NumberInWords(m)
    ensures n == m
  {
    hide *;
    WordsCanBeRead(n);
    WordsCanBeRead(m);
  }

  // ------------------------------------------------------------ how words are put together

  /** The words below twenty, none of which is put together from others. */
  lemma BelowTwenty(n: nat)
    requires n < 20
    ensures NumberInWords(n) == Text([
      "Zero", "One", "Two", "Three", "Four", "Five", "Six", "Seven", "Eight", "Nine", "Ten", "Eleven", "Twelve", "Thirteen", "Fourteen",
      "Fifteen", "Sixteen", "Seventeen", "Eighteen", "Nineteen"][n])
  {
    if n == 0 {
      ZeroWords();
    } else {
      NameOfOne(n);
    }
    hide NumberInWords;
  }

  lemma WholeTens(t: nat)
    requires 2 <= t < 10
    ensures NumberInWords(10 * t) == Text(["Twenty", "Thirty", "Forty", "Fifty", "Sixty", "Seventy", "Eighty", "Ninety"][t - 2])
  {
    NameOfTen(t);
    hide NumberInWords;
  }

  lemma ZeroWords()
    ensures NumberInWords(0) == Text("Zero")
  {
  }

  lemma NameOfOne(n: nat)
    requires 1 <= n < 20
    ensures NumberInWords(n) == Text(ONES[n])
  {
    SmallWords(n);
    hide NumberInWords;
  }

  lemma NameOfTen(t: nat)
    requires 2 <= t < 10
    ensures NumberInWords(10 * t) == Text(TENS[t])
  {
    SmallWords(10 * t);
    hide NumberInWords;
  }

  lemma SmallParts(n: nat, k: nat)
    requires 1 <= n < 1_000 && k <= 3
    ensures PartsFrom(n, k) == PartsFrom(n, 3)
    decreases 3 - k
  {
    hide BelowThousand, BelowHundred;
    if k < 3 {
      SmallParts(n, k + 1);
    }
  }

  lemma SmallWords(n: nat)
    requires 1 <= n < 1_000
    ensures NumberInWords(n) == BelowThousand(n)
    ensures n < 100 ==> NumberInWords(n) == BelowHundred(n)
  {
    hide BelowHundred;
    SmallParts(n, 0);
    ReadBelowThousand(n, Start);
    hide BelowThousand, Read, Split;
  }

  /** From twenty on the tens come first, then the ones. */
  lemma TensThenOnes(n: nat)
    requires 20 <= n < 100 && n % 10 != 0
    ensures NumberInWords(n - n % 10).Text? && NumberInWords(n % 10).Text?
    ensures NumberInWords(n) == Text(NumberInWords(n - n % 10).text + [' '] + NumberInWords(n % 10).text)
  {
    hide PartsFrom, Join;
    SmallWords(n);
    SmallWords(n - n % 10);
    SmallWords(n % 10);
  }

  /** How a count of one size and the rest are put together. */
  predicate PutTogether(w: Words, count: Words, name: string, rest: Words, nothingLeft: bool) {
    && count.Text? && rest.Text?
    && w == Text(count.text + [' '] + name + if nothingLeft then "" else [' '] + rest.text)
  }

  /** A number is spelled as the count of its largest size, the name of the size, and the words of what is left, if anything is. */
  lemma LargestSizeFirst(n: nat, size: nat, name: string)
    requires (size == 10_000_000 && name == "Crore" && n < 1_000_000_000) || (size == 100_000 && name == "Lakh" && n < 10_000_000)
      || (size == 1_000 && name == "Thousand" && n < 100_000) || (size == 100 && name == "Hundred" && n < 1_000)
    requires n >= size
    ensures PutTogether(NumberInWords(n), NumberInWords(n / size), name, NumberInWords(n % size), n % size == 0)
  {
    if size == 100 {
      HundredsFirst(n);
    } else {
      var k := if size == 10_000_000 then 0 else if size == 100_000 then 1 else 2;
      hide BelowHundred, BelowThousand;
      SizeFirst(n, k);
    }
  }

  lemma HundredsOf(n: nat)
    requires 100 <= n < 1_000 && (n % 100 == 0 || BelowHundred(n % 100).Text?)
    ensures BelowThousand(n)
         == Text(ONES[n / 100] + [' '] + "Hundred" + if n % 100 == 0 then "" else [' '] + BelowHundred(n % 100).text)
  {
    hide BelowHundred;
    if n % 100 != 0 {
      var parts := [ONES[n / 100] + [' '] + "Hundred", BelowHundred(n % 100).text];
      assert Join(parts, ' ') == parts[0] + [' '] + parts[1] by { assert parts[1..] == [parts[1]]; }
    }
  }

  lemma HundredsFirst(n: nat)
    requires 100 <= n < 1_000
    ensures PutTogether(NumberInWords(n), NumberInWords(n / 100), "Hundred", NumberInWords(n % 100), n % 100 == 0)
  {
    hide NumberInWords, BelowHundred, BelowThousand, Read, Split;
    var q, r := n / 100, n % 100;
    SmallWords(n);
    NameOfOne(q);
    ZeroWords();
    if r != 0 {
      SmallWords(r);
      ReadBelowHundred(r, Start);
    }
    HundredsOf(n);
  }

  /** The sizes before the largest one a number has bring nothing. */
  lemma {:induction false} SkipSizes(n: nat, k: nat, j: nat)
    requires j <= k <= 3 && n < Bound(k)
    ensures PartsFrom(n, j) == PartsFrom(n, k)
    decreases k - j
  {
    hide BelowHundred, BelowThousand;
    if j < k {
      BoundsFall(j + 1, k);
      SkipSizes(n, k, j + 1);
    }
  }

  lemma BoundsFall(j: nat, k: nat)
    requires 1 <= j <= k <= 3
    ensures Bound(k) <= Bound(j) == SIZES[j - 1]
  {
  }

  lemma SizeFirst(n: nat, k: nat)
    requires k < 3 && SIZES[k] <= n < Bound(k)
    ensures PutTogether(NumberInWords(n), NumberInWords(n / SIZES[k]), NAMES[k], NumberInWords(n % SIZES[k]), n % SIZES[k] == 0)
  {
    hide BelowHundred, BelowThousand, Read, Split, Hear, ReadParts;
    QuotientBound(n, k);
    var q, r := n / SIZES[k], n % SIZES[k];
    SkipSizes(n, k, 0);
    SkipSizes(r, k + 1, 0);
    SmallWords(q);
    ReadBelowHundred(q, Start);
    ReadPartsFrom(r, k + 1, Start);
    var part, rest := BelowHundred(q).text + [' '] + NAMES[k], PartsFrom(r, k + 1);
    assert PartsFrom(n, k) == Parts([part] + rest.list);
    hide PartsFrom;
    JoinFirst(part, rest.list);
  }

  lemma JoinFirst(part: string, rest: seq<string>)
    ensures Join([part] + rest, ' ') == part + if rest == [] then "" else [' '] + Join(rest, ' ')
  {
    assert ([part] + rest)[1..] == rest;
  }

  // ------------------------------------------------------------ amounts

  /** Reading the words of an amount in rupees gives back its paise. */
  lemma AmountCanBeRead(paise: nat)
    ensures AmountInWords(paise, true).Text? <==> paise < 100_000_000_000
    ensures paise < 100_000_000_000 ==> AmountRead(AmountInWords(paise, true).text) == paise
    ensures paise < 100_000_000_000 ==> "Rupees " <= AmountInWords(paise, true).text && EndsWith(AmountInWords(paise, true).text, " Only")
    ensures AmountInWords(paise, false) == Text("")
  {
    hide Read, Split, NumberInWords, Hear;
    var rupees, paisa := paise / 100, paise % 100;
    WordsCanBeRead(rupees);
    WordsCanBeRead(paisa);
    if rupees < 1_000_000_000 {
      ReadRupees(rupees);
      var text := "Rupees" + [' '] + NumberInWords(rupees).text;
      if paisa == 0 {
        ReadThenWord(Start, text, "Only");
        HearEnds(Read(Start, Split(text)));
      } else {
        ReadPaise(rupees, paisa, text);
      }
    }
  }

  predicate EndsWith(s: string, end: string) {
    |end| <= |s| && s[|s| - |end|..] == end
  }

  lemma HearEnds(a: Acc)
    ensures Hear(a, "and") == Acc(a.total + a.group, a.paise, 0, 0)
    ensures Hear(a, "Paise") == Acc(a.rupees, a.total + a.group, 0, 0)
    ensures Hear(a, "Only") == Acc(a.rupees + a.total + a.group, a.paise, 0, 0)
  {
  }

  lemma ReadRupees(rupees: nat)
    requires rupees < 1_000_000_000
    ensures NumberInWords(rupees).Text?
    ensures var a := Read(Start, Split("Rupees" + [' '] + NumberInWords(rupees).text));
      a.total + a.group == rupees && a.rupees == 0 && a.paise == 0
  {
    hide Read, Split, NumberInWords, Hear;
    ReadNumber(rupees, Start);
    ReadWord(Start, "Rupees");
    HearZero(Start);
    ReadSpaced(Start, "Rupees", NumberInWords(rupees).text);
  }

  lemma ReadPaise(rupees: nat, paisa: nat, text: string)
    requires paisa < 100
    requires var a := Read(Start, Split(text)); a.total + a.group == rupees && a.rupees == 0 && a.paise == 0
    ensures NumberInWords(paisa).Text?
    ensures Read(Start, Split(text + [' '] + "and" + [' '] + NumberInWords(paisa).text + [' '] + "Paise" + [' '] + "Only"))
         == Acc(rupees, paisa, 0, 0)
  {
    hide Read, Split, NumberInWords, Hear;
    ReadThenWord(Start, text, "and");
    HearEnds(Read(Start, Split(text)));
    var b := Acc(rupees, 0, 0, 0);
    assert Read(Start, Split(text + [' '] + "and")) == b;
    ReadNumber(paisa, b);
    ReadSpaced(Start, text + [' '] + "and", NumberInWords(paisa).text);
    var with := text + [' '] + "and" + [' '] + NumberInWords(paisa).text;
    ReadThenWord(Start, with, "Paise");
    HearEnds(Read(Start, Split(with)));
    ReadThenWord(Start, with + [' '] + "Paise", "Only");
    HearEnds(Acc(rupees, paisa, 0, 0));
  }

  // ------------------------------------------------------------ the printer as it runs

  method SpellBelowThousand(number: nat) returns (w: Words)
    ensures w == BelowThousand(number)
  {
    var n, parts := number, [];
    if n >= 100 {
      if n / 100 >= |ONES| {
        return IndexError;
      }
      parts := parts + [ONES[n / 100] + [' '] + "Hundred"];
      n := n % 100;
    }
    if n != 0 {
      var rest := BelowHundred(n);
      if rest.IndexError? {
        return IndexError;
      }
      parts := parts + [rest.text];
    }
    w := Text(Join(parts, ' '));
    hide BelowHundred;
  }

  function Prepend(list: seq<string>, rest: Parts): Parts {
    if rest.NoParts? then NoParts else Parts(list + rest.list)
  }

  function SizePart(q: nat, k: nat): Words
    requires k < 3
  {
    if SIZES[k] > 1000 || q < 100 then BelowHundred(q) else BelowThousand(q)
  }

  lemma PartsStep(list: seq<string>, n: nat, k: nat)
    requires k < 3
    ensures n < SIZES[k] ==> Prepend(list, PartsFrom(n, k)) == Prepend(list, PartsFrom(n, k + 1))
    ensures n >= SIZES[k] ==> (match SizePart(n / SIZES[k], k)
      case IndexError => Prepend(list, PartsFrom(n, k)) == NoParts
      case Text(part) =>
        Prepend(list, PartsFrom(n, k)) == Prepend(list + [part + [' '] + NAMES[k]], PartsFrom(n % SIZES[k], k + 1)))
  {
    hide BelowHundred, BelowThousand;
    if n >= SIZES[k] {
      var part, rest := SizePart(n / SIZES[k], k), PartsFrom(n % SIZES[k], k + 1);
      if part.Text? && rest.Parts? {
        var named := part.text + [' '] + NAMES[k];
        assert list + ([named] + rest.list) == list + [named] + rest.list;
      }
    }
  }

  lemma PartsEnd(list: seq<string>, n: nat)
    ensures Prepend(list, PartsFrom(n, 3))
         == if n == 0 then Parts(list) else if BelowThousand(n).Text? then Parts(list + [BelowThousand(n).text]) else NoParts
  {
    hide BelowThousand;
    assert list + [] == list;
  }

  method SpellNumber(number: nat) returns (w: Words)
    ensures w == NumberInWords(number)
  {
    hide PartsFrom, BelowHundred, BelowThousand, Join;
    if number == 0 {
      return Text("Zero");
    }
    var n, parts := number, [];
    for k := 0 to 3
      invariant PartsFrom(number, 0) == Prepend(parts, PartsFrom(n, k))
    {
      PartsStep(parts, n, k);
      if n >= SIZES[k] {
        var part;
        if SIZES[k] > 1000 || n / SIZES[k] < 100 {
          part := BelowHundred(n / SIZES[k]);
        } else {
          part := SpellBelowThousand(n / SIZES[k]);
        }
        if part.IndexError? {
          return IndexError;
        }
        parts := parts + [part.text];
        parts := parts[|parts| - 1 := parts[|parts| - 1] + [' '] + NAMES[k]];
        n := n % SIZES[k];
      }
    }
    PartsEnd(parts, n);
    if n != 0 {
      var rest := SpellBelowThousand(n);
      if rest.IndexError? {
        return IndexError;
      }
      parts := parts + [rest.text];
    }
    w := Text(Join(parts, ' '));
  }

  method SpellAmount(paise: nat, inr: bool) returns (w: Words)
    ensures w == AmountInWords(paise, inr)
  {
    if !inr {
      return Text("");
    }
    var rupees, paisa := paise / 100, paise % 100;
    var number := SpellNumber(rupees);
    if number.IndexError? {
      return IndexError;
    }
    var text := "Rupees" + [' '] + number.text;
    if paisa != 0 {
      number := SpellNumber(paisa);
      if number.IndexError? {
        return IndexError;
      }
      text := text + [' '] + "and" + [' '] + number.text + [' '] + "Paise";
    }
    w := Text(text + [' '] + "Only");
    hide NumberInWords;
  }
}