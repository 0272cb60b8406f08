/** Financial years and invoice numbers, as printed. */
module InvoiceNumbers {
  import opened Digits

  datatype Date = Date(year: nat, month: nat, day: nat)

  /** The years and months a calendar date can have. */
  type Day = d: Date | 1 <= d.year <= 9999 && 1 <= d.month <= 12 witness Date(1, 1, 1)

  /** A slice as Python takes it: bounds beyond the end are cut off. */
  function Slice(s: string, from: nat, to: nat): string
    requires from <= to
  {
    var lo := if from <= |s| then from else |s|;
    var hi := if to <= |s| then to else |s|;
    s[lo..hi]
  }

  function StartYear(d: Day): nat {
    if d.month >= 4 then d.year else d.year - 1
  }

  /** The financial year that starts in April of this year: 2026-27. */
  function FiscalYear(start: nat): string {
    Decimal(start) + "-" + Slice(Decimal(start + 1), 2, |Decimal(start + 1)| + 2)
  }

  function FormatNumber(prefix: string, fy: string, sequence: nat): string {
    prefix + Slice(fy, 2, 4) + Slice(fy, 5, 7) + ['/'] + Padded(sequence, 6)
  }

  predicate FourDigits(year: nat) {
    1000 <= year < 10000
  }

  /** A day lies between 1 April of its start year and 31 March of the next. */
  lemma FiscalYearOfDay(d: Day, e: Day)
    ensures StartYear(d) * 12 + 4 <= d.year * 12 + d.month <= StartYear(d) * 12 + 15
    ensures StartYear(d) == StartYear(e) <==> (d.year * 12 + d.month - 4) / 12 == (e.year * 12 + e.month - 4) / 12
  {
    assert (d.year * 12 + d.month - 4) / 12 == StartYear(d);
    assert (e.year * 12 + e.month - 4) / 12 == StartYear(e);
  }

  lemma FourDigitText(year: nat)
    requires FourDigits(year)
    ensures |Decimal(year)| == 4
    ensures Slice(Decimal(year), 2, 4) == Padded(year % 100, 2)
  {
    var hundreds, rest := year / 100, year % 100;
    assert Decimal(year) == Decimal(year / 10) + [Digit(year % 10)];
    assert Decimal(year / 10) == Decimal(year / 10 / 10) + [Digit(year / 10 % 10)];
    assert year / 10 / 10 == hundreds && year / 10 % 10 == rest / 10 && year % 10 == rest % 10;
    assert |Decimal(hundreds)| == 2 by {
      assert Decimal(hundreds) == Decimal(hundreds / 10) + [Digit(hundreds % 10)];
    }
    if rest < 10 {
      assert Padded(rest, 2) == Zeros(1) + [Digit(rest)] && Digit(0) == '0';
    } else {
      assert Padded(rest, 2) == Decimal(rest) == Decimal(rest / 10) + [Digit(rest % 10)];
    }
  }

  /** A four-digit financial year reads yyyy-zz, where zz is the last two digits of the next year. */
  lemma FiscalYearText(start: nat)
    requires FourDigits(start) && FourDigits(start + 1)
    ensures |FiscalYear(start)| == 7
    ensures Slice(FiscalYear(start), 2, 4) == Padded(start % 100, 2) && Slice(FiscalYear(start), 5, 7) == Padded((start + 1) % 100, 2)
  {
    FourDigitText(start);
    FourDigitText(start + 1);
    assert FiscalYear(start)[2..4] == Decimal(start)[2..4];
    assert FiscalYear(start)[5..7] == Decimal(start + 1)[2..4];
  }

  predicate NoSlash(s: string) {
    '/' !in s
  }

  lemma DigitsHaveNoSlash(s: string)
    requires AllDigits(s)
    ensures NoSlash(s)
  {
  }

  lemma PartsDetermined(p: string, yy: string, zz: string, n: string, p': string, yy': string, zz': string, n': string)
    requires |yy| == |yy'| == |zz| == |zz'| == 2 && NoSlash(n) && NoSlash(n')
    requires p + yy + zz + ['/'] + n == p' + yy' + zz' + ['/'] + n'
    ensures p == p' && yy == yy' && n == n'
  {
    SplitAtLast(p + yy + zz, n, p' + yy' + zz', n', '/');
    var a, a' := p + yy + zz, p' + yy' + zz';
    assert |p| == |p'|;
    assert p == a[..|p|] && p' == a'[..|p|];
    assert yy == a[|p|..|p| + 2] && yy' == a'[|p|..|p| + 2];
  }

  lemma TwoDigits(n: nat)
    requires n < 100
    ensures |Padded(n, 2)| == 2 && AllDigits(Padded(n, 2)) && Parse(Padded(n, 2)) == n
  {
    ParsePadded(n, 2);
    DecimalLength(n, 2);
    assert Pow10(2) == 100;
    hide Parse, Decimal, Zeros, AllDigits;
  }

  /** A number spelled out: prefix, last two digits of both years, a slash, and the padded sequence number. */
  lemma NumberText(p: string, start: nat, n: nat)
    requires FourDigits(start) && FourDigits(start + 1)
    ensures FormatNumber(p, FiscalYear(start), n)
         == p + Padded(start % 100, 2) + Padded((start + 1) % 100, 2) + ['/'] + Padded(n, 6)
    ensures |Padded(start % 100, 2)| == |Padded((start + 1) % 100, 2)| == 2
    ensures AllDigits(Padded(start % 100, 2)) && Parse(Padded(start % 100, 2)) == start % 100
    ensures NoSlash(Padded(n, 6)) && AllDigits(Padded(n, 6)) && Parse(Padded(n, 6)) == n
  {
    FiscalYearText(start);
    ParsePadded(n, 6);
    DigitsHaveNoSlash(Padded(n, 6));
    TwoDigits(start % 100);
    TwoDigits((start + 1) % 100);
    hide FiscalYear, Padded, Parse, Slice, AllDigits, NoSlash;
  }

  /** Equal numbers come from equal prefixes, equal years within the century and equal sequence numbers. */
  lemma NumberDetermines(p: string, start: nat, n: nat, p': string, start': nat, n': nat)
    requires FourDigits(start) && FourDigits(start + 1) && FourDigits(start') && FourDigits(start' + 1)
    requires FormatNumber(p, FiscalYear(start), n) == FormatNumber(p', FiscalYear(start'), n')
    ensures p == p' && start % 100 == start' % 100 && n == n'
  {
    hide *;
    NumberText(p, start, n);
    NumberText(p', start', n');
    PartsDetermined(p, Padded(start % 100, 2), Padded((start + 1) % 100, 2), Padded(n, 6),
                    p', Padded(start' % 100, 2), Padded((start' + 1) % 100, 2), Padded(n', 6));
  }

  lemma NextInCentury(a: nat, b: nat)
    requires a % 100 == b % 100
    ensures (a + 1) % 100 == (b + 1) % 100
  {
  }

  /** Two numbers are the same exactly when prefix, the year within its century, and the sequence number are. */
  lemma NumbersEqual(p: string, start: nat, n: nat, p': string, start': nat, n': nat)
    requires FourDigits(start) && FourDigits(start + 1) && FourDigits(start') && FourDigits(start' + 1)
    ensures FormatNumber(p, FiscalYear(start), n) == FormatNumber(p', FiscalYear(start'), n')
      <==> p == p' && start % 100 == start' % 100 && n == n'
  {
    hide *;
    if FormatNumber(p, FiscalYear(start), n) == FormatNumber(p', FiscalYear(start'), n') {
      NumberDetermines(p, start, n, p', start', n');
    }
    if p == p' && start % 100 == start' % 100 && n == n' {
      NextInCentury(start, start');
      NumberText(p, start, n);
      NumberText(p', start', n');
    }
  }

  /** With a prefix of at most five characters a number has at most 16 exactly up to the last sequence number its width allows. */
  lemma NumberLength(p: string, start: nat, n: nat)
    requires FourDigits(start) && FourDigits(start + 1) && |p| <= 5
    ensures |FormatNumber(p, FiscalYear(start), n)| <= 16 <==> n < Pow10(11 - |p|)
    ensures n <= 999_999 ==> |FormatNumber(p, FiscalYear(start), n)| == |p| + 11
  {
    hide *;
    NumberText(p, start, n);
    DecimalLength(n, 11 - |p|);
    DecimalLength(n, 6);
    AMillion();
  }

  lemma AMillion()
    ensures Pow10(6) == 1_000_000
  {
  }
}
