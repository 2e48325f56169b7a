/**
 * src/utils/time.ts: `formatDateTime`, "HH:MM D Mon YYYY" from the local date
 * components a `Date` reports (hours, minutes, day of month, month index, full year).
 */
module Time {
  import opened Wrappers
  import opened JsNumber

  const MONTHS: seq<string> := ["Jan", "Feb", "Mar", "Apr", "May", "Jun",
                                "Jul", "Aug", "Sep", "Oct", "Nov", "Dec"]

  /** What `getHours`, `getMinutes`, `getDate`, `getMonth` and `getFullYear` return. */
  datatype DateParts = DateParts(hours: int, minutes: int, day: int, month: int, year: int)

  /** The ranges a `Date` guarantees for its components. */
  predicate ValidParts(p: DateParts) {
    0 <= p.hours <= 23 && 0 <= p.minutes <= 59 && 1 <= p.day <= 31 && 0 <= p.month < 12
  }

  /** `s.padStart(width, fill)`: fill on the left up to `width` characters. */
  function PadStart(s: string, width: nat, fill: char): (r: string)
    ensures |r| == if |s| >= width then |s| else width
    ensures r[|r| - |s|..] == s
    ensures forall i :: 0 <= i < |r| - |s| ==> r[i] == fill
  {
    if |s| >= width then s else seq(width - |s|, _ => fill) + s
  }

  /** `formatDateTime` on the components of the date. */
  function FormatDateTime(p: DateParts): string
    requires 0 <= p.month < 12
  {
    var hours := PadStart(IntToString(p.hours), 2, '0');
    var minutes := PadStart(IntToString(p.minutes), 2, '0');
    hours + ":" + minutes + " " + IntToString(p.day) + " " + MONTHS[p.month] + " " + IntToString(p.year)
  }

  /** Nine past five on the third of January 2024 reads "09:05 3 Jan 2024": padded clock, bare day. */
  lemma FormatExample()
    ensures FormatDateTime(DateParts(9, 5, 3, 0, 2024)) == "09:05 3 Jan 2024"
  {
    SingleDigitPadded(9);
    SingleDigitPadded(5);
    assert IntToString(3) == "3";
    YearToString();
    assert MONTHS[0] == "Jan";
    var pieces := "09" + ":" + "05" + " " + "3" + " " + "Jan" + " " + "2024";
    assert FormatDateTime(DateParts(9, 5, 3, 0, 2024)) == pieces;
  }

  lemma SingleDigitPadded(n: int)
    requires 0 <= n < 10
    ensures PadStart(IntToString(n), 2, '0') == ['0', "0123456789"[n]]
  {
    assert IntToString(n) == [DigitChar(n)];
  }

  lemma YearToString()
    ensures IntToString(2024) == "2024"
  {
    assert NatToString(2) == "2";
    assert NatToString(20) == NatToString(2) + [DigitChar(0)];
    assert NatToString(202) == NatToString(20) + [DigitChar(2)];
    assert NatToString(2024) == NatToString(202) + [DigitChar(4)];
  }

  // ---------------------------------------------------------------------------
  // Reading the format back

  /** The pieces of `s` between occurrences of `sep`. */
  function Split(s: string, sep: char): (r: seq<string>)
    ensures |r| >= 1
  {
    if s == [] then [""]
    else
      var rest := Split(s[1..], sep);
      if s[0] == sep then [""] + rest else [[s[0]] + rest[0]] + rest[1..]
  }

  lemma {:induction false} SplitWithoutSep(a: string, sep: char)
    requires sep !in a
    ensures Split(a, sep) == [a]
  {
    if a != [] {
      SplitWithoutSep(a[1..], sep);
      assert [a[0]] + a[1..] == a;
    }
  }

  lemma {:induction false} SplitAtFirstSep(a: string, b: string, sep: char)
    requires sep !in a
    ensures Split(a + [sep] + b, sep) == [a] + Split(b, sep)
  {
    var s := a + [sep] + b;
    if a == [] {
      assert s[1..] == b;
    } else {
      assert s[1..] == a[1..] + [sep] + b;
      SplitAtFirstSep(a[1..], b, sep);
      assert [a[0]] + a[1..] == a;
    }
  }

  /** The position of `name` in the month table. */
  function MonthIndex(name: string): (r: Option<int>)
    ensures r.Some? ==> 0 <= r.value < 12 && MONTHS[r.value] == name
  {
    IndexFrom(name, 0)
  }

  function IndexFrom(name: string, i: nat): (r: Option<int>)
    requires i <= 12
    ensures r.Some? ==> i <= r.value < 12 && MONTHS[r.value] == name
    decreases 12 - i
  {
    if i == 12 then None else if MONTHS[i] == name then Some(i) else IndexFrom(name, i + 1)
  }

  /** The twelve names are pairwise distinct, so the table can be read backwards. */
  lemma MonthNamesDistinct(i: int, m: int)
    requires 0 <= i < m < 12
    ensures MONTHS[i] != MONTHS[m]
  {
  }

  lemma {:induction false} IndexFromFinds(m: int, i: nat)
    requires i <= m < 12
    ensures IndexFrom(MONTHS[m], i) == Some(m)
    decreases m - i
  {
    if i < m {
      MonthNamesDistinct(i, m);
      IndexFromFinds(m, i + 1);
    }
  }

  lemma MonthIndexOfMonth(m: int)
    requires 0 <= m < 12
    ensures MonthIndex(MONTHS[m]) == Some(m)
  {
    IndexFromFinds(m, 0);
  }

  lemma MonthWithoutSpace(m: int)
    requires 0 <= m < 12
    ensures ' ' !in MONTHS[m]
  {
  }

  /** Read "HH:MM D Mon YYYY" back into date components. */
  function ParseDateTime(s: string): Option<DateParts> {
    if |s| < 6 || s[2] != ':' || s[5] != ' ' then None
    else
      var fields := Split(s[6..], ' ');
      if |fields| != 3 then None
      else
        var h, m, d, mo, y := ParseInt(s[..2]), ParseInt(s[3..5]), ParseInt(fields[0]), MonthIndex(fields[1]), ParseInt(fields[2]);
        if h.Finite? && m.Finite? && d.Finite? && mo.Some? && y.Finite?
        then Some(DateParts(h.v, m.v, d.v, mo.value, y.v))
        else None
  }

  /** A single digit padded with a leading zero reads back as that digit. */
  lemma ZeroPaddedDigit(n: int)
    requires 0 <= n < 10
    ensures PadStart(IntToString(n), 2, '0') == ['0', DigitChar(n)]
    ensures ParseInt(['0', DigitChar(n)]) == Finite(n)
  {
    assert IntToString(n) == [DigitChar(n)];
    ParseZeroThenDigit(DigitChar(n));
  }

  lemma ParseZeroThenDigit(c: char)
    requires IsDecimalDigit(c)
    ensures ParseInt(['0', c]) == Finite(DigitValue(c))
  {
    var p := ['0', c];
    ParseDigits(p);
    assert p[..1] == ['0'] && p[..1][..0] == [];
    assert ValueOf(p[..1], 10) == 0;
  }

  /** A number of two digits is left as it is by the padding. */
  lemma TwoDigitsUnpadded(n: int)
    requires 10 <= n <= 99
    ensures |IntToString(n)| == 2
    ensures PadStart(IntToString(n), 2, '0') == IntToString(n)
  {
    assert NatToString(n / 10) == [DigitChar(n / 10)];
    assert IntToString(n) == NatToString(n / 10) + [DigitChar(n % 10)];
  }

  /** A two-digit field of the format reads back as the number it was printed from. */
  lemma PaddedRoundTrip(n: int)
    requires 0 <= n <= 99
    ensures |PadStart(IntToString(n), 2, '0')| == 2
    ensures ParseInt(PadStart(IntToString(n), 2, '0')) == Finite(n)
  {
    if n < 10 {
      ZeroPaddedDigit(n);
    } else {
      TwoDigitsUnpadded(n);
      ParseIntToString(n);
    }
  }

  lemma NoSpaceInNumber(i: int)
    ensures ' ' !in IntToString(i)
  {
    var d := NatToString(if i < 0 then -i else i);
    assert forall k :: 0 <= k < |d| ==> d[k] != ' ';
    if i < 0 {
      assert IntToString(i) == "-" + d;
    }
  }

  /** Three space-free fields joined by single spaces split back into those fields. */
  lemma SplitThreeFields(d: string, mon: string, y: string)
    requires ' ' !in d && ' ' !in mon && ' ' !in y
    ensures Split(d + " " + mon + " " + y, ' ') == [d, mon, y]
  {
    assert d + " " + mon + " " + y == d + [' '] + (mon + [' '] + y);
    SplitAtFirstSep(d, mon + [' '] + y, ' ');
    SplitAtFirstSep(mon, y, ' ');
    SplitWithoutSep(y, ' ');
  }

  /** Where the fixed separators of the format fall once both clock fields are two wide. */
  lemma Layout(hh: string, mm: string, d: string, mon: string, y: string)
    requires |hh| == 2 && |mm| == 2
    ensures var s := hh + ":" + mm + " " + d + " " + mon + " " + y;
      |s| >= 6 && s[2] == ':' && s[5] == ' ' && s[..2] == hh && s[3..5] == mm &&
      s[6..] == d + " " + mon + " " + y
  {
  }

  lemma ParseLaidOut(s: string, hh: string, mm: string, d: string, mon: string, y: string, p: DateParts)
    requires |s| >= 6 && s[2] == ':' && s[5] == ' '
    requires s[..2] == hh && s[3..5] == mm && Split(s[6..], ' ') == [d, mon, y]
    requires ParseInt(hh) == Finite(p.hours) && ParseInt(mm) == Finite(p.minutes)
    requires ParseInt(d) == Finite(p.day) && MonthIndex(mon) == Some(p.month)
    requires ParseInt(y) == Finite(p.year)
    ensures ParseDateTime(s) == Some(p)
  {
  }

  /** `ParseDateTime` reads each field of a well-laid-out string independently. */
  lemma ParseFields(s: string, hh: string, mm: string, d: string, mon: string, y: string, p: DateParts)
    requires s == hh + ":" + mm + " " + d + " " + mon + " " + y
    requires |hh| == 2 && |mm| == 2
    requires ' ' !in d && ' ' !in mon && ' ' !in y
    requires ParseInt(hh) == Finite(p.hours) && ParseInt(mm) == Finite(p.minutes)
    requires ParseInt(d) == Finite(p.day) && MonthIndex(mon) == Some(p.month)
    requires ParseInt(y) == Finite(p.year)
    ensures ParseDateTime(s) == Some(p)
  {
    Layout(hh, mm, d, mon, y);
    SplitThreeFields(d, mon, y);
    ParseLaidOut(s, hh, mm, d, mon, y, p);
  }

  /**
   * The format is lossless for every date: hours and minutes take exactly two
   * characters, and reading the string back gives the same components.
   */
  lemma FormatParseRoundTrip(p: DateParts)
    requires ValidParts(p)
    ensures |PadStart(IntToString(p.hours), 2, '0')| == 2
    ensures |PadStart(IntToString(p.minutes), 2, '0')| == 2
    ensures ParseDateTime(FormatDateTime(p)) == Some(p)
  {
    PaddedRoundTrip(p.hours);
    PaddedRoundTrip(p.minutes);
    NoSpaceInNumber(p.day);
    NoSpaceInNumber(p.year);
    MonthWithoutSpace(p.month);
    ParseIntToString(p.day);
    ParseIntToString(p.year);
    MonthIndexOfMonth(p.month);
    ParseFields(FormatDateTime(p), PadStart(IntToString(p.hours), 2, '0'), PadStart(IntToString(p.minutes), 2, '0'),
                IntToString(p.day), MONTHS[p.month], IntToString(p.year), p);
  }
}
