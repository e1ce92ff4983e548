/**
 The creation date stamped on every task: day, 1-based month and full year joined by '/',
 none of them zero-padded. The clock is not modelled; its three readings are a CalendarDate.
 */
module Dates {
  import opened Wrappers
  import opened Decimal

  /** The clock readings the formatter uses: day of month, 0-based month index, full year. */
  datatype CalendarDate = CalendarDate(day: nat, monthIndex: nat, year: int)

  const Separator: char := '/'

  /** The text stored in a task's `date` field: its three '/'-separated fields are the unpadded
      day, month index plus one, and year, and it reads back as the readings it came from. */
  function FormatDate(c: CalendarDate): (r: string)
    ensures Fields(r) == [NatToString(c.day), NatToString(c.monthIndex + 1), IntToString(c.year)]
    ensures ParseDate(r) == Some(c)
  {
    var d, m, y := NatToString(c.day), NatToString(c.monthIndex + 1), IntToString(c.year);
    YearHasNoSeparator(c.year);
    JoinFields(d, m, y);
    IntRoundTrip(c.year);
    d + [Separator] + m + [Separator] + y
  }

  /** Cuts a string at every separator; the result always has one more field than separators. */
  function Fields(s: string): (r: seq<string>)
    ensures |r| > 0
  {
    if s == [] then [""]
    else
      var rest := Fields(s[1..]);
      if s[0] == Separator then [""] + rest else [[s[0]] + rest[0]] + rest[1..]
  }

  /** Reads a date text back into its clock readings; None when it is not of the form D/M/Y. */
  function ParseDate(s: string): Option<CalendarDate> {
    var f := Fields(s);
    if |f| == 3 && Canonical(f[0]) && Canonical(f[1]) && ParseNat(f[1]) > 0 && ParseInt(f[2]).Some? then
      Some(CalendarDate(ParseNat(f[0]), ParseNat(f[1]) - 1, ParseInt(f[2]).value))
    else None
  }

  lemma {:induction false} FieldsNoSeparator(a: string)
    requires Separator !in a
    ensures Fields(a) == [a]
  {
    if a != [] {
      assert a[0] in a;
      assert a == [a[0]] + a[1..];
      FieldsNoSeparator(a[1..]);
    }
  }

  lemma {:induction false} FieldsSplit(a: string, b: string)
    requires Separator !in a
    ensures Fields(a + [Separator] + b) == [a] + Fields(b)
  {
    if a == [] {
      assert a + [Separator] + b == [Separator] + b;
    } else {
      assert a[0] in a;
      assert a == [a[0]] + a[1..];
      FieldsSplit(a[1..], b);
      assert (a + [Separator] + b)[1..] == a[1..] + [Separator] + b;
    }
  }

  lemma DigitsHaveNoSeparator(s: string)
    requires AllDigits(s)
    ensures Separator !in s
  {
  }

  lemma YearHasNoSeparator(year: int)
    ensures Separator !in IntToString(year)
  {
    if year < 0 {
      DigitsHaveNoSeparator(NatToString(-year));
      assert IntToString(year) == ['-'] + NatToString(-year);
    } else {
      DigitsHaveNoSeparator(IntToString(year));
    }
  }

  /** Three separator-free texts joined by the separator are cut back into exactly those three. */
  lemma JoinFields(d: string, m: string, y: string)
    requires Separator !in d && Separator !in m && Separator !in y
    ensures Fields(d + [Separator] + m + [Separator] + y) == [d, m, y]
  {
    FieldsNoSeparator(y);
    FieldsSplit(m, y);
    assert d + [Separator] + m + [Separator] + y == d + [Separator] + (m + [Separator] + y);
    FieldsSplit(d, m + [Separator] + y);
  }

  /** The three '/'-separated fields of a date are the canonical decimal day, month number and year;
      for a month index in 0..11 the month field is in 1..12. */
  lemma DateFields(c: CalendarDate)
    ensures Fields(FormatDate(c)) == [NatToString(c.day), NatToString(c.monthIndex + 1), IntToString(c.year)]
    ensures Canonical(Fields(FormatDate(c))[0]) && Canonical(Fields(FormatDate(c))[1])
    ensures c.monthIndex < 12 ==> 1 <= ParseNat(Fields(FormatDate(c))[1]) <= 12
  {
  }

  /** The formatter loses nothing: the date text determines the clock readings it came from. */
  lemma DateRoundTrip(c: CalendarDate)
    ensures ParseDate(FormatDate(c)) == Some(c)
  {
  }

  lemma FormatDateInjective(c1: CalendarDate, c2: CalendarDate)
    ensures FormatDate(c1) == FormatDate(c2) <==> c1 == c2
  {
    DateRoundTrip(c1);
    DateRoundTrip(c2);
  }
}
