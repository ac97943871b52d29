/** `dateFormatter`: the text of an x-axis tick and of a tooltip title, for
    the graph's interval. The timestamp arrives here already broken into the
    fields the formatter reads: the UTC month (0-11) and day of the month,
    and the hour (0-23) in the browser's time zone. */
module DateLabels {

  import opened Wrappers
  import opened Decimal

  const Months: seq<string> := [
    "January", "February", "March",
    "April", "May", "June", "July",
    "August", "September", "October",
    "November", "December"
  ]

  /** The hour on a 12-hour clock: 1 to 12, midnight and noon being 12. */
  function Hour12(hours: nat): (h: nat)
    requires hours < 24
    ensures 1 <= h <= 12 && h % 12 == hours % 12
  {
    var h := hours % 12;
    if h != 0 then h else 12
  }

  /** The suffix of an hour label: pm from noon on, am before. */
  function Meridiem(hours: nat): (s: string)
    ensures s == "pm" <==> hours >= 12
    ensures s == "am" <==> hours < 12
  {
    if hours >= 12 then "pm" else "am"
  }

  /** The label for an interval of "month", "date" or "hour"; any other
      interval has no label (the formatter returns undefined). */
  function FormatDate(interval: string, month: nat, day: nat, hours: nat): (r: Option<string>)
    requires month < 12 && 1 <= day <= 31 && hours < 24
    ensures r.Some? <==> interval in {"month", "date", "hour"}
  {
    if interval == "month" then Some(Months[month])
    else if interval == "date" then Some(NatToString(day) + " " + Months[month])
    else if interval == "hour" then Some(NatToString(Hour12(hours)) + Meridiem(hours))
    else None
  }

  /** Every month has its own name. */
  lemma MonthsDistinct(m1: nat, m2: nat)
    requires m1 < 12 && m2 < 12
    ensures Months[m1] == Months[m2] <==> m1 == m2
  {
  }

  /** Month labels tell the months apart. */
  lemma MonthLabelsDistinct(m1: nat, m2: nat, day: nat, hours: nat)
    requires m1 < 12 && m2 < 12 && 1 <= day <= 31 && hours < 24
    ensures FormatDate("month", m1, day, hours) == FormatDate("month", m2, day, hours) <==> m1 == m2
  {
    MonthsDistinct(m1, m2);
  }

  /** The number of decimal digits a string starts with. */
  function LeadingDigits(s: string): nat {
    if s != [] && IsDigit(s[0]) then 1 + LeadingDigits(s[1..]) else 0
  }

  /** A date label's day is the run of digits before its space. */
  lemma {:induction false} LeadingDigitsBeforeSpace(a: string, x: string)
    requires AllDigits(a)
    ensures LeadingDigits(a + " " + x) == |a|
    decreases |a|
  {
    if a != [] {
      assert (a + " " + x)[1..] == a[1..] + " " + x;
      LeadingDigitsBeforeSpace(a[1..], x);
    }
  }

  /** Two digit strings each followed by a space can only give the same text
      when the digits are the same. */
  lemma DigitsBeforeSpace(a: string, b: string, x: string, y: string)
    requires AllDigits(a) && AllDigits(b)
    requires a + " " + x == b + " " + y
    ensures a == b && x == y
  {
    var s := a + " " + x;
    LeadingDigitsBeforeSpace(a, x);
    LeadingDigitsBeforeSpace(b, y);
    assert a == s[..|a|] == b;
    assert x == s[|a| + 1..] == y;
  }

  /** Date labels tell the days apart: different (day, month) pairs never
      share a label. */
  lemma DateLabelsDistinct(m1: nat, d1: nat, m2: nat, d2: nat, hours: nat)
    requires m1 < 12 && m2 < 12 && 1 <= d1 <= 31 && 1 <= d2 <= 31 && hours < 24
    ensures FormatDate("date", m1, d1, hours) == FormatDate("date", m2, d2, hours) <==> m1 == m2 && d1 == d2
  {
    if FormatDate("date", m1, d1, hours) == FormatDate("date", m2, d2, hours) {
      DigitsBeforeSpace(NatToString(d1), NatToString(d2), Months[m1], Months[m2]);
      NatToStringInjective(d1, d2);
      MonthsDistinct(m1, m2);
    }
  }

  /** The 12-hour number and the am/pm suffix together give back the hour. */
  lemma HourFromClock(hours: nat)
    requires hours < 24
    ensures hours == Hour12(hours) % 12 + (if Meridiem(hours) == "pm" then 12 else 0)
  {
  }

  /** Hour labels tell the hours of a day apart. */
  lemma HourLabelsDistinct(h1: nat, h2: nat, month: nat, day: nat)
    requires h1 < 24 && h2 < 24 && month < 12 && 1 <= day <= 31
    ensures FormatDate("hour", month, day, h1) == FormatDate("hour", month, day, h2) <==> h1 == h2
  {
    if FormatDate("hour", month, day, h1) == FormatDate("hour", month, day, h2) {
      var a, b := NatToString(Hour12(h1)), NatToString(Hour12(h2));
      var s := a + Meridiem(h1);
      assert s == b + Meridiem(h2);
      assert |a| == |b| by {
        assert |Meridiem(h1)| == |Meridiem(h2)| == 2;
      }
      assert a == s[..|a|] == b;
      assert Meridiem(h1) == s[|a|..] == Meridiem(h2);
      NatToStringInjective(Hour12(h1), Hour12(h2));
      HourFromClock(h1);
      HourFromClock(h2);
    }
  }

  /** Sample labels: "March", "5 March", "12am", "1pm". */
  lemma FormatDateExamples()
    ensures FormatDate("month", 2, 15, 0) == Some("March")
    ensures FormatDate("date", 2, 5, 0) == Some("5 March")
    ensures FormatDate("hour", 2, 5, 0) == Some("12am")
    ensures FormatDate("hour", 2, 5, 13) == Some("1pm")
    ensures FormatDate("week", 2, 5, 13) == None
  {
    assert DigitChar(1) == '1' && DigitChar(2) == '2' && DigitChar(5) == '5';
    assert NatToString(5) + " " + Months[2] == "5 March";
    assert NatToString(12) + Meridiem(0) == "12am";
    assert NatToString(1) + Meridiem(13) == "1pm";
  }
}
