/**
  The clock-label conversion used to show the recommended execution window:

      datetime.strptime(f"{h}:00", "%H:%M").strftime("%I:%M %p")

  Three stages are modelled: the f-string that renders the hour in decimal,
  CPython's `_strptime` matching of "%H:%M" (a regular expression whose
  %H alternatives are `2[0-3]|[0-1]\d|\d` and whose %M alternatives are
  `[0-5]\d|\d`, followed by the "unconverted data remains" check), and the
  C-locale `strftime` rendering of "%I:%M %p".  A `ValueError` raised by
  `strptime` is `None`.
*/
module Clock {
  import opened Wrappers

  /** The hour and minute fields of the `datetime` that `strptime` builds. */
  datatype Time = Time(hour: int, minute: int)

  predicate IsDigit(c: char) {
    '0' <= c <= '9'
  }

  function DigitValue(c: char): (v: int)
    requires IsDigit(c)
    ensures 0 <= v <= 9
  {
    c as int - '0' as int
  }

  function DigitChar(d: int): (c: char)
    requires 0 <= d <= 9
    ensures IsDigit(c) && DigitValue(c) == d
  {
    ('0' as int + d) as char
  }

  /** The number a string of decimal digits denotes (most significant first). */
  function DigitsValue(s: string): int
    requires forall i :: 0 <= i < |s| ==> IsDigit(s[i])
  {
    if s == [] then 0 else 10 * DigitsValue(s[..|s| - 1]) + DigitValue(s[|s| - 1])
  }

  /** `str(n)` for a non-negative integer: its shortest decimal rendering. */
  function Decimal(n: nat): (s: string)
    ensures 1 <= |s|
    ensures forall i :: 0 <= i < |s| ==> IsDigit(s[i])
    ensures DigitsValue(s) == n
    ensures n < 10 <==> |s| == 1
    ensures n >= 100 ==> |s| >= 3
    ensures n > 0 ==> s[0] != '0'
  {
    if n < 10 then [DigitChar(n)]
    else
      var s := Decimal(n / 10) + [DigitChar(n % 10)];
      assert s[..|s| - 1] == Decimal(n / 10);
      s
  }

  /** The string `f"{h}:00"` handed to `strptime`: the hour's digits, then ":00". */
  function HourText(h: nat): (r: string)
    ensures 4 <= |r| && r[|r| - 3..] == ":00"
    ensures forall i :: 0 <= i < |r| - 3 ==> IsDigit(r[i])
    ensures DigitsValue(r[..|r| - 3]) == h
    ensures h < 10 <==> |r| == 4
    ensures h > 0 ==> r[0] != '0'
  {
    var r := Decimal(h) + ":00";
    assert r[..|r| - 3] == Decimal(h);
    r
  }

  /**
    The ways the %H group can match at the front of `s`, in the order the
    regular-expression engine tries them: `2[0-3]`, then `[0-1]\d`, then `\d`.
    Each candidate is the hour it denotes and the number of characters it takes.
  */
  function HourCandidates(s: string): (c: seq<(int, nat)>)
    ensures forall i :: 0 <= i < |c| ==> 1 <= c[i].1 <= 2 && c[i].1 <= |s| && 0 <= c[i].0 <= 23
  {
    (if 2 <= |s| && s[0] == '2' && '0' <= s[1] <= '3' then [(20 + DigitValue(s[1]), 2)] else [])
    + (if 2 <= |s| && '0' <= s[0] <= '1' && IsDigit(s[1]) then [(10 * DigitValue(s[0]) + DigitValue(s[1]), 2)] else [])
    + (if 1 <= |s| && IsDigit(s[0]) then [(DigitValue(s[0]), 1)] else [])
  }

  /** The ways the %M group can match at the front of `s`: `[0-5]\d`, then `\d`. */
  function MinuteCandidates(s: string): (c: seq<(int, nat)>)
    ensures forall i :: 0 <= i < |c| ==> 1 <= c[i].1 <= 2 && c[i].1 <= |s| && 0 <= c[i].0 <= 59
  {
    (if 2 <= |s| && '0' <= s[0] <= '5' && IsDigit(s[1]) then [(10 * DigitValue(s[0]) + DigitValue(s[1]), 2)] else [])
    + (if 1 <= |s| && IsDigit(s[0]) then [(DigitValue(s[0]), 1)] else [])
  }

  /**
    `re.match` of the "%H:%M" pattern against `s`, trying the hour candidates
    `hs` in order: the first one followed by ':' and some minute candidate wins,
    and since nothing follows %M the first minute candidate is kept.  The
    result is the time read and the index where the match ends.
  */
  function FirstMatch(s: string, hs: seq<(int, nat)>): (r: Option<(Time, nat)>)
    requires forall i :: 0 <= i < |hs| ==> 1 <= hs[i].1 <= |s| && 0 <= hs[i].0 <= 23
    ensures r.Some? ==> 0 <= r.value.0.hour <= 23 && 0 <= r.value.0.minute <= 59 && r.value.1 <= |s|
    decreases |hs|
  {
    if hs == [] then None
    else
      var k := hs[0].1;
      if k < |s| && s[k] == ':' && MinuteCandidates(s[k + 1..]) != [] then
        var m := MinuteCandidates(s[k + 1..])[0];
        Some((Time(hs[0].0, m.0), k + 1 + m.1))
      else FirstMatch(s, hs[1..])
  }

  /**
    `datetime.strptime(s, "%H:%M")` on the ASCII texts `f"{h}:00"` it is
    given here: `None` (a `ValueError`) when the pattern does not match or
    when characters remain after the match.  `IsDigit` accepts ASCII digits
    only, whereas CPython's `\d` also matches other Unicode decimal digits;
    no such character can occur in `f"{h}:00"`.
  */
  function Strptime(s: string): (r: Option<Time>)
    ensures r.Some? ==> 0 <= r.value.hour <= 23 && 0 <= r.value.minute <= 59
  {
    match FirstMatch(s, HourCandidates(s))
    case None => None
    case Some(found) => if found.1 == |s| then Some(found.0) else None
  }

  /** The end of the day is rendered as the text "24:00". */
  lemma EndOfDayText()
    ensures HourText(24) == "24:00"
  {
    assert Decimal(24) == Decimal(2) + [DigitChar(4)];
  }

  /** Two-character zero-padded decimal, as the %I and %M directives print. */
  function TwoDigits(n: int): (s: string)
    requires 0 <= n <= 99
    ensures |s| == 2 && IsDigit(s[0]) && IsDigit(s[1])
    ensures 10 * DigitValue(s[0]) + DigitValue(s[1]) == n
  {
    [DigitChar(n / 10), DigitChar(n % 10)]
  }

  /** The %I value of a 24-hour hour: 12 for midnight and noon. */
  function Hour12(hour: int): int
    requires 0 <= hour <= 23
  {
    if hour % 12 == 0 then 12 else hour % 12
  }

  /** The %p value in the C locale. */
  function Meridiem(hour: int): string
    requires 0 <= hour <= 23
  {
    if hour < 12 then "AM" else "PM"
  }

  /**
    `t.strftime("%I:%M %p")`: a two-digit hour 01..12 congruent to the hour
    modulo 12, ':', the two-digit minute, a space, and "AM" before noon, "PM" after.
  */
  function Strftime12(t: Time): (r: string)
    requires 0 <= t.hour <= 23 && 0 <= t.minute <= 59
    ensures |r| == 8 && IsDigit(r[0]) && IsDigit(r[1]) && r[2] == ':' && r[5] == ' '
    ensures var i := 10 * DigitValue(r[0]) + DigitValue(r[1]);
            1 <= i <= 12 && i % 12 == t.hour % 12
    ensures IsDigit(r[3]) && IsDigit(r[4]) && 10 * DigitValue(r[3]) + DigitValue(r[4]) == t.minute
    ensures r[6..] == if t.hour < 12 then "AM" else "PM"
  {
    TwoDigits(Hour12(t.hour)) + ":" + TwoDigits(t.minute) + " " + Meridiem(t.hour)
  }

  /**
    `strptime` accepts the text of hour `h` exactly when `h` is a valid %H
    value, and then reads hour `h` and minute 0.
  */
  lemma {:induction false} StrptimeHourText(h: nat)
    ensures Strptime(HourText(h)) == if h <= 23 then Some(Time(h, 0)) else None
  {
    if h < 10 {
      OneDigitHourText(h);
    } else if h < 100 {
      TwoDigitHourText(h);
    } else {
      // Every hour candidate is followed by a digit of the hour, never by ':'.
      var s := HourText(h);
      assert IsDigit(s[1]) && IsDigit(s[2]);
      NoColonAfterHour(s, HourCandidates(s));
    }
  }

  /** A one-digit hour is read by the `\d` alternative and then ":00". */
  lemma OneDigitHourText(h: nat)
    requires h < 10
    ensures Strptime(HourText(h)) == Some(Time(h, 0))
  {
    var s := HourText(h);
    assert s == [DigitChar(h), ':', '0', '0'];
    assert MinuteCandidates(s[2..]) == [(0, 2), (0, 1)];
    assert HourCandidates(s) == [(h, 1)];
    assert FirstMatch(s, [(h, 1)]) == Some((Time(h, 0), 4));
  }

  /**
    A two-digit hour up to 23 is read by a two-character alternative; from 24
    on only `\d` matches, and its one digit is followed by a digit, not ':'.
  */
  lemma TwoDigitHourText(h: nat)
    requires 10 <= h < 100
    ensures Strptime(HourText(h)) == if h <= 23 then Some(Time(h, 0)) else None
  {
    assert Decimal(h) == Decimal(h / 10) + [DigitChar(h % 10)];
    var s := HourText(h);
    assert s == [DigitChar(h / 10), DigitChar(h % 10), ':', '0', '0'];
    if h <= 23 {
      assert MinuteCandidates(s[3..]) == [(0, 2), (0, 1)];
      assert HourCandidates(s) == [(h, 2), (h / 10, 1)];
      assert FirstMatch(s, HourCandidates(s)) == Some((Time(h, 0), 5));
    } else {
      assert HourCandidates(s) == [(h / 10, 1)];
      assert FirstMatch(s, [(h / 10, 1)]) == FirstMatch(s, []);
    }
  }

  /** No hour candidate of length 1 or 2 is followed by ':' when s[1] and s[2] are digits. */
  lemma {:induction false} NoColonAfterHour(s: string, hs: seq<(int, nat)>)
    requires 3 <= |s| && IsDigit(s[1]) && IsDigit(s[2])
    requires forall i :: 0 <= i < |hs| ==> 1 <= hs[i].1 <= 2 && 0 <= hs[i].0 <= 23
    ensures FirstMatch(s, hs) == None
    decreases |hs|
  {
    if hs != [] {
      NoColonAfterHour(s, hs[1..]);
    }
  }

  /** The window label of hour `h`, or `None` where `strptime` raises `ValueError`. */
  function HourLabel(h: nat): (r: Option<string>)
    ensures r.Some? <==> h <= 23
    ensures r.Some? ==>
              r.value == TwoDigits(if h % 12 == 0 then 12 else h % 12) + ":00 " + (if h < 12 then "AM" else "PM")
  {
    StrptimeHourText(h);
    match Strptime(HourText(h))
    case None => None
    case Some(t) => Some(Strftime12(t))
  }

  /**
    Reads a "%I:%M %p" label with zero minutes back to the 24-hour hour it
    shows; the inverse of `HourLabel` on the hours it accepts.
  */
  function ParseLabel(s: string): (r: Option<int>)
    ensures r.Some? ==> 0 <= r.value <= 23
  {
    if |s| == 8 && IsDigit(s[0]) && IsDigit(s[1]) && s[2..6] == ":00 " && (s[6..] == "AM" || s[6..] == "PM") then
      var i := 10 * DigitValue(s[0]) + DigitValue(s[1]);
      if 1 <= i <= 12 then Some(i % 12 + (if s[6..] == "PM" then 12 else 0)) else None
    else None
  }

  /** `ParseLabel` reads a label built from a 12-hour value and a meridiem. */
  lemma ParseLabelOf(i: int, m: string)
    requires 1 <= i <= 12 && (m == "AM" || m == "PM")
    ensures ParseLabel(TwoDigits(i) + ":00 " + m) == Some(i % 12 + (if m == "PM" then 12 else 0))
  {
    var s := TwoDigits(i) + ":00 " + m;
    assert s[..2] == TwoDigits(i);
    assert s[2..6] == ":00 ";
    assert s[6..] == m;
  }

  /** Every label `HourLabel` produces names the hour it was made from. */
  lemma LabelRoundTrip(h: nat)
    requires h <= 23
    ensures ParseLabel(HourLabel(h).value) == Some(h)
  {
    assert h % 12 == if h < 12 then h else h - 12;
    var i := if h % 12 == 0 then 12 else h % 12;
    var m := if h < 12 then "AM" else "PM";
    ParseLabelOf(i, m);
    assert i % 12 + (if m == "PM" then 12 else 0) == h;
  }

  /** Every label `ParseLabel` reads is exactly the label of the hour it returns. */
  lemma LabelParseSound(s: string, h: int)
    requires ParseLabel(s) == Some(h)
    ensures 0 <= h <= 23 && HourLabel(h) == Some(s)
  {
    var i := 10 * DigitValue(s[0]) + DigitValue(s[1]);
    assert h % 12 == i % 12;
    assert TwoDigits(if h % 12 == 0 then 12 else h % 12) == s[..2];
    assert s == s[..2] + s[2..6] + s[6..];
  }

  /** Different hours of the day get different labels. */
  lemma LabelsInjective(h1: nat, h2: nat)
    requires h1 <= 23 && h2 <= 23 && h1 != h2
    ensures HourLabel(h1) != HourLabel(h2)
  {
    LabelRoundTrip(h1);
    LabelRoundTrip(h2);
  }
}
