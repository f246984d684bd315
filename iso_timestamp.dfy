/**
 * `KrakenWebsocketTradeAPI.to_ms`: an ISO-8601 UTC timestamp such as
 * "2024-06-17T09:36:39.467866Z" to integer milliseconds since the Unix epoch.
 *
 * The Python code drops the last character, hands the rest to
 * `datetime.fromisoformat`, attaches UTC, and truncates `timestamp() * 1000`
 * with `int()`. This module models the full date-and-time form that
 * `fromisoformat` accepts (CPython 3.7 to 3.10): `YYYY-MM-DD`, any one
 * separator character, `HH:MM:SS`, then optionally `.` and exactly three or
 * six fraction digits. The calendar arithmetic is in module `Calendar`.
 */
module IsoTimestamp {
  import opened Wrappers
  import opened Calendar

  datatype TimestampError = InvalidIsoFormat

  // ------------------------------------------------------------------ parser

  predicate IsDigit(c: char)
  {
    '0' <= c <= '9'
  }

  /** The `w` characters of `s` from index `i` on are decimal digits. */
  predicate DigitsAt(s: string, i: nat, w: nat)
  {
    i + w <= |s| && forall k :: i <= k < i + w ==> IsDigit(s[k])
  }

  /** The value of the `w` digits of `s` from index `i` on, most significant first. */
  function Num(s: string, i: nat, w: nat): (n: nat)
    requires DigitsAt(s, i, w)
  {
    if w == 0 then 0 else Num(s, i, w - 1) * 10 + (s[i + w - 1] as int - '0' as int)
  }

  /** The character shape of `YYYY-MM-DD?HH:MM:SS[.fff|.ffffff]`. */
  predicate WellShaped(s: string)
  {
    && (|s| == 19 || |s| == 23 || |s| == 26)
    && DigitsAt(s, 0, 4) && s[4] == '-' && DigitsAt(s, 5, 2) && s[7] == '-' && DigitsAt(s, 8, 2)
    && DigitsAt(s, 11, 2) && s[13] == ':' && DigitsAt(s, 14, 2) && s[16] == ':' && DigitsAt(s, 17, 2)
    && (|s| > 19 ==> s[19] == '.' && DigitsAt(s, 20, |s| - 20))
  }

  /** `YYYY-MM-DD`. */
  predicate DateShaped(s: string)
  {
    |s| == 10 && s[4] == '-' && s[7] == '-' && DigitsAt(s, 0, 4) && DigitsAt(s, 5, 2) && DigitsAt(s, 8, 2)
  }

  /** `HH:MM:SS.ffffff`. */
  predicate TimeShaped(s: string)
  {
    && |s| == 15 && s[2] == ':' && s[5] == ':' && s[8] == '.'
    && DigitsAt(s, 0, 2) && DigitsAt(s, 3, 2) && DigitsAt(s, 6, 2) && DigitsAt(s, 9, 6)
  }

  /** The fields a well-shaped string spells out, before range checks. */
  function Fields(s: string): DateTime
    requires WellShaped(s)
  {
    var micro := if |s| == 19 then 0
                 else if |s| == 23 then Num(s, 20, 3) * 1000
                 else Num(s, 20, 6);
    DateTime(Num(s, 0, 4), Num(s, 5, 2), Num(s, 8, 2), Num(s, 11, 2), Num(s, 14, 2), Num(s, 17, 2), micro)
  }

  /** `datetime.fromisoformat(s)`, restricted to the full date-and-time form without offset. */
  function ParseIso(s: string): Result<DateTime, TimestampError>
  {
    if WellShaped(s) && Valid(Fields(s)) then Ok(Fields(s)) else Err(InvalidIsoFormat)
  }

  /** `to_ms(timestamp)`: drop the last character (the `Z`, whatever it is), parse, convert. */
  function ToMs(timestamp: string): Result<int, TimestampError>
  {
    var body := if |timestamp| == 0 then timestamp else timestamp[..|timestamp| - 1];
    match ParseIso(body)
    case Ok(dt) => Ok(EpochMs(dt))
    case Err(e) => Err(e)
  }

  // --------------------------------------------------------------- formatter

  function Pow10(w: nat): (p: nat)
    ensures p >= 1
  {
    if w == 0 then 1 else 10 * Pow10(w - 1)
  }

  /** `n` written with exactly `w` decimal digits, zero-padded on the left. */
  function Pad(n: nat, w: nat): (s: string)
    ensures |s| == w && DigitsAt(s, 0, w)
  {
    if w == 0 then [] else Pad(n / 10, w - 1) + [(('0' as int) + n % 10) as char]
  }

  /** `YYYY-MM-DD` from its digit groups. */
  function DatePart(y: string, mo: string, d: string): string
  {
    y + "-" + mo + "-" + d
  }

  /** `HH:MM:SS` from its digit groups. */
  function Clock(h: string, mi: string, se: string): string
  {
    h + ":" + mi + ":" + se
  }

  /** `HH:MM:SS.ffffff` from its digit groups. */
  function TimePart(h: string, mi: string, se: string, f: string): string
  {
    Clock(h, mi, se) + ("." + f)
  }

  /** The full form spelled out from its digit groups, `sep` between date and time, six fraction digits. */
  function Assemble(y: string, mo: string, d: string, sep: char, h: string, mi: string, se: string, f: string): string
  {
    DatePart(y, mo, d) + ([sep] + TimePart(h, mi, se, f))
  }

  /** `isoformat()` with six fraction digits, followed by the `Z` that `to_ms` strips. */
  function Format(dt: DateTime): string
    requires Valid(dt)
  {
    Assemble(Pad(dt.year, 4), Pad(dt.month, 2), Pad(dt.day, 2), 'T',
             Pad(dt.hour, 2), Pad(dt.minute, 2), Pad(dt.second, 2), Pad(dt.micro, 6)) + "Z"
  }

  // ------------------------------------------------------------------ lemmas

  /** Digits copied from `g` at index `j` into `s` at index `i` are still digits and read as the same number. */
  lemma {:induction false} NumCopy(g: string, j: nat, s: string, i: nat, w: nat)
    requires DigitsAt(g, j, w) && i + w <= |s|
    requires forall k :: i <= k < i + w ==> s[k] == g[k - i + j]
    ensures DigitsAt(s, i, w) && Num(s, i, w) == Num(g, j, w)
  {
    if w > 0 {
      NumCopy(g, j, s, i, w - 1);
      assert s[i + w - 1] == g[j + w - 1];
    }
  }

  /** Padding loses nothing: a number of at most `w` digits reads back as itself. */
  lemma {:induction false} PadValue(n: nat, w: nat)
    requires n < Pow10(w)
    ensures Num(Pad(n, w), 0, w) == n
  {
    if w > 0 {
      NumCopy(Pad(n / 10, w - 1), 0, Pad(n, w), 0, w - 1);
      PadValue(n / 10, w - 1);
    }
  }

  lemma NumInLeft(a: string, b: string, j: nat, w: nat)
    requires DigitsAt(a, j, w)
    ensures DigitsAt(a + b, j, w) && Num(a + b, j, w) == Num(a, j, w)
  {
    NumCopy(a, j, a + b, j, w);
  }

  lemma NumInRight(a: string, b: string, j: nat, w: nat)
    requires DigitsAt(b, j, w)
    ensures DigitsAt(a + b, |a| + j, w) && Num(a + b, |a| + j, w) == Num(b, j, w)
  {
    NumCopy(b, j, a + b, |a| + j, w);
  }

  lemma DatePartFields(y: string, mo: string, d: string)
    requires |y| == 4 && |mo| == 2 && |d| == 2
    requires DigitsAt(y, 0, 4) && DigitsAt(mo, 0, 2) && DigitsAt(d, 0, 2)
    ensures var s := DatePart(y, mo, d);
            && DateShaped(s)
            && Num(s, 0, 4) == Num(y, 0, 4) && Num(s, 5, 2) == Num(mo, 0, 2) && Num(s, 8, 2) == Num(d, 0, 2)
  {
    var s := DatePart(y, mo, d);
    NumCopy(y, 0, s, 0, 4);
    NumCopy(mo, 0, s, 5, 2);
    NumInRight(y + "-" + mo + "-", d, 0, 2);
  }

  lemma ClockFields(h: string, mi: string, se: string)
    requires |h| == 2 && |mi| == 2 && |se| == 2
    requires DigitsAt(h, 0, 2) && DigitsAt(mi, 0, 2) && DigitsAt(se, 0, 2)
    ensures var c := Clock(h, mi, se);
            && |c| == 8 && c[2] == ':' && c[5] == ':'
            && DigitsAt(c, 0, 2) && DigitsAt(c, 3, 2) && DigitsAt(c, 6, 2)
            && Num(c, 0, 2) == Num(h, 0, 2) && Num(c, 3, 2) == Num(mi, 0, 2) && Num(c, 6, 2) == Num(se, 0, 2)
  {
    var c := Clock(h, mi, se);
    NumCopy(h, 0, c, 0, 2);
    NumCopy(mi, 0, c, 3, 2);
    NumInRight(h + ":" + mi + ":", se, 0, 2);
  }

  /** A clock followed by a fraction makes a time part with their fields. */
  lemma FractionFields(clock: string, f: string)
    requires |clock| == 8 && clock[2] == ':' && clock[5] == ':'
    requires DigitsAt(clock, 0, 2) && DigitsAt(clock, 3, 2) && DigitsAt(clock, 6, 2)
    requires |f| == 6 && DigitsAt(f, 0, 6)
    ensures var t := clock + ("." + f);
            && TimeShaped(t)
            && Num(t, 0, 2) == Num(clock, 0, 2) && Num(t, 3, 2) == Num(clock, 3, 2)
            && Num(t, 6, 2) == Num(clock, 6, 2) && Num(t, 9, 6) == Num(f, 0, 6)
  {
    var fraction := "." + f;
    NumInLeft(clock, fraction, 0, 2);
    NumInLeft(clock, fraction, 3, 2);
    NumInLeft(clock, fraction, 6, 2);
    NumInRight(".", f, 0, 6);
    NumInRight(clock, fraction, 1, 6);
  }

  lemma TimePartFields(h: string, mi: string, se: string, f: string)
    requires |h| == 2 && |mi| == 2 && |se| == 2 && |f| == 6
    requires DigitsAt(h, 0, 2) && DigitsAt(mi, 0, 2) && DigitsAt(se, 0, 2) && DigitsAt(f, 0, 6)
    ensures var t := TimePart(h, mi, se, f);
            && TimeShaped(t)
            && Num(t, 0, 2) == Num(h, 0, 2) && Num(t, 3, 2) == Num(mi, 0, 2)
            && Num(t, 6, 2) == Num(se, 0, 2) && Num(t, 9, 6) == Num(f, 0, 6)
  {
    ClockFields(h, mi, se);
    FractionFields(Clock(h, mi, se), f);
  }

  /** A date part and a time part joined by any separator make a well-shaped string with their fields. */
  lemma JoinFields(date: string, sep: char, time: string)
    requires DateShaped(date) && TimeShaped(time)
    ensures WellShaped(date + ([sep] + time))
    ensures Fields(date + ([sep] + time)) ==
              DateTime(Num(date, 0, 4), Num(date, 5, 2), Num(date, 8, 2),
                       Num(time, 0, 2), Num(time, 3, 2), Num(time, 6, 2), Num(time, 9, 6))
  {
    var rest := [sep] + time;
    NumInLeft(date, rest, 0, 4);
    NumInLeft(date, rest, 5, 2);
    NumInLeft(date, rest, 8, 2);
    NumInRight([sep], time, 0, 2);
    NumInRight(date, rest, 1, 2);
    NumInRight([sep], time, 3, 2);
    NumInRight(date, rest, 4, 2);
    NumInRight([sep], time, 6, 2);
    NumInRight(date, rest, 7, 2);
    NumInRight([sep], time, 9, 6);
    NumInRight(date, rest, 10, 6);
  }

  /**
   * Any string assembled from digit groups of the right widths is well
   * shaped, whatever the separator, and its fields are the groups' values.
   */
  lemma AssembleFields(y: string, mo: string, d: string, sep: char, h: string, mi: string, se: string, f: string)
    requires |y| == 4 && |mo| == 2 && |d| == 2 && |h| == 2 && |mi| == 2 && |se| == 2 && |f| == 6
    requires DigitsAt(y, 0, 4) && DigitsAt(mo, 0, 2) && DigitsAt(d, 0, 2)
    requires DigitsAt(h, 0, 2) && DigitsAt(mi, 0, 2) && DigitsAt(se, 0, 2) && DigitsAt(f, 0, 6)
    ensures WellShaped(Assemble(y, mo, d, sep, h, mi, se, f))
    ensures Fields(Assemble(y, mo, d, sep, h, mi, se, f)) ==
              DateTime(Num(y, 0, 4), Num(mo, 0, 2), Num(d, 0, 2), Num(h, 0, 2), Num(mi, 0, 2), Num(se, 0, 2), Num(f, 0, 6))
  {
    DatePartFields(y, mo, d);
    TimePartFields(h, mi, se, f);
    JoinFields(DatePart(y, mo, d), sep, TimePart(h, mi, se, f));
  }

  /** Reading back what `Format` wrote gives the same date and time. */
  lemma FormatRoundTrip(dt: DateTime)
    requires Valid(dt)
    ensures ParseIso(Format(dt)[..|Format(dt)| - 1]) == Ok(dt)
    ensures ToMs(Format(dt)) == Ok(EpochMs(dt))
  {
    var body := Assemble(Pad(dt.year, 4), Pad(dt.month, 2), Pad(dt.day, 2), 'T',
                         Pad(dt.hour, 2), Pad(dt.minute, 2), Pad(dt.second, 2), Pad(dt.micro, 6));
    assert Format(dt)[..|Format(dt)| - 1] == body;
    AssembleFields(Pad(dt.year, 4), Pad(dt.month, 2), Pad(dt.day, 2), 'T',
                   Pad(dt.hour, 2), Pad(dt.minute, 2), Pad(dt.second, 2), Pad(dt.micro, 6));
    PadValue(dt.year, 4);
    PadValue(dt.month, 2);
    PadValue(dt.day, 2);
    PadValue(dt.hour, 2);
    PadValue(dt.minute, 2);
    PadValue(dt.second, 2);
    PadValue(dt.micro, 6);
  }

  /** Writing out the value of a digit group with its own width gives the group back. */
  lemma {:induction false} PadNum(s: string, i: nat, w: nat)
    requires DigitsAt(s, i, w)
    ensures Pad(Num(s, i, w), w) == s[i..i + w]
  {
    if w > 0 {
      assert DigitsAt(s, i, w - 1);
      PadNum(s, i, w - 1);
      var d := s[i + w - 1] as int - '0' as int;
      assert IsDigit(s[i + w - 1]);
      assert Num(s, i, w) / 10 == Num(s, i, w - 1) && Num(s, i, w) % 10 == d;
      assert s[i..i + w] == s[i..i + w - 1] + [s[i + w - 1]];
    }
  }

  /** The date part of a well-shaped string is its digit groups joined by `-`. */
  lemma DateSlices(s: string)
    requires WellShaped(s)
    ensures DatePart(s[..4], s[5..7], s[8..10]) == s[..10]
  {
    var date := DatePart(s[..4], s[5..7], s[8..10]);
    assert |date| == 10;
    assert forall k :: 0 <= k < 10 ==> date[k] == s[k];
  }

  /** The time part of a well-shaped 26-character string is its digit groups joined by `:` and `.`. */
  lemma TimeSlices(s: string)
    requires WellShaped(s) && |s| == 26
    ensures TimePart(s[11..13], s[14..16], s[17..19], s[20..26]) == s[11..]
  {
    var clock := Clock(s[11..13], s[14..16], s[17..19]);
    assert |clock| == 8;
    assert forall k :: 0 <= k < 8 ==> clock[k] == s[11 + k];
    assert clock == s[11..19];
    assert s[11..] == s[11..19] + ("." + s[20..26]);
  }

  /** A well-shaped 26-character string is its own digit groups put back together. */
  lemma AssembleSlices(s: string)
    requires WellShaped(s) && |s| == 26
    ensures Assemble(s[..4], s[5..7], s[8..10], s[10], s[11..13], s[14..16], s[17..19], s[20..26]) == s
  {
    DateSlices(s);
    TimeSlices(s);
    assert s == s[..10] + ([s[10]] + s[11..]);
  }

  /**
   * The converse of `FormatRoundTrip`: a 26-character, `T`-separated string
   * that `fromisoformat` accepts is exactly what `Format` writes for its value,
   * less the trailing `Z`.
   */
  lemma ParseFormat(s: string)
    requires |s| == 26 && s[10] == 'T' && ParseIso(s).Ok?
    ensures Format(ParseIso(s).value) == s + "Z"
  {
    PadFields(s);
    AssembleSlices(s);
  }

  /** Each field of a well-shaped 26-character string, written out again, is its digit group. */
  lemma PadFields(s: string)
    requires WellShaped(s) && |s| == 26
    ensures var dt := Fields(s);
            && Pad(dt.year, 4) == s[..4] && Pad(dt.month, 2) == s[5..7] && Pad(dt.day, 2) == s[8..10]
            && Pad(dt.hour, 2) == s[11..13] && Pad(dt.minute, 2) == s[14..16] && Pad(dt.second, 2) == s[17..19]
            && Pad(dt.micro, 6) == s[20..26]
  {
    PadNum(s, 0, 4);
    PadNum(s, 5, 2);
    PadNum(s, 8, 2);
    PadNum(s, 11, 2);
    PadNum(s, 14, 2);
    PadNum(s, 17, 2);
    PadNum(s, 20, 6);
  }

  /** `to_ms` preserves order: of two timestamps it accepts, the later one has the larger value. */
  lemma ToMsMonotone(s: string, t: string)
    requires |s| > 0 && |t| > 0
    requires ParseIso(s[..|s| - 1]).Ok? && ParseIso(t[..|t| - 1]).Ok?
    requires NotAfter(ParseIso(s[..|s| - 1]).value, ParseIso(t[..|t| - 1]).value)
    ensures ToMs(s).Ok? && ToMs(t).Ok? && ToMs(s).value <= ToMs(t).value
  {
    EpochMsMonotone(ParseIso(s[..|s| - 1]).value, ParseIso(t[..|t| - 1]).value);
  }

  lemma ExampleDate()
    ensures DateShaped("2024-06-17")
    ensures Num("2024-06-17", 0, 4) == 2024 && Num("2024-06-17", 5, 2) == 6 && Num("2024-06-17", 8, 2) == 17
  {
  }

  lemma ExampleTime()
    ensures TimeShaped("09:36:39.467866")
    ensures Num("09:36:39.467866", 0, 2) == 9 && Num("09:36:39.467866", 3, 2) == 36
    ensures Num("09:36:39.467866", 6, 2) == 39 && Num("09:36:39.467866", 9, 6) == 467866
  {
  }

  lemma ExampleSplit()
    ensures "2024-06-17T09:36:39.467866" == "2024-06-17" + ("T" + "09:36:39.467866")
  {
  }

  /** The docstring's example, without its `Z`, parses to 2024-06-17 09:36:39.467866. */
  lemma ExampleParse()
    ensures ParseIso("2024-06-17T09:36:39.467866") == Ok(DateTime(2024, 6, 17, 9, 36, 39, 467866))
  {
    ExampleSplit();
    ExampleDate();
    ExampleTime();
    JoinFields("2024-06-17", 'T', "09:36:39.467866");
  }

  /** The example of the Python docstring. */
  lemma DocstringExample()
    ensures ToMs("2024-06-17T09:36:39.467866Z") == Ok(1_718_616_999_467)
  {
    assert "2024-06-17T09:36:39.467866Z"[..26] == "2024-06-17T09:36:39.467866";
    ExampleParse();
    var dt := DateTime(2024, 6, 17, 9, 36, 39, 467866);
    assert 2023 / 4 == 505 && 2023 / 100 == 20 && 2023 / 400 == 5;
    assert DaysBeforeYear(2024) == 738_885;
    assert IsLeap(2024) && DaysBeforeMonth(2024, 6) == 152;
    assert EpochMicros(dt) == 1_718_616_999_467_866;
  }
}
