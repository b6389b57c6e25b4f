/**
 * Clock-time strings as the booking schema accepts them (`^([0-1]?[0-9]|2[0-3]):[0-5][0-9]$`),
 * the `split(':').map(Number)` parse the source applies to them, the zero-padded
 * form the slot loop produces, JavaScript's ordering of strings, and the two
 * interval tests the source builds from that ordering.
 */
module Clock {
  const MinuteMs: int := 60000
  const HourMs: int := 3600000
  const DayMs: int := 86400000

  predicate IsDigit(c: char) { '0' <= c <= '9' }

  function DigitValue(c: char): (d: nat)
    requires IsDigit(c)
    ensures d <= 9
  {
    c as int - '0' as int
  }

  function DigitChar(d: nat): (c: char)
    requires d <= 9
    ensures IsDigit(c) && DigitValue(c) == d
  {
    ('0' as int + d) as char
  }

  /** The hour alternative of the pattern: `[0-1]?[0-9]|2[0-3]`. */
  predicate IsHourField(h: string) {
    (|h| == 1 && IsDigit(h[0])) ||
    (|h| == 2 && (('0' <= h[0] <= '1' && IsDigit(h[1])) || (h[0] == '2' && '0' <= h[1] <= '3')))
  }

  /** The minute part of the pattern: `[0-5][0-9]`. */
  predicate IsMinuteField(m: string) {
    |m| == 2 && '0' <= m[0] <= '5' && IsDigit(m[1])
  }

  /** The whole pattern; the hour may have one digit ("9:00") or two ("09:00"). */
  predicate IsTimeString(s: string) {
    (|s| == 4 || |s| == 5) &&
    IsHourField(s[..|s| - 3]) && s[|s| - 3] == ':' && IsMinuteField(s[|s| - 2..])
  }

  /** A time string with a two-digit hour, the form `padStart(2, '0')` produces. */
  predicate IsPadded(s: string) {
    IsTimeString(s) && |s| == 5
  }

  /** `h * 60 + m` where `[h, m] = s.split(':').map(Number)`. */
  function Minutes(s: string): (m: nat)
    requires IsTimeString(s)
    ensures m < 1440
  {
    var k := |s| - 3;
    var h := if k == 1 then DigitValue(s[0]) else 10 * DigitValue(s[0]) + DigitValue(s[1]);
    assert h <= 23 by {
      if k == 2 {
        assert s[..k][0] == s[0] && s[..k][1] == s[1];
      }
    }
    assert s[k + 1] == s[|s| - 2..][0];
    h * 60 + 10 * DigitValue(s[k + 1]) + DigitValue(s[k + 2])
  }

  /** `n.toString().padStart(2, '0')` for a number below 100. */
  function Pad2(n: nat): (s: string)
    requires n < 100
    ensures |s| == 2 && IsDigit(s[0]) && IsDigit(s[1])
    ensures 10 * DigitValue(s[0]) + DigitValue(s[1]) == n
  {
    [DigitChar(n / 10), DigitChar(n % 10)]
  }

  /** The slot loop's `${hh}:${mm}` rendering of a minute count. */
  function Format(m: nat): (s: string)
    requires m < 6000
    ensures |s| == 5 && s[2] == ':'
  {
    Pad2(m / 60) + ":" + Pad2(m % 60)
  }

  /** Rendering a minute of the day and parsing it back gives the same minute. */
  lemma FormatThenParse(m: nat)
    requires m < 1440
    ensures IsPadded(Format(m))
    ensures Minutes(Format(m)) == m
  {
    var s := Format(m);
    assert s[..2] == Pad2(m / 60);
    assert s[3..] == Pad2(m % 60);
  }

  /** Parsing a zero-padded time string and rendering it back gives the same string. */
  lemma {:induction false} ParseThenFormat(s: string)
    requires IsPadded(s)
    ensures Format(Minutes(s)) == s
  {
    var h := 10 * DigitValue(s[0]) + DigitValue(s[1]);
    var mm := 10 * DigitValue(s[3]) + DigitValue(s[4]);
    assert s[..2][0] == s[0] && s[..2][1] == s[1];
    assert s[3..][0] == s[3];
    assert Minutes(s) == h * 60 + mm;
    assert Minutes(s) / 60 == h && Minutes(s) % 60 == mm;
    var f := Format(Minutes(s));
    assert f[0] == DigitChar(h / 10) && f[1] == DigitChar(h % 10);
    assert f[3] == DigitChar(mm / 10) && f[4] == DigitChar(mm % 10);
    assert h / 10 == DigitValue(s[0]) && h % 10 == DigitValue(s[1]);
    assert mm / 10 == DigitValue(s[3]) && mm % 10 == DigitValue(s[4]);
    assert f == s;
  }

  /** A one-digit hour does not survive the round trip: "9:00" comes back as "09:00". */
  lemma OneDigitHourDrifts()
    ensures IsTimeString("9:00")
    ensures Format(Minutes("9:00")) == "09:00" != "9:00"
  {
    assert "9:00"[..1] == "9";
    assert "9:00"[2..] == "00";
    assert Minutes("9:00") == 540;
    assert Format(540) == Pad2(9) + ":" + Pad2(0);
  }

  /**
   * JavaScript's `<` on strings: the first differing character decides, and a
   * proper prefix is smaller.
   */
  predicate StrLt(a: string, b: string)
    decreases |a|
  {
    |b| > 0 && (|a| == 0 || (if a[0] == b[0] then StrLt(a[1..], b[1..]) else a[0] < b[0]))
  }

  /** JavaScript's `<=` on strings. */
  predicate StrLe(a: string, b: string) {
    StrLt(a, b) || a == b
  }

  lemma {:induction false} StrLtIrreflexive(a: string)
    ensures !StrLt(a, a)
    decreases |a|
  {
    if |a| > 0 {
      StrLtIrreflexive(a[1..]);
    }
  }

  lemma {:induction false} StrLtTransitive(a: string, b: string, c: string)
    requires StrLt(a, b) && StrLt(b, c)
    ensures StrLt(a, c)
    decreases |a|
  {
    if |a| > 0 && a[0] == b[0] && b[0] == c[0] {
      StrLtTransitive(a[1..], b[1..], c[1..]);
    }
  }

  lemma {:induction false} StrLtTotal(a: string, b: string)
    ensures StrLt(a, b) || a == b || StrLt(b, a)
    decreases |a|
  {
    if |a| > 0 && |b| > 0 && a[0] == b[0] {
      StrLtTotal(a[1..], b[1..]);
      if a[1..] == b[1..] {
        assert a == [a[0]] + a[1..] && b == [b[0]] + b[1..];
      }
    }
  }

  lemma {:induction false} StrLtAsymmetric(a: string, b: string)
    requires StrLt(a, b)
    ensures !StrLt(b, a)
  {
    if StrLt(b, a) {
      StrLtTransitive(a, b, a);
      StrLtIrreflexive(a);
    }
  }

  /**
   * For zero-padded time strings, JavaScript's string order is the order of
   * the minutes they denote.
   */
  lemma {:induction false} PaddedOrderIsMinuteOrder(a: string, b: string)
    requires IsPadded(a) && IsPadded(b)
    ensures StrLt(a, b) <==> Minutes(a) < Minutes(b)
  {
    assert a[..2][0] == a[0] && a[..2][1] == a[1] && a[3..][0] == a[3];
    assert b[..2][0] == b[0] && b[..2][1] == b[1] && b[3..][0] == b[3];
    var a0, a1, a3, a4 := DigitValue(a[0]), DigitValue(a[1]), DigitValue(a[3]), DigitValue(a[4]);
    var b0, b1, b3, b4 := DigitValue(b[0]), DigitValue(b[1]), DigitValue(b[3]), DigitValue(b[4]);
    assert Minutes(a) == 600 * a0 + 60 * a1 + 10 * a3 + a4;
    assert Minutes(b) == 600 * b0 + 60 * b1 + 10 * b3 + b4;
    assert a3 <= 5 && b3 <= 5;
    assert StrLt(a, b) == if a[0] == b[0] then StrLt(a[1..], b[1..]) else a[0] < b[0];
    if a[0] == b[0] {
      assert StrLt(a[1..], b[1..]) == if a[1] == b[1] then StrLt(a[2..], b[2..]) else a[1] < b[1];
      if a[1] == b[1] {
        assert a[2] == b[2] == ':';
        assert StrLt(a[2..], b[2..]) == StrLt(a[3..], b[3..]);
        assert StrLt(a[3..], b[3..]) == if a[3] == b[3] then StrLt(a[4..], b[4..]) else a[3] < b[3];
        if a[3] == b[3] {
          assert StrLt(a[4..], b[4..]) == if a[4] == b[4] then StrLt(a[5..], b[5..]) else a[4] < b[4];
          assert a[5..] == [] && b[5..] == [];
        }
      }
    }
  }

  /** A one-digit hour breaks the correspondence: 9:00 is earlier than 10:00, yet "10:00" < "9:00". */
  lemma OneDigitHourMisorders()
    ensures IsTimeString("9:00") && IsTimeString("10:00")
    ensures Minutes("9:00") < Minutes("10:00")
    ensures StrLt("10:00", "9:00")
  {
    assert "9:00"[..1] == "9" && "9:00"[2..] == "00";
    assert "10:00"[..2] == "10" && "10:00"[3..] == "00";
    assert Minutes("9:00") == 540 && Minutes("10:00") == 600;
  }

  /**
   * The conflict test of the booking hook and the booking query:
   * `other.start < end && other.end > start`, on strings.
   */
  predicate StrOverlap(start: string, end: string, otherStart: string, otherEnd: string) {
    StrLt(otherStart, end) && StrLt(start, otherEnd)
  }

  /**
   * The three-clause test of the maintenance check and the slot loop:
   * the start lies in [s, e), or the end lies in (s, e], or the window covers [s, e].
   */
  predicate ThreeClauseOverlap(start: string, end: string, otherStart: string, otherEnd: string) {
    (StrLe(otherStart, start) && StrLt(start, otherEnd)) ||
    (StrLt(otherStart, end) && StrLe(end, otherEnd)) ||
    (StrLe(start, otherStart) && StrLe(otherEnd, end))
  }

  /** For two windows that are non-empty in string order, the two tests agree. */
  lemma ThreeClauseIsOverlap(start: string, end: string, otherStart: string, otherEnd: string)
    requires StrLt(start, end) && StrLt(otherStart, otherEnd)
    ensures ThreeClauseOverlap(start, end, otherStart, otherEnd) <==> StrOverlap(start, end, otherStart, otherEnd)
  {
    if StrLe(otherStart, start) && StrLt(start, otherEnd) {
      if otherStart != start { StrLtTransitive(otherStart, start, end); }
    }
    if StrLt(otherStart, end) && StrLe(end, otherEnd) {
      if end != otherEnd { StrLtTransitive(start, end, otherEnd); }
    }
    if StrLe(start, otherStart) && StrLe(otherEnd, end) {
      if start != otherStart { StrLtTransitive(start, otherStart, otherEnd); }
      if otherEnd != end { StrLtTransitive(otherStart, otherEnd, end); }
    }
    if StrOverlap(start, end, otherStart, otherEnd) {
      StrLtTotal(otherStart, start);
      StrLtTotal(end, otherEnd);
    }
  }

  /**
   * Whatever the order of the endpoints, windows that meet in the two-clause
   * test also meet in the three-clause test, so a slot the three-clause test
   * leaves free is free for the booking conflict test too.
   */
  lemma OverlapIsThreeClause(start: string, end: string, otherStart: string, otherEnd: string)
    requires StrOverlap(start, end, otherStart, otherEnd)
    ensures ThreeClauseOverlap(start, end, otherStart, otherEnd)
  {
    StrLtTotal(otherStart, start);
    StrLtTotal(end, otherEnd);
  }

  /** Windows that only share an endpoint never overlap ("10:00"-"11:00" and "11:00"-"12:00"). */
  lemma {:induction false} TouchingWindowsDoNotOverlap(a: string, b: string, c: string)
    ensures !StrOverlap(a, b, b, c) && !StrOverlap(b, c, a, b)
  {
    StrLtIrreflexive(b);
  }

  /** On zero-padded strings the string test is the half-open minute-interval test. */
  lemma PaddedOverlapIsMinuteOverlap(start: string, end: string, otherStart: string, otherEnd: string)
    requires IsPadded(start) && IsPadded(end) && IsPadded(otherStart) && IsPadded(otherEnd)
    ensures StrOverlap(start, end, otherStart, otherEnd) <==>
            Minutes(otherStart) < Minutes(end) && Minutes(start) < Minutes(otherEnd)
  {
    PaddedOrderIsMinuteOrder(otherStart, end);
    PaddedOrderIsMinuteOrder(start, otherEnd);
  }
}
