/**
 * `formatDate(tsToDate(ts), 'hh:mm')` of src/lib/metadata.ts and
 * src/lib/markdown.ts: the time stamp string is read as a JavaScript Number,
 * turned into a Date time value (whole milliseconds), and its hour and minute
 * are printed with two digits each. Instead of floating point the model reads
 * the decimal numeral exactly; times are integer seconds and div/mod.
 */
module Time {
  import opened Wrappers

  // ---------------------------------------------------------------------------
  // Digits

  predicate IsDigit(c: char) {
    '0' <= c <= '9'
  }

  predicate AllDigits(s: string) {
    forall i | 0 <= i < |s| :: IsDigit(s[i])
  }

  function DigitValue(c: char): (d: nat)
    requires IsDigit(c)
    ensures d < 10
  {
    (c as int) - ('0' as int)
  }

  function DigitChar(d: nat): (c: char)
    requires d < 10
    ensures IsDigit(c) && DigitValue(c) == d
  {
    ('0' as int + d) as char
  }

  /** The value of a string of decimal digits (0 for the empty string). */
  function DigitsValue(s: string): nat
    requires AllDigits(s)
  {
    if s == [] then 0 else DigitsValue(s[..|s| - 1]) * 10 + DigitValue(s[|s| - 1])
  }

  /** `String(n)` for a natural number. */
  function NatString(n: nat): (s: string)
    ensures AllDigits(s) && DigitsValue(s) == n
    ensures |s| == (if n < 10 then 1 else |NatString(n / 10)| + 1)
  {
    if n < 10 then [DigitChar(n)] else
      var s := NatString(n / 10) + [DigitChar(n % 10)];
      assert s[..|s| - 1] == NatString(n / 10);
      s
  }

  // ---------------------------------------------------------------------------
  // Number(ts)

  /** StrWhiteSpaceChar: the white space and line terminators `Number` trims (section 7.1.4.1 of ECMA-262). */
  predicate IsStrWhiteSpace(c: char) {
    || c == '\t' || c == '\U{000B}' || c == '\U{000C}' || c == ' ' || c == '\U{00A0}' || c == '\U{FEFF}'
    || c == '\n' || c == '\r' || c == '\U{2028}' || c == '\U{2029}'
    || c == '\U{1680}' || ('\U{2000}' <= c <= '\U{200A}') || c == '\U{202F}' || c == '\U{205F}' || c == '\U{3000}'
  }

  function TrimStart(s: string): (r: string)
    ensures |r| <= |s| && r == s[|s| - |r|..]
    ensures r == [] || !IsStrWhiteSpace(r[0])
  {
    if s != [] && IsStrWhiteSpace(s[0]) then TrimStart(s[1..]) else s
  }

  function TrimEnd(s: string): (r: string)
    ensures |r| <= |s| && r == s[..|r|]
    ensures r == [] || !IsStrWhiteSpace(r[|r| - 1])
  {
    if s != [] && IsStrWhiteSpace(s[|s| - 1]) then TrimEnd(s[..|s| - 1]) else s
  }

  /**
   * A decimal numeral `[sign] whole [. fraction]` without exponent, as
   * StrDecimalLiteral allows it: at least one digit, a fraction only after a dot.
   */
  datatype Numeral = Numeral(sign: string, whole: string, dot: bool, fraction: string)

  predicate ValidNumeral(n: Numeral) {
    && (n.sign == "" || n.sign == "+" || n.sign == "-")
    && AllDigits(n.whole) && AllDigits(n.fraction)
    && (|n.whole| > 0 || |n.fraction| > 0)
    && (!n.dot ==> n.fraction == "")
  }

  function Render(n: Numeral): string {
    n.sign + n.whole + (if n.dot then "." + n.fraction else "")
  }

  /** The digits before the first non-digit. */
  function DigitPrefix(s: string): (p: nat)
    ensures p <= |s| && AllDigits(s[..p]) && (p < |s| ==> !IsDigit(s[p]))
  {
    if s == [] || !IsDigit(s[0]) then 0 else
      var p := DigitPrefix(s[1..]) + 1;
      assert s[..p] == [s[0]] + s[1..][..p - 1];
      p
  }

  /** Reads a numeral with no surrounding white space; `None` when it is not one. */
  function ScanNumeral(s: string): (r: Option<Numeral>)
    ensures r.Some? ==> ValidNumeral(r.value) && Render(r.value) == s
  {
    var sign := if s != [] && (s[0] == '+' || s[0] == '-') then [s[0]] else "";
    SignSplit(s, sign);
    var body := s[|sign|..];
    var w := DigitPrefix(body);
    var whole := body[..w];
    var rest := body[w..];
    Glue(s, sign, body, whole, rest);
    if rest == [] then
      (if |whole| > 0 then Some(Numeral(sign, whole, false, "")) else None)
    else if rest[0] != '.' then None
    else
      var fraction := rest[1..];
      assert rest == "." + fraction;
      if AllDigits(fraction) && (|whole| > 0 || |fraction| > 0) then Some(Numeral(sign, whole, true, fraction))
      else None
  }

  lemma SignSplit(s: string, sign: string)
    requires sign == if s != [] && (s[0] == '+' || s[0] == '-') then [s[0]] else ""
    ensures |sign| <= |s| && s == sign + s[|sign|..]
  {
    if sign != "" {
      assert s == [s[0]] + s[1..];
    }
  }

  lemma Glue(s: string, sign: string, body: string, whole: string, rest: string)
    requires s == sign + body && |whole| <= |body| && whole == body[..|whole|] && rest == body[|whole|..]
    ensures s == sign + whole + rest
  {
    assert body == whole + rest;
  }

  /** The numeral `Number(ts)` reads; the empty or blank string is 0. `None` is NaN (or a form the model does not read). */
  function NumberOf(ts: string): Option<Numeral> {
    var t := TrimEnd(TrimStart(ts));
    if t == "" then Some(Numeral("", "0", false, "")) else ScanNumeral(t)
  }

  // ---------------------------------------------------------------------------
  // new Date(Number(ts) * 1000)

  /** The latest time value a Date can hold, in milliseconds (section 21.4.1.1 of ECMA-262). */
  const MaxTimeValue: int := 8_640_000_000_000_000

  function Pow10(k: nat): (p: nat)
    ensures p >= 1
  {
    if k == 0 then 1 else 10 * Pow10(k - 1)
  }

  lemma {:induction false} DigitsBelow(s: string)
    requires AllDigits(s)
    ensures DigitsValue(s) < Pow10(|s|)
  {
    if s != [] {
      DigitsBelow(s[..|s| - 1]);
    }
  }

  /** The first three fraction digits, as if padded with zeros: whole milliseconds. */
  function Millis3(fraction: string): (d: nat)
    requires AllDigits(fraction)
    ensures d < 1000
  {
    if |fraction| >= 3 then
      DigitsBelow(fraction[..3]);
      DigitsValue(fraction[..3])
    else if |fraction| == 2 then
      DigitsBelow(fraction);
      DigitsValue(fraction) * 10
    else if |fraction| == 1 then
      DigitValue(fraction[0]) * 100
    else 0
  }

  /** Some digit after the first three is not zero: the value lies strictly between two milliseconds. */
  predicate BelowMillisecond(fraction: string) {
    exists i | 3 <= i < |fraction| :: fraction[i] != '0'
  }

  /** |Number(ts)| * 1000 truncated to whole milliseconds. */
  function Magnitude(n: Numeral): nat
    requires ValidNumeral(n)
  {
    DigitsValue(n.whole) * 1000 + Millis3(n.fraction)
  }

  /** |Number(ts)| * 1000 lies beyond the Date range, where TimeClip yields NaN. */
  predicate OutOfRange(n: Numeral)
    requires ValidNumeral(n)
  {
    Magnitude(n) > MaxTimeValue || (Magnitude(n) == MaxTimeValue && BelowMillisecond(n.fraction))
  }

  /**
   * The time value of `new Date(Number(ts) * 1000)` in milliseconds: TimeClip
   * truncates toward zero. `None` is an invalid date.
   */
  function TimeValue(n: Numeral): Option<int> {
    if !ValidNumeral(n) || OutOfRange(n) then None
    else if n.sign == "-" then Some(-(Magnitude(n) as int))
    else Some(Magnitude(n))
  }

  /** The second a time value falls in: the Date getters round down. */
  function Seconds(t: Option<int>): Option<int> {
    if t.Some? then Some(t.value / 1000) else None
  }

  /**
   * The second `new Date(Number(ts) * 1000)` falls in, computed on the
   * numeral's digits: a negative stamp with a nonzero millisecond part lies in
   * the second before its whole part.
   */
  function SecondOf(n: Numeral): Option<int> {
    if !ValidNumeral(n) || OutOfRange(n) then None
    else if n.sign == "-" then Some(-(DigitsValue(n.whole) as int) - (if Millis3(n.fraction) > 0 then 1 else 0))
    else Some(DigitsValue(n.whole))
  }

  /** The second of the Date a time stamp string makes; `None` is an invalid date. */
  function Clock(ts: string): Option<int> {
    var n := NumberOf(ts);
    if n.Some? then SecondOf(n.value) else None
  }

  // ---------------------------------------------------------------------------
  // formatDate(date, 'hh:mm')

  function Hour(secs: int): (h: nat)
    ensures h < 24
  {
    (secs % 86400) / 3600
  }

  function Minute(secs: int): (m: nat)
    ensures m < 60
  {
    (secs % 3600) / 60
  }

  /** `('0' + v).slice(-2)`; `None` is NaN, which prints `aN`. */
  function Pad2(v: Option<nat>): string {
    var s := "0" + (if v.Some? then NatString(v.value) else "NaN");
    s[|s| - 2..]
  }

  /** `'hh:mm'` with `hh` and `mm` replaced; `None` is an invalid date. */
  function HhMm(secs: Option<int>): string {
    if secs.Some? then Pad2(Some(Hour(secs.value))) + ":" + Pad2(Some(Minute(secs.value)))
    else Pad2(None) + ":" + Pad2(None)
  }

  /** The UTC `hh:mm` of a time stamp string (metadata.ts, `isUTC` true). */
  function UtcTime(ts: string): string {
    HhMm(Clock(ts))
  }

  /**
   * The local `hh:mm` (markdown.ts): `offset(t)` is the host's offset from UTC,
   * in seconds, at the UTC second `t`.
   */
  function LocalTime(ts: string, offset: int -> int): string {
    var secs := Clock(ts);
    HhMm(if secs.Some? then Some(secs.value + offset(secs.value)) else None)
  }

  // ---------------------------------------------------------------------------
  // Properties

  lemma {:induction false} DigitPrefixOf(w: string, rest: string)
    requires AllDigits(w) && (rest == [] || !IsDigit(rest[0]))
    ensures DigitPrefix(w + rest) == |w|
  {
    if w != [] {
      assert (w + rest)[1..] == w[1..] + rest;
      DigitPrefixOf(w[1..], rest);
    }
  }

  /** `ScanNumeral` reads exactly the numerals: a string is read as `n` iff it is `n` written out. */
  lemma ScanNumeralIff(s: string, n: Numeral)
    ensures ScanNumeral(s) == Some(n) <==> ValidNumeral(n) && Render(n) == s
  {
    if ValidNumeral(n) && Render(n) == s {
      ScanRendered(n);
    }
  }

  lemma ScanRendered(n: Numeral)
    requires ValidNumeral(n)
    ensures ScanNumeral(Render(n)) == Some(n)
  {
    var rest := if n.dot then "." + n.fraction else "";
    RenderSplit(n, rest);
    assert rest == [] || !IsDigit(rest[0]);
    DigitPrefixOf(n.whole, rest);
    var body := n.whole + rest;
    assert body[..|n.whole|] == n.whole && body[|n.whole|..] == rest;
    if n.dot {
      assert rest[1..] == n.fraction;
    }
  }

  /** The sign a rendered numeral starts with is its own, and its body follows it. */
  lemma RenderSplit(n: Numeral, rest: string)
    requires ValidNumeral(n) && rest == if n.dot then "." + n.fraction else ""
    ensures var s := Render(n);
      && s != [] && s[|n.sign|..] == n.whole + rest
      && (if s[0] == '+' || s[0] == '-' then [s[0]] else "") == n.sign
  {
    var s := Render(n);
    var body := n.whole + rest;
    assert s == n.sign + body;
    assert body != [] && (body[0] == '.' || IsDigit(body[0])) by {
      if n.whole != [] { assert body[0] == n.whole[0]; } else { assert body[0] == '.'; }
    }
    if n.sign == "" {
      assert s == body;
    } else {
      assert s[0] == n.sign[0] && s[1..] == body;
    }
  }

  /** A string with no white space at either end is read as it stands. */
  lemma NumberOfUntrimmed(ts: string)
    requires ts != [] && !IsStrWhiteSpace(ts[0]) && !IsStrWhiteSpace(ts[|ts| - 1])
    ensures NumberOf(ts) == ScanNumeral(ts)
  {
  }

  lemma DecimalUntrimmed(whole: string, fraction: string)
    requires AllDigits(whole) && whole != [] && AllDigits(fraction)
    ensures NumberOf(whole + "." + fraction) == ScanNumeral(whole + "." + fraction)
  {
    var s := whole + "." + fraction;
    assert s[0] == whole[0];
    if fraction == [] {
      assert s[|s| - 1] == '.';
    } else {
      assert s[|s| - 1] == fraction[|fraction| - 1];
    }
    NumberOfUntrimmed(s);
  }

  /** A decimal with a fraction as `Number` reads it. */
  lemma ReadsDecimal(whole: string, fraction: string)
    requires AllDigits(whole) && whole != [] && AllDigits(fraction)
    ensures NumberOf(whole + "." + fraction) == Some(Numeral("", whole, true, fraction))
  {
    var s := whole + "." + fraction;
    var n := Numeral("", whole, true, fraction);
    assert Render(n) == s;
    ScanNumeralIff(s, n);
    DecimalUntrimmed(whole, fraction);
  }

  /** A string of digits as `Number` reads it. */
  lemma ReadsInteger(whole: string)
    requires AllDigits(whole) && whole != []
    ensures NumberOf(whole) == Some(Numeral("", whole, false, ""))
  {
    NumberOfUntrimmed(whole);
    var n := Numeral("", whole, false, "");
    assert Render(n) == whole;
    ScanNumeralIff(whole, n);
  }

  /** `SecondOf` is the second the millisecond time value falls in. */
  lemma SecondOfTimeValue(n: Numeral)
    ensures SecondOf(n) == Seconds(TimeValue(n))
  {
    if ValidNumeral(n) && !OutOfRange(n) {
      var w: int, f: int := DigitsValue(n.whole), Millis3(n.fraction);
      assert Magnitude(n) == w * 1000 + f;
      if n.sign == "-" {
        if f > 0 {
          assert -(w * 1000 + f) == 1000 * (-w - 1) + (1000 - f);
        } else {
          assert -(w * 1000 + f) == 1000 * -w;
        }
      }
    }
  }

  /**
   * Only whole seconds matter: digits after the decimal point of a positive
   * time stamp never change the second it falls in (within the Date range).
   */
  lemma FractionBelowSecond(whole: string, fraction: string)
    requires AllDigits(whole) && whole != [] && AllDigits(fraction)
    requires DigitsValue(whole) < MaxTimeValue / 1000
    ensures Clock(whole + "." + fraction) == Some(DigitsValue(whole))
    ensures Clock(whole) == Some(DigitsValue(whole))
  {
    DecimalClock(whole, fraction);
    PositiveSecond(whole, true, fraction);
    IntegerClock(whole);
    IntegerSecond(whole);
  }

  lemma DecimalClock(whole: string, fraction: string)
    requires AllDigits(whole) && whole != [] && AllDigits(fraction)
    ensures Clock(whole + "." + fraction) == SecondOf(Numeral("", whole, true, fraction))
  {
    ReadsDecimal(whole, fraction);
    ClockOf(whole + "." + fraction, Numeral("", whole, true, fraction));
  }

  lemma IntegerClock(whole: string)
    requires AllDigits(whole) && whole != []
    ensures Clock(whole) == SecondOf(Numeral("", whole, false, ""))
  {
    ReadsInteger(whole);
    ClockOf(whole, Numeral("", whole, false, ""));
  }

  lemma ClockOf(ts: string, n: Numeral)
    requires NumberOf(ts) == Some(n)
    ensures Clock(ts) == SecondOf(n)
  {
  }

  /** An unsigned numeral within the Date range falls in the second of its whole part. */
  lemma PositiveSecond(whole: string, dot: bool, fraction: string)
    requires AllDigits(whole) && whole != [] && AllDigits(fraction) && (!dot ==> fraction == [])
    requires DigitsValue(whole) < MaxTimeValue / 1000
    ensures SecondOf(Numeral("", whole, dot, fraction)) == Some(DigitsValue(whole))
  {
    assert ValidNumeral(Numeral("", whole, dot, fraction));
  }

  lemma IntegerSecond(whole: string)
    requires AllDigits(whole) && whole != []
    requires DigitsValue(whole) < MaxTimeValue / 1000
    ensures SecondOf(Numeral("", whole, false, "")) == Some(DigitsValue(whole))
  {
    PositiveSecond(whole, false, "");
  }

  /** The UTC time of a time stamp does not depend on its fraction of a second. */
  lemma FractionIgnored(whole: string, fraction: string)
    requires AllDigits(whole) && whole != [] && AllDigits(fraction)
    requires DigitsValue(whole) < MaxTimeValue / 1000
    ensures UtcTime(whole + "." + fraction) == UtcTime(whole)
  {
    FractionBelowSecond(whole, fraction);
  }

  /** Two digits, the last two of `"0" + String(n)`. */
  lemma Pad2Digits(n: nat)
    requires n < 100
    ensures Pad2(Some(n)) == [DigitChar(n / 10), DigitChar(n % 10)]
  {
    var t := NatString(n);
    var s := "0" + t;
    if n < 10 {
      assert t == [DigitChar(n)];
      assert n / 10 == 0 && n % 10 == n;
      assert s == [DigitChar(0), DigitChar(n)];
    } else {
      var q := n / 10;
      assert q < 10;
      assert NatString(q) == [DigitChar(q)];
      assert t == [DigitChar(q), DigitChar(n % 10)];
      assert |s| == 3 && s[1..] == t;
    }
  }

  lemma TwoDigitsValue(a: nat, b: nat)
    requires a < 10 && b < 10
    ensures AllDigits([DigitChar(a), DigitChar(b)])
    ensures DigitsValue([DigitChar(a), DigitChar(b)]) == a * 10 + b
  {
    var s := [DigitChar(a), DigitChar(b)];
    assert s[..1] == [DigitChar(a)] && s[..1][..0] == [];
    assert DigitsValue(s[..1]) == a;
  }

  /** `hh:mm` spelled out: the digits of the hour and the minute, or `aN:aN` for an invalid date. */
  lemma HhMmChars(secs: Option<int>)
    ensures secs.Some? ==> HhMm(secs) == [DigitChar(Hour(secs.value) / 10), DigitChar(Hour(secs.value) % 10), ':',
                                          DigitChar(Minute(secs.value) / 10), DigitChar(Minute(secs.value) % 10)]
    ensures secs.None? ==> HhMm(secs) == "aN:aN"
  {
    if secs.Some? {
      Pad2Digits(Hour(secs.value));
      Pad2Digits(Minute(secs.value));
    }
  }

  /**
   * `hh:mm`: five characters with a colon in the middle; for a valid date two
   * digits of the hour (0-23) and two of the minute (0-59).
   */
  lemma HhMmShape(secs: Option<int>)
    ensures |HhMm(secs)| == 5 && HhMm(secs)[2] == ':'
    ensures secs.Some? ==>
      && AllDigits(HhMm(secs)[..2]) && DigitsValue(HhMm(secs)[..2]) == Hour(secs.value)
      && AllDigits(HhMm(secs)[3..]) && DigitsValue(HhMm(secs)[3..]) == Minute(secs.value)
  {
    HhMmChars(secs);
    if secs.Some? {
      var h, m := Hour(secs.value), Minute(secs.value);
      var r := HhMm(secs);
      assert r[..2] == [DigitChar(h / 10), DigitChar(h % 10)];
      assert r[3..] == [DigitChar(m / 10), DigitChar(m % 10)];
      TwoDigitsValue(h / 10, h % 10);
      TwoDigitsValue(m / 10, m % 10);
    }
  }

  /** The pattern letters `formatDate` replaces after `hh` and `mm`. */
  predicate IsPatternLetter(c: char) {
    c == 'Y' || c == 'M' || c == 'D' || c == 'h' || c == 'm' || c == 's' || c == 'l' || c == 'p' || c == 'b' || c == 'B' || c == 'S'
  }

  /**
   * The passes `formatDate` makes after `hh` and `mm` find nothing to replace
   * in `hh:mm`'s result, so it is the final string.
   */
  lemma HhMmIsFinal(secs: Option<int>)
    ensures forall i | 0 <= i < |HhMm(secs)| :: !IsPatternLetter(HhMm(secs)[i])
  {
    HhMmChars(secs);
  }

  /**
   * The hour and minute agree with the Date getters on the millisecond time
   * value: HourFromTime is floor(t / 3600000) modulo 24, MinFromTime floor(t / 60000) modulo 60.
   */
  lemma GettersAgree(t: int)
    ensures Hour(t / 1000) == (t / 3_600_000) % 24
    ensures Minute(t / 1000) == (t / 60_000) % 60
  {
    var s, r := t / 1000, t % 1000;
    var q, r2 := s / 3600, s % 3600;
    DivUnique(t, 3_600_000, q, 1000 * r2 + r);
    DivUnique(s, 86400, q / 24, 3600 * (q % 24) + r2);
    DivUnique(3600 * (q % 24) + r2, 3600, q % 24, r2);
    var p, r3 := s / 60, s % 60;
    DivUnique(t, 60_000, p, 1000 * r3 + r);
    DivUnique(s, 3600, p / 60, 60 * (p % 60) + r3);
    DivUnique(60 * (p % 60) + r3, 60, p % 60, r3);
  }

  /**
   * The hour and minute the model prints for a numeral are those the UTC Date
   * getters compute from the millisecond time value.
   */
  lemma MatchesDateGetters(n: Numeral)
    requires TimeValue(n).Some?
    ensures SecondOf(n).Some?
    ensures Hour(SecondOf(n).value) == (TimeValue(n).value / 3_600_000) % 24
    ensures Minute(SecondOf(n).value) == (TimeValue(n).value / 60_000) % 60
  {
    SecondOfTimeValue(n);
    GettersAgree(TimeValue(n).value);
  }

  lemma MulBelow(d: int, k: int)
    requires d > 0 && -d < d * k < d
    ensures k == 0
  {
    MulAtLeast(d, k);
    MulAtLeast(d, -k);
    assert d * -k == -(d * k);
  }

  lemma {:induction false} MulAtLeast(d: int, k: int)
    ensures d > 0 && k >= 1 ==> d * k >= d
    decreases if k > 0 then k else 0
  {
    if d > 0 && k > 1 {
      MulAtLeast(d, k - 1);
      assert d * k == d * (k - 1) + d;
    }
  }

  /** Euclidean division is determined by quotient and remainder. */
  lemma DivUnique(t: int, d: int, q: int, r: int)
    requires d > 0 && t == d * q + r && 0 <= r < d
    ensures t / d == q && t % d == r
  {
    var q0, r0 := t / d, t % d;
    assert t == d * q0 + r0;
    assert d * (q - q0) == d * q - d * q0;
    MulBelow(d, q - q0);
  }

  /** Two time stamps and the UTC times they show. */
  lemma UtcTimeExamples(whole: string, fraction: string)
    requires AllDigits(whole) && whole != [] && AllDigits(fraction)
    ensures DigitsValue(whole) == 1569073381 ==> UtcTime(whole + "." + fraction) == "13:43"
    ensures DigitsValue(whole) == 1570172545 ==> UtcTime(whole + "." + fraction) == "07:02"
  {
    if DigitsValue(whole) == 1569073381 || DigitsValue(whole) == 1570172545 {
      FractionBelowSecond(whole, fraction);
      HhMmExamples();
    }
  }

  lemma HhMmExamples()
    ensures HhMm(Some(1569073381)) == "13:43"
    ensures HhMm(Some(1570172545)) == "07:02"
  {
    assert Hour(1569073381) == 13 && Minute(1569073381) == 43;
    assert Hour(1570172545) == 7 && Minute(1570172545) == 2;
    HhMmChars(Some(1569073381));
    HhMmChars(Some(1570172545));
  }
}
