/**
 * The string built-ins the core relies on: the whitespace class shared by
 * `String.prototype.trim` and the regular expression `\s`, decimal
 * `String(n)` for non-negative integers, `padStart(width, "0")` and
 * `parseInt(text)`, plus a reader for the `m:ss` clock texts.
 */
module JsStrings {
  import opened Wrappers
  import opened JsValues

  /** A character of JavaScript's WhiteSpace or LineTerminator classes. */
  predicate IsSpace(c: char) {
    || c == '\t' || c == '\n' || c == '\U{000B}' || c == '\U{000C}' || c == '\r' || c == ' '
    || c == '\U{00A0}' || c == '\U{1680}' || ('\U{2000}' <= c <= '\U{200A}')
    || c == '\U{2028}' || c == '\U{2029}' || c == '\U{202F}' || c == '\U{205F}'
    || c == '\U{3000}' || c == '\U{FEFF}'
  }

  /** The string without its leading whitespace. */
  function TrimStart(s: string): (r: string)
    ensures |r| <= |s| && r == s[|s| - |r|..]
    ensures forall i :: 0 <= i < |s| - |r| ==> IsSpace(s[i])
    ensures r == [] || !IsSpace(r[0])
  {
    if s != [] && IsSpace(s[0]) then TrimStart(s[1..]) else s
  }

  /** The string without its trailing whitespace. */
  function TrimEnd(s: string): (r: string)
    ensures |r| <= |s| && r == s[..|r|]
    ensures forall i :: |r| <= i < |s| ==> IsSpace(s[i])
    ensures r == [] || !IsSpace(r[|r| - 1])
  {
    if s != [] && IsSpace(s[|s| - 1]) then TrimEnd(s[..|s| - 1]) else s
  }

  /** `s.trim()`. */
  function Trim(s: string): string {
    TrimEnd(TrimStart(s))
  }

  predicate IsDigit(c: char) {
    '0' <= c <= '9'
  }

  predicate AllDigits(s: string) {
    forall i :: 0 <= i < |s| ==> IsDigit(s[i])
  }

  function DigitChar(d: nat): (c: char)
    requires d < 10
    ensures IsDigit(c) && c as int - '0' as int == d
  {
    ('0' as int + d) as char
  }

  function DigitValue(c: char): (d: nat)
    requires IsDigit(c)
    ensures d < 10
  {
    c as int - '0' as int
  }

  /** The number a string of decimal digits denotes, most significant digit first. */
  function DigitsValue(s: string): nat
    requires AllDigits(s)
  {
    if s == [] then 0 else 10 * DigitsValue(s[..|s| - 1]) + DigitValue(s[|s| - 1])
  }

  /** `String(n)` for a non-negative integer: its decimal digits without leading zeros. */
  function DecimalString(n: nat): (r: string)
    ensures |r| >= 1 && AllDigits(r)
    ensures r[0] == '0' ==> n == 0
  {
    if n < 10 then [DigitChar(n)] else DecimalString(n / 10) + [DigitChar(n % 10)]
  }

  /** Reading the digits of `String(n)` gives `n` back. */
  lemma {:induction false} DecimalStringRoundTrip(n: nat)
    ensures DigitsValue(DecimalString(n)) == n
  {
    if n >= 10 {
      var s := DecimalString(n);
      assert s[..|s| - 1] == DecimalString(n / 10);
      DecimalStringRoundTrip(n / 10);
    }
  }

  /** One digit below ten, two below a hundred. */
  lemma DecimalStringLength(n: nat)
    ensures n < 10 ==> |DecimalString(n)| == 1
    ensures 10 <= n < 100 ==> |DecimalString(n)| == 2
  {
    if 10 <= n < 100 {
      assert |DecimalString(n / 10)| == 1;
    }
  }

  /** `k` zero characters. */
  function Zeros(k: nat): (r: string)
    ensures |r| == k && AllDigits(r)
    ensures forall i :: 0 <= i < k ==> r[i] == '0'
  {
    if k == 0 then [] else Zeros(k - 1) + ['0']
  }

  /** `s.padStart(width, "0")`: left-padded with zeros up to `width` characters; a longer `s` is kept whole. */
  function PadStart(s: string, width: nat): (r: string)
    ensures |r| == if |s| >= width then |s| else width
    ensures r[|r| - |s|..] == s
    ensures forall i :: 0 <= i < |r| - |s| ==> r[i] == '0'
  {
    if |s| >= width then s else Zeros(width - |s|) + s
  }

  /** Leading zeros do not change the number a digit string denotes. */
  lemma {:induction false} LeadingZerosValue(k: nat, s: string)
    requires AllDigits(s)
    ensures AllDigits(Zeros(k) + s) && DigitsValue(Zeros(k) + s) == DigitsValue(s)
  {
    var z := Zeros(k) + s;
    if s == [] {
      assert z == Zeros(k);
      ZerosValue(k);
    } else {
      assert z[..|z| - 1] == Zeros(k) + s[..|s| - 1];
      LeadingZerosValue(k, s[..|s| - 1]);
    }
  }

  lemma {:induction false} ZerosValue(k: nat)
    ensures DigitsValue(Zeros(k)) == 0
  {
    if k > 0 {
      assert Zeros(k)[..k - 1] == Zeros(k - 1);
      ZerosValue(k - 1);
    }
  }

  /** A number below 100 padded to two characters is two digits that denote it. */
  lemma PadTwoDigits(n: nat)
    requires n < 100
    ensures var p := PadStart(DecimalString(n), 2);
      |p| == 2 && AllDigits(p) && DigitsValue(p) == n
  {
    var d := DecimalString(n);
    DecimalStringLength(n);
    DecimalStringRoundTrip(n);
    var p := PadStart(d, 2);
    if |d| == 1 {
      assert p == Zeros(1) + d;
      LeadingZerosValue(1, d);
    } else {
      assert p == d;
    }
  }

  /** The longest prefix of `s` made of decimal digits. */
  function DigitPrefix(s: string): (r: string)
    ensures |r| <= |s| && r == s[..|r|] && AllDigits(r)
    ensures |r| < |s| ==> !IsDigit(s[|r|])
  {
    if s != [] && IsDigit(s[0]) then [s[0]] + DigitPrefix(s[1..]) else []
  }

  /**
   * `parseInt(text)` on the text of a number input: skip leading
   * whitespace, read an optional sign, then the longest run of decimal
   * digits, ignoring whatever follows; `NaN` when there is none. No radix is
   * passed, so a "0x" prefix would select hexadecimal, but a number input
   * never yields such text.
   */
  function ParseInt(text: string): (r: Value)
    ensures r.Num? || r.NaN?
  {
    var t := TrimStart(text);
    var negative := t != [] && t[0] == '-';
    var body := if t != [] && (t[0] == '-' || t[0] == '+') then t[1..] else t;
    var digits := DigitPrefix(body);
    if digits == [] then NaN
    else Num(if negative then -(DigitsValue(digits) as int) else DigitsValue(digits))
  }

  /** `parseInt` reads back what `String(n)` and `"-" + String(n)` write. */
  lemma ParseIntRoundTrip(n: nat)
    ensures ParseInt(DecimalString(n)) == Num(n)
    ensures ParseInt("-" + DecimalString(n)) == Num(-(n as int))
  {
    DecimalStringRoundTrip(n);
    ParseIntOfDigits(DecimalString(n));
    ParseIntOfNegatedDigits(DecimalString(n));
  }

  lemma ParseIntOfDigits(d: string)
    requires d != [] && AllDigits(d)
    ensures ParseInt(d) == Num(DigitsValue(d))
  {
    NoSpaceAtStart(d);
    DigitPrefixOfDigits(d);
  }

  lemma ParseIntOfNegatedDigits(d: string)
    requires d != [] && AllDigits(d)
    ensures ParseInt("-" + d) == Num(-(DigitsValue(d) as int))
  {
    var m := "-" + d;
    NoSpaceAtStart(m);
    ParseIntNegative(m);
    assert m[1..] == d;
    DigitPrefixOfDigits(d);
  }

  lemma ParseIntNegative(t: string)
    requires t != [] && t[0] == '-' && TrimStart(t) == t
    ensures var digits := DigitPrefix(t[1..]);
      ParseInt(t) == if digits == [] then NaN else Num(-(DigitsValue(digits) as int))
  {
  }

  /** A string that starts with a digit or a minus sign has no leading whitespace to trim. */
  lemma NoSpaceAtStart(s: string)
    requires s != [] && (IsDigit(s[0]) || s[0] == '-')
    ensures TrimStart(s) == s
  {
    assert !IsSpace(s[0]);
  }

  lemma {:induction false} DigitPrefixOfDigits(s: string)
    requires AllDigits(s)
    ensures DigitPrefix(s) == s
  {
    if s != [] {
      DigitPrefixOfDigits(s[1..]);
    }
  }

  /** The position of the first `c` in `s`, or `|s|` when there is none. */
  function IndexOf(s: string, c: char): (i: nat)
    ensures i <= |s|
    ensures i < |s| ==> s[i] == c
    ensures forall j :: 0 <= j < i ==> s[j] != c
  {
    if s == [] then 0 else if s[0] == c then 0 else 1 + IndexOf(s[1..], c)
  }

  /** The seconds denoted by non-empty minute and second digit strings. */
  function ClockParts(m: string, s: string): Option<nat> {
    if m != [] && s != [] && AllDigits(m) && AllDigits(s) then Some(60 * DigitsValue(m) + DigitsValue(s)) else None
  }

  /** Reads a `minutes:seconds` clock text back into a number of seconds. */
  function ReadClock(text: string): Option<nat> {
    var p := IndexOf(text, ':');
    if p < |text| then ClockParts(text[..p], text[p + 1..]) else None
  }

  /** A clock text written as `minutes + ":" + seconds` from two digit strings reads back as `60 * minutes + seconds`. */
  lemma ReadClockOfParts(m: string, s: string)
    requires m != [] && s != [] && AllDigits(m) && AllDigits(s)
    ensures ReadClock(m + ":" + s) == Some(60 * DigitsValue(m) + DigitsValue(s))
  {
    SplitAtColon(m, s);
    ClockPartsValue(m, s);
  }

  lemma ClockPartsValue(m: string, s: string)
    requires m != [] && s != [] && AllDigits(m) && AllDigits(s)
    ensures ClockParts(m, s) == Some(60 * DigitsValue(m) + DigitsValue(s))
  {
  }

  lemma SplitAtColon(m: string, s: string)
    requires AllDigits(m)
    ensures ReadClock(m + ":" + s) == ClockParts(m, s)
  {
    var text := m + ":" + s;
    IndexOfAfterDigits(m, s);
    assert text[..|m|] == m;
    assert text[|m| + 1..] == s;
  }

  lemma IndexOfAfterDigits(m: string, s: string)
    requires AllDigits(m)
    ensures IndexOf(m + ":" + s, ':') == |m|
  {
    var text := m + ":" + s;
    assert text[|m|] == ':';
    assert forall j :: 0 <= j < |m| ==> text[j] == m[j];
  }
}
