/** The JavaScript string operations the chat bot relies on: case mapping,
  * `trim`, `startsWith`, `includes` and `parseFloat`, stated over `seq<char>`. */
module JsText {
  import opened Wrappers

  predicate IsDigit(c: char) { '0' <= c <= '9' }

  /** The class `[A-Z]` of a regular expression without the `i` flag. */
  predicate IsAsciiUpper(c: char) { 'A' <= c <= 'Z' }

  predicate IsAsciiLower(c: char) { 'a' <= c <= 'z' }

  /** Upper-case letters of the Latin-1 supplement (À to Þ, without ×). */
  predicate IsLatin1Upper(c: char) { '\U{C0}' <= c <= '\U{DE}' && c != '\U{D7}' }

  /** Lower-case letters of the Latin-1 supplement (à to þ, without ÷). */
  predicate IsLatin1Lower(c: char) { '\U{E0}' <= c <= '\U{FE}' && c != '\U{F7}' }

  /** `toLowerCase` on one character, for ASCII and Latin-1 letters. */
  function ToLowerChar(c: char): char {
    if IsAsciiUpper(c) || IsLatin1Upper(c) then (c as int + 32) as char else c
  }

  /** `toUpperCase` on one character, for ASCII and Latin-1 letters. */
  function ToUpperChar(c: char): char {
    if IsAsciiLower(c) || IsLatin1Lower(c) then (c as int - 32) as char else c
  }

  function Lower(s: string): (r: string)
    ensures |r| == |s|
  {
    seq(|s|, i requires 0 <= i < |s| => ToLowerChar(s[i]))
  }

  function Upper(s: string): (r: string)
    ensures |r| == |s|
  {
    seq(|s|, i requires 0 <= i < |s| => ToUpperChar(s[i]))
  }

  /** The characters `String.prototype.trim` removes: WhiteSpace and LineTerminator of ECMAScript. */
  predicate IsJsWhitespace(c: char) {
    c == '\t' || c == '\n' || c == '\U{B}' || c == '\U{C}' || c == '\r' || c == ' ' ||
    c == '\U{A0}' || c == '\U{1680}' || ('\U{2000}' <= c <= '\U{200A}') ||
    c == '\U{2028}' || c == '\U{2029}' || c == '\U{202F}' || c == '\U{205F}' ||
    c == '\U{3000}' || c == '\U{FEFF}'
  }

  /** The number of leading whitespace characters. */
  function TrimStart(s: string): (i: nat)
    ensures i <= |s|
    ensures forall k :: 0 <= k < i ==> IsJsWhitespace(s[k])
    ensures i < |s| ==> !IsJsWhitespace(s[i])
    decreases |s|
  {
    if |s| == 0 || !IsJsWhitespace(s[0]) then 0
    else
      var i := 1 + TrimStart(s[1..]);
      assert forall k :: 1 <= k < i ==> s[k] == s[1..][k - 1];
      i
  }

  /** The length of `s` without its trailing whitespace. */
  function TrimEnd(s: string): (j: nat)
    ensures j <= |s|
    ensures forall k :: j <= k < |s| ==> IsJsWhitespace(s[k])
    ensures j > 0 ==> !IsJsWhitespace(s[j - 1])
    decreases |s|
  {
    if |s| == 0 || !IsJsWhitespace(s[|s| - 1]) then |s|
    else
      var j := TrimEnd(s[..|s| - 1]);
      assert forall k :: j <= k < |s| - 1 ==> s[k] == s[..|s| - 1][k];
      j
  }

  /** `String.prototype.trim`: the shortest slice of `s` that keeps every
    * non-whitespace character. */
  function Trim(s: string): (r: string)
    ensures TrimStart(s) + |r| <= |s| && r == s[TrimStart(s)..TrimStart(s) + |r|]
    ensures forall k :: 0 <= k < |s| && !IsJsWhitespace(s[k]) ==> TrimStart(s) <= k < TrimStart(s) + |r|
    ensures |r| > 0 ==> !IsJsWhitespace(r[0]) && !IsJsWhitespace(r[|r| - 1])
  {
    var i := TrimStart(s);
    var t := s[i..];
    var j := TrimEnd(t);
    assert forall k :: i <= k < |s| ==> s[k] == t[k - i];
    t[..j]
  }

  /** The normal form the router gives every text body: `body.toLowerCase().trim()`. */
  function Normalize(body: string): string {
    Trim(Lower(body))
  }

  predicate StartsWith(s: string, prefix: string) {
    |prefix| <= |s| && s[..|prefix|] == prefix
  }

  /** `sub` occurs in `s` starting at index `i`. */
  predicate OccursAt(s: string, sub: string, i: int) {
    0 <= i && i + |sub| <= |s| && s[i..i + |sub|] == sub
  }

  /** `String.prototype.includes`. */
  function Includes(s: string, sub: string): bool
    decreases |s|
  {
    if |sub| > |s| then false
    else if s[..|sub|] == sub then true
    else Includes(s[1..], sub)
  }

  function DigitValue(c: char): nat
    requires IsDigit(c)
  {
    c as int - '0' as int
  }

  function DigitChar(d: nat): (c: char)
    requires d < 10
    ensures IsDigit(c) && DigitValue(c) == d
  {
    ('0' as int + d) as char
  }

  predicate AllDigits(s: string) {
    forall k :: 0 <= k < |s| ==> IsDigit(s[k])
  }

  /** The value of a string of decimal digits, leading zeros allowed. */
  function DigitsValue(s: string): nat
    requires AllDigits(s)
  {
    if |s| == 0 then 0 else DigitsValue(s[..|s| - 1]) * 10 + DigitValue(s[|s| - 1])
  }

  /** The decimal rendering of a natural number, without leading zeros. */
  function NatToString(n: nat): string {
    if n < 10 then [DigitChar(n)] else NatToString(n / 10) + [DigitChar(n % 10)]
  }

  /** The number of leading decimal digits. */
  function DigitRun(s: string): (n: nat)
    ensures n <= |s| && AllDigits(s[..n])
    ensures n < |s| ==> !IsDigit(s[n])
    decreases |s|
  {
    if |s| == 0 || !IsDigit(s[0]) then 0
    else
      var n := 1 + DigitRun(s[1..]);
      assert forall k :: 1 <= k < n ==> s[..n][k] == s[1..][..n - 1][k - 1];
      n
  }

  function Pow10(e: nat): (p: nat)
    ensures p >= 1
  {
    if e == 0 then 1 else 10 * Pow10(e - 1)
  }

  /** `10^e` for an exponent of either sign. */
  function Scale(e: int): (r: real)
    ensures r > 0.0
  {
    if e >= 0 then Pow10(e) as real else 1.0 / (Pow10(-e) as real)
  }

  /** The value of a well-formed exponent part `[eE][+-]?digits` at the head
    * of `s`, and 0 when there is none (the prefix then ends before the `e`). */
  function Exponent(s: string): int {
    if |s| == 0 || (s[0] != 'e' && s[0] != 'E') then 0
    else
      var signed := |s| > 1 && (s[1] == '+' || s[1] == '-');
      var u := if signed then s[2..] else s[1..];
      var n := DigitRun(u);
      if n == 0 then 0
      else if signed && s[1] == '-' then -(DigitsValue(u[..n]) as int)
      else DigitsValue(u[..n])
  }

  /** The value of a literal given its digits without the point, the number
    * of them after the point, and its exponent. */
  function Magnitude(digits: string, m: nat, e: int): real
    requires AllDigits(digits)
  {
    (DigitsValue(digits) as real / Pow10(m) as real) * Scale(e)
  }

  /** `parseFloat`: skips leading whitespace and reads the longest prefix that
    * is a decimal literal; `None` stands for `NaN`. The value is exact, with no
    * rounding to a double. */
  function ParseFloat(s: string): Option<real> {
    var t := s[TrimStart(s)..];
    var signed := |t| > 0 && (t[0] == '+' || t[0] == '-');
    var negative := signed && t[0] == '-';
    var rest := if signed then t[1..] else t;
    var n := DigitRun(rest);
    var afterInt := rest[n..];
    var hasDot := |afterInt| > 0 && afterInt[0] == '.';
    var m := if hasDot then DigitRun(afterInt[1..]) else 0;
    if n == 0 && m == 0 then None
    else
      var digits := rest[..n] + (if hasDot then afterInt[1..][..m] else "");
      assert forall k :: 0 <= k < |digits| ==> IsDigit(digits[k]);
      var afterFraction := if hasDot then afterInt[1 + m..] else afterInt;
      var magnitude := Magnitude(digits, m, Exponent(afterFraction));
      Some(if negative then -magnitude else magnitude)
  }

  // ---------------------------------------------------------------------
  // Properties
  // ---------------------------------------------------------------------

  /** `includes` holds exactly when the substring occurs at some index. */
  lemma {:induction false} IncludesIff(s: string, sub: string)
    ensures Includes(s, sub) <==> exists i :: OccursAt(s, sub, i)
    decreases |s|
  {
    if |sub| > |s| {
      forall i ensures !OccursAt(s, sub, i) { }
    } else if s[..|sub|] == sub {
      assert OccursAt(s, sub, 0);
    } else {
      IncludesIff(s[1..], sub);
      assert !OccursAt(s, sub, 0) by { assert s[..|sub|] == s[0..0 + |sub|]; }
      forall i | 0 < i ensures OccursAt(s, sub, i) <==> OccursAt(s[1..], sub, i - 1) {
        if i + |sub| <= |s| {
          assert s[1..][i - 1..i - 1 + |sub|] == s[i..i + |sub|];
        }
      }
      if Includes(s[1..], sub) {
        var i :| OccursAt(s[1..], sub, i);
        assert OccursAt(s, sub, i + 1);
      }
    }
  }

  /** `trim` only removes characters: a property every character of the
    * text has, every character of the trimmed text has. */
  lemma TrimKeepsCharClass(s: string, p: char -> bool)
    requires forall k :: 0 <= k < |s| ==> p(s[k])
    ensures forall k :: 0 <= k < |Trim(s)| ==> p(Trim(s)[k])
  {
    var r := Trim(s);
    var i := TrimStart(s);
    forall k | 0 <= k < |r|
      ensures p(r[k])
    {
      assert r[k] == s[i + k];
    }
  }

  /** A whitespace-free, lower-case string passes through the router's normal form unchanged. */
  lemma TrimOfTrimmed(t: string)
    requires |t| == 0 || (!IsJsWhitespace(t[0]) && !IsJsWhitespace(t[|t| - 1]))
    ensures Trim(t) == t
  {
    var r := Trim(t);
    if |t| > 0 {
      assert TrimStart(t) == 0;
      assert !IsJsWhitespace(t[|t| - 1]);
      assert |r| == |t|;
    }
  }

  /** Normalising twice is normalising once, so a handler that re-normalises
    * what the router already normalised sees the same text. */
  lemma {:induction false} NormalizeIdempotent(body: string)
    ensures Normalize(Normalize(body)) == Normalize(body)
  {
    var t := Normalize(body);
    var l := Lower(body);
    var i := TrimStart(l);
    assert t == l[i..i + |t|];
    assert Lower(t) == t by {
      forall k | 0 <= k < |t| ensures Lower(t)[k] == t[k] {
        assert t[k] == l[i + k] == ToLowerChar(body[i + k]);
      }
    }
    TrimOfTrimmed(t);
  }

  /** Digits rendered by `NatToString` read back as the same number. */
  lemma {:induction false} NatToStringRoundTrip(n: nat)
    ensures AllDigits(NatToString(n)) && |NatToString(n)| > 0
    ensures DigitsValue(NatToString(n)) == n
    ensures NatToString(n)[0] != '0' || n == 0
  {
    var s := NatToString(n);
    if n >= 10 {
      NatToStringRoundTrip(n / 10);
      assert s[..|s| - 1] == NatToString(n / 10);
      assert s[0] == NatToString(n / 10)[0];
    }
  }

  /** A digit string without a leading zero is the rendering of its value. */
  lemma {:induction false} DigitsRoundTrip(s: string)
    requires AllDigits(s) && |s| > 0 && (s[0] != '0' || |s| == 1)
    ensures NatToString(DigitsValue(s)) == s
    decreases |s|
  {
    var v := DigitsValue(s);
    if |s| == 1 {
      assert s[..|s| - 1] == "";
    } else {
      var p := s[..|s| - 1];
      assert p[0] == s[0];
      DigitsRoundTrip(p);
      NatToStringRoundTrip(DigitsValue(p));
      assert DigitsValue(p) >= 1;
      assert v / 10 == DigitsValue(p) && v % 10 == DigitValue(s[|s| - 1]);
      assert s == p + [s[|s| - 1]];
    }
  }

  /** A string made only of digits is one digit run. */
  lemma {:induction false} DigitRunOfDigits(s: string)
    requires AllDigits(s)
    ensures DigitRun(s) == |s|
    decreases |s|
  {
    if |s| > 0 {
      DigitRunOfDigits(s[1..]);
    }
  }

  /** `parseFloat` of the decimal rendering of a natural number gives that number. */
  lemma ParseFloatOfNat(n: nat)
    ensures ParseFloat(NatToString(n)) == Some(n as real)
  {
    ParseFloatReadsPrefix(n, "");
    assert NatToString(n) + "" == NatToString(n);
  }

  /** `parseFloat` of a numeral without leading zeros is its decimal value. */
  lemma ParseFloatOfDigits(s: string)
    requires AllDigits(s) && |s| > 0 && (s[0] != '0' || |s| == 1)
    ensures ParseFloat(s) == Some(DigitsValue(s) as real)
  {
    DigitsRoundTrip(s);
    ParseFloatOfNat(DigitsValue(s));
  }

  /** A number literal starts here: a digit, or a dot followed by a digit. */
  predicate NumberStarts(t: string) {
    |t| > 0 && (IsDigit(t[0]) || (t[0] == '.' && |t| > 1 && IsDigit(t[1])))
  }

  /** After any leading whitespace, a number literal starts, possibly after one sign. */
  predicate HasNumericPrefix(s: string) {
    var t := s[TrimStart(s)..];
    NumberStarts(t) || (|t| > 0 && (t[0] == '+' || t[0] == '-') && NumberStarts(t[1..]))
  }

  /** A digit run followed by a non-digit ends where the non-digits start. */
  lemma {:induction false} DigitRunOfDigitsThen(d: string, t: string)
    requires AllDigits(d) && (|t| == 0 || !IsDigit(t[0]))
    ensures DigitRun(d + t) == |d|
    decreases |d|
  {
    if |d| == 0 {
      assert d + t == t;
    } else {
      assert (d + t)[1..] == d[1..] + t;
      DigitRunOfDigitsThen(d[1..], t);
    }
  }

  /** How `parseFloat` scans a run of digits followed by text that does not
    * continue the literal: no whitespace to skip, no sign, the whole run as
    * the integer part, no fraction and no exponent. */
  lemma DigitsThenScan(d: string, t: string)
    requires |d| > 0 && AllDigits(d)
    requires |t| == 0 || (!IsDigit(t[0]) && t[0] != '.' && t[0] != 'e' && t[0] != 'E')
    ensures TrimStart(d + t) == 0 && (d + t)[0..] == d + t && !((d + t)[0] == '+' || (d + t)[0] == '-')
    ensures DigitRun(d + t) == |d| && (d + t)[|d|..] == t && (d + t)[..|d|] + "" == d
    ensures !(|t| > 0 && t[0] == '.') && Exponent(t) == 0
  {
    assert (d + t)[0] == d[0] && IsDigit(d[0]);
    DigitRunOfDigitsThen(d, t);
  }

  /** A text with no leading whitespace or sign, whose integer digits are
    * followed by neither a fraction nor an exponent, reads as those digits. */
  lemma ParseFloatOfScan(s: string, n: nat)
    requires 0 < n <= |s| && TrimStart(s) == 0 && !(s[0] == '+' || s[0] == '-')
    requires DigitRun(s) == n && !(|s| > n && s[n] == '.') && Exponent(s[n..]) == 0
    ensures ParseFloat(s) == Some(DigitsValue(s[..n]) as real)
  {
    assert s[0..] == s;
    assert s[..n] + "" == s[..n];
    assert Magnitude(s[..n], 0, 0) == DigitsValue(s[..n]) as real;
  }

  /** A run of digits followed by text that does not continue the literal
    * (no digit, no decimal point, no exponent) reads as the run's value. */
  lemma ParseFloatOfDigitsThen(d: string, t: string)
    requires |d| > 0 && AllDigits(d)
    requires |t| == 0 || (!IsDigit(t[0]) && t[0] != '.' && t[0] != 'e' && t[0] != 'E')
    ensures ParseFloat(d + t) == Some(DigitsValue(d) as real)
  {
    DigitsThenScan(d, t);
    ParseFloatOfScan(d + t, |d|);
    assert (d + t)[..|d|] == d;
  }

  /** `parseFloat` reads the longest numeric prefix and ignores the rest: a
    * rendered number followed by text that does not continue the literal (no
    * digit, no decimal point, no exponent) reads as that number. */
  lemma ParseFloatReadsPrefix(n: nat, t: string)
    requires |t| == 0 || (!IsDigit(t[0]) && t[0] != '.' && t[0] != 'e' && t[0] != 'E')
    ensures ParseFloat(NatToString(n) + t) == Some(n as real)
  {
    NatToStringRoundTrip(n);
    ParseFloatOfDigitsThen(NatToString(n), t);
  }

  /** `parseFloat` is `NaN` exactly for the texts with no numeric prefix. */
  lemma ParseFloatOfNonNumbers(s: string)
    ensures ParseFloat(s).None? <==> !HasNumericPrefix(s)
  {
    var t := s[TrimStart(s)..];
    var signed := |t| > 0 && (t[0] == '+' || t[0] == '-');
    var rest := if signed then t[1..] else t;
    var n := DigitRun(rest);
    assert n > 0 <==> |rest| > 0 && IsDigit(rest[0]);
    if n == 0 {
      assert rest[n..] == rest;
    }
  }
}
