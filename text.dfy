/**
 * The Python string built-ins the monitor and the setup script rely on:
 * `str.strip()`, `str.split()`, `str.lower()`, `str.isdigit()`, `int()` and
 * `float()`, each over `seq<char>`.
 */
module Text {
  import opened Outcomes

  /** `c.isspace()`: the characters Python strips and splits on. */
  predicate IsSpace(c: char) {
    ('\t' <= c <= '\r') || ('\U{1C}' <= c <= ' ') || c == '\U{85}' || c == '\U{A0}'
    || c == '\U{1680}' || ('\U{2000}' <= c <= '\U{200A}') || c == '\U{2028}' || c == '\U{2029}'
    || c == '\U{202F}' || c == '\U{205F}' || c == '\U{3000}'
  }

  predicate AllSpace(s: string) {
    forall k :: 0 <= k < |s| ==> IsSpace(s[k])
  }

  /** A maximal run of non-space characters, as `str.split()` yields them. */
  predicate IsWord(w: string) {
    |w| > 0 && forall k :: 0 <= k < |w| ==> !IsSpace(w[k])
  }

  // ---------------------------------------------------------------- strip

  /** The number of whitespace characters at the front of `s`. */
  function LeadingSpace(s: string): (n: nat)
    ensures n <= |s|
    ensures forall k :: 0 <= k < n ==> IsSpace(s[k])
    ensures n < |s| ==> !IsSpace(s[n])
  {
    if s == [] || !IsSpace(s[0]) then 0 else 1 + LeadingSpace(s[1..])
  }

  /** The number of whitespace characters at the back of `s`. */
  function TrailingSpace(s: string): (n: nat)
    ensures n <= |s|
    ensures forall k :: |s| - n <= k < |s| ==> IsSpace(s[k])
    ensures n < |s| ==> !IsSpace(s[|s| - 1 - n])
  {
    if s == [] || !IsSpace(s[|s| - 1]) then 0 else 1 + TrailingSpace(s[..|s| - 1])
  }

  /** `s.strip()`: `s` without its leading and trailing whitespace. */
  function Strip(s: string): (r: string)
    ensures |r| <= |s|
    ensures r == [] || (!IsSpace(r[0]) && !IsSpace(r[|r| - 1]))
  {
    var t := s[LeadingSpace(s)..];
    t[..|t| - TrailingSpace(t)]
  }

  lemma {:induction false} LeadingSpaceOfPadded(a: string, s: string)
    requires AllSpace(a)
    requires s == [] || !IsSpace(s[0])
    ensures LeadingSpace(a + s) == |a|
  {
    if a != [] {
      assert (a + s)[1..] == a[1..] + s;
      LeadingSpaceOfPadded(a[1..], s);
    }
  }

  lemma {:induction false} TrailingSpaceOfPadded(s: string, b: string)
    requires AllSpace(b)
    requires s == [] || !IsSpace(s[|s| - 1])
    ensures TrailingSpace(s + b) == |b|
  {
    if b != [] {
      assert (s + b)[..|s + b| - 1] == s + b[..|b| - 1];
      TrailingSpaceOfPadded(s, b[..|b| - 1]);
    }
  }

  /** Stripping undoes padding: whitespace added around a stripped text is removed again. */
  lemma StripPadded(a: string, s: string, b: string)
    requires AllSpace(a) && AllSpace(b)
    requires s == [] || (!IsSpace(s[0]) && !IsSpace(s[|s| - 1]))
    ensures Strip(a + s + b) == s
  {
    if s == [] {
      assert a + s + b == a + b;
      assert AllSpace(a + b);
      AllSpaceIsLeading(a + b);
    } else {
      assert a + s + b == a + (s + b);
      LeadingSpaceOfPadded(a, s + b);
      assert (a + s + b)[|a|..] == s + b;
      TrailingSpaceOfPadded(s, b);
      assert (s + b)[..|s + b| - |b|] == s;
    }
  }

  lemma {:induction false} AllSpaceIsLeading(s: string)
    requires AllSpace(s)
    ensures LeadingSpace(s) == |s|
  {
    if s != [] {
      AllSpaceIsLeading(s[1..]);
    }
  }

  /** A text strips to nothing exactly when it is all whitespace. */
  lemma StripEmpty(s: string)
    ensures Strip(s) == [] <==> AllSpace(s)
  {
    if AllSpace(s) {
      AllSpaceIsLeading(s);
    } else {
      var n := LeadingSpace(s);
      assert n < |s|;
      var t := s[n..];
      assert !IsSpace(t[0]);
    }
  }

  /** Stripping twice is stripping once. */
  lemma StripIdempotent(s: string)
    ensures Strip(Strip(s)) == Strip(s)
  {
    var r := Strip(s);
    StripPadded([], r, []);
    assert [] + r + [] == r;
  }

  /** Command output is its text followed by trailing whitespace such as the final newline. */
  lemma StripLine(t: string, pad: string)
    requires t != [] && !IsSpace(t[0]) && !IsSpace(t[|t| - 1]) && AllSpace(pad)
    ensures Strip(t + pad) == t
  {
    StripPadded([], t, pad);
    assert [] + t + pad == t + pad;
  }

  // ---------------------------------------------------------------- split

  /** The number of non-space characters at the front of `s`. */
  function WordLength(s: string): (n: nat)
    ensures n <= |s|
    ensures forall k :: 0 <= k < n ==> !IsSpace(s[k])
    ensures n < |s| ==> IsSpace(s[n])
  {
    if s == [] || IsSpace(s[0]) then 0 else 1 + WordLength(s[1..])
  }

  /** `s.split()`: the maximal runs of non-space characters of `s`, in order. */
  function Split(s: string): (r: seq<string>)
    ensures forall i :: 0 <= i < |r| ==> IsWord(r[i])
    decreases |s|
  {
    var rest := s[LeadingSpace(s)..];
    if rest == [] then []
    else
      var n := WordLength(rest);
      [rest[..n]] + Split(rest[n..])
  }

  /** `" ".join(words)`. */
  function Join(words: seq<string>): string {
    if |words| == 0 then ""
    else if |words| == 1 then words[0]
    else words[0] + " " + Join(words[1..])
  }

  lemma SplitSkipsSpace(c: char, s: string)
    requires IsSpace(c)
    ensures Split([c] + s) == Split(s)
  {
    assert LeadingSpace([c] + s) == 1 + LeadingSpace(s) by {
      assert ([c] + s)[1..] == s;
    }
    assert ([c] + s)[1 + LeadingSpace(s)..] == s[LeadingSpace(s)..];
  }

  lemma {:induction false} WordLengthOfWord(w: string, t: string)
    requires IsWord(w)
    requires t == [] || IsSpace(t[0])
    ensures WordLength(w + t) == |w|
  {
    if |w| > 1 {
      assert (w + t)[1..] == w[1..] + t;
      WordLengthOfWord(w[1..], t);
    } else {
      assert (w + t)[1..] == t;
    }
  }

  /** A word followed by nothing or by whitespace is split off first. */
  lemma SplitWordFirst(w: string, tail: string)
    requires IsWord(w)
    requires tail == [] || IsSpace(tail[0])
    ensures Split(w + tail) == [w] + Split(tail)
  {
    LeadingSpaceOfPadded([], w + tail);
    assert [] + (w + tail) == w + tail;
    WordLengthOfWord(w, tail);
    assert (w + tail)[..|w|] == w;
    assert (w + tail)[|w|..] == tail;
  }

  /** Splitting a space-joined list of words gives the words back. */
  lemma {:induction false} SplitJoin(words: seq<string>)
    requires forall i :: 0 <= i < |words| ==> IsWord(words[i])
    ensures Split(Join(words)) == words
  {
    if |words| == 1 {
      SplitWordFirst(words[0], "");
      assert words[0] + "" == words[0];
    } else if |words| > 1 {
      var rest := Join(words[1..]);
      assert Split(Join(words)) == [words[0]] + Split(" " + rest) by {
        assert Join(words) == words[0] + (" " + rest);
        SplitWordFirst(words[0], " " + rest);
      }
      assert Split(" " + rest) == Split(rest) by {
        SplitSkipsSpace(' ', rest);
        assert [' '] + rest == " " + rest;
      }
      SplitJoin(words[1..]);
      assert words == [words[0]] + words[1..];
    }
  }

  /** Two words separated by one space split into those two words. */
  lemma SplitPair(a: string, b: string)
    requires IsWord(a) && IsWord(b)
    ensures Split(a + " " + b) == [a, b]
  {
    assert Join([a, b]) == a + " " + b by {
      assert Join([b]) == b;
    }
    SplitJoin([a, b]);
  }

  // ---------------------------------------------------------------- lower

  function LowerChar(c: char): char {
    if 'A' <= c <= 'Z' then (c as int + 32) as char else c
  }

  /** `s.lower()` on ASCII letters; every other character is kept. */
  function Lower(s: string): (r: string)
    ensures |r| == |s|
    ensures forall k :: 0 <= k < |s| ==> r[k] == LowerChar(s[k])
  {
    if s == [] then [] else [LowerChar(s[0])] + Lower(s[1..])
  }

  /** An answer lower-cases to "y" exactly when it is "y" or "Y". */
  lemma LowerIsYes(s: string)
    ensures Lower(s) == "y" <==> s == "y" || s == "Y"
  {
    if Lower(s) == "y" {
      assert |s| == 1 && LowerChar(s[0]) == 'y';
      assert s == [s[0]];
    }
  }

  // ---------------------------------------------------------------- digits

  predicate IsDigit(c: char) {
    '0' <= c <= '9'
  }

  predicate AllDigits(s: string) {
    forall k :: 0 <= k < |s| ==> IsDigit(s[k])
  }

  /** `s.isdigit()` on ASCII digits: a non-empty all-digit text. */
  predicate IsDigitString(s: string) {
    |s| > 0 && AllDigits(s)
  }

  function DigitValue(c: char): nat
    requires IsDigit(c)
  {
    c as int - '0' as int
  }

  function DigitChar(d: nat): (c: char)
    requires d < 10
    ensures IsDigit(c) && DigitValue(c) == d
  {
    ('0' as int + d) as char
  }

  /** The number an all-digit text spells in base 10 ("" spells 0). */
  function DecimalValue(s: string): nat
    requires AllDigits(s)
  {
    if s == [] then 0 else 10 * DecimalValue(s[..|s| - 1]) + DigitValue(s[|s| - 1])
  }

  /** `str(n)` for a natural number: its shortest decimal spelling. */
  function DecimalText(n: nat): (r: string)
    ensures IsDigitString(r)
  {
    if n < 10 then [DigitChar(n)] else DecimalText(n / 10) + [DigitChar(n % 10)]
  }

  /** Reading back a spelled number gives the number. */
  lemma {:induction false} DecimalRoundTrip(n: nat)
    ensures DecimalValue(DecimalText(n)) == n
  {
    if n >= 10 {
      var t := DecimalText(n);
      assert t[..|t| - 1] == DecimalText(n / 10);
      DecimalRoundTrip(n / 10);
    }
  }

  /** `str(i)` for any integer. */
  function IntText(i: int): (r: string)
    ensures |r| > 0
  {
    if i < 0 then "-" + DecimalText(-i) else DecimalText(i)
  }

  /** `int(s)` for a text without surrounding whitespace: an optional sign, then digits. */
  function ParseInt(s: string): (r: Option<int>)
    ensures r.Some? ==> |s| > 0 && forall k :: 0 < k < |s| ==> IsDigit(s[k])
    ensures r.Some? ==> IsDigit(s[0]) || (|s| >= 2 && (s[0] == '-' || s[0] == '+'))
    ensures IsDigitString(s) ==> r == Some(DecimalValue(s))
  {
    if IsDigitString(s) then Some(DecimalValue(s))
    else if |s| >= 2 && (s[0] == '-' || s[0] == '+') && IsDigitString(s[1..]) then
      var magnitude: int := DecimalValue(s[1..]);
      Some(if s[0] == '-' then -magnitude else magnitude)
    else None
  }

  /** `int(str(i)) == i`. */
  lemma ParseIntRoundTrip(i: int)
    ensures ParseInt(IntText(i)) == Some(i)
  {
    if i < 0 {
      var t := IntText(i);
      assert !IsDigitString(t) by { assert t[0] == '-'; }
      assert t[1..] == DecimalText(-i);
      assert DecimalValue(t[1..]) == -i by { DecimalRoundTrip(-i); }
    } else {
      DecimalRoundTrip(i);
    }
  }

  // ---------------------------------------------------------------- float

  /** The index of the first `a` or `b` in `s`, or `|s|` when there is none. */
  function FirstOf(s: string, a: char, b: char): (k: nat)
    ensures k <= |s|
    ensures forall i :: 0 <= i < k ==> s[i] != a && s[i] != b
    ensures k < |s| ==> s[k] == a || s[k] == b
  {
    if s == [] || s[0] == a || s[0] == b then 0 else 1 + FirstOf(s[1..], a, b)
  }

  function Pow10(n: nat): (r: nat)
    ensures r >= 1
  {
    if n == 0 then 1 else 10 * Pow10(n - 1)
  }

  /** `m` times ten to the power `e`. */
  function TimesPow10(m: real, e: int): real {
    if e >= 0 then m * Pow10(e) as real else m / Pow10(-e) as real
  }

  /** The value of the digits after a decimal point: "25" is 0.25. */
  function FractionValue(digits: string): real
    requires AllDigits(digits)
  {
    DecimalValue(digits) as real / Pow10(|digits|) as real
  }

  /** The number spelled by the digits before and after a decimal point; at least one digit is needed. */
  function MantissaOf(whole: string, fraction: string): Option<real> {
    if AllDigits(whole) && AllDigits(fraction) && |whole| + |fraction| > 0 then
      Some(DecimalValue(whole) as real + FractionValue(fraction))
    else None
  }

  /** Digits with at most one decimal point, and at least one digit: "12", "12.5", "12.", ".5". */
  function ParseMantissa(s: string): Option<real> {
    var k := FirstOf(s, '.', '.');
    MantissaOf(s[..k], if k < |s| then s[k + 1..] else "")
  }

  function ParseUnsignedFloat(s: string): Option<real> {
    var k := FirstOf(s, 'e', 'E');
    match ParseMantissa(s[..k])
    case None => None
    case Some(m) =>
      if k == |s| then Some(m)
      else
        match ParseInt(s[k + 1..])
        case None => None
        case Some(e) => Some(TimesPow10(m, e))
  }

  /**
   * `float(s)` for a text without surrounding whitespace: an optional sign,
   * a decimal mantissa and an optional exponent.
   */
  function ParseFloat(s: string): (r: Option<real>)
    ensures r.Some? ==> |s| > 0
  {
    if |s| > 0 && (s[0] == '-' || s[0] == '+') then
      match ParseUnsignedFloat(s[1..])
      case None => None
      case Some(v) => Some(if s[0] == '-' then -v else v)
    else ParseUnsignedFloat(s)
  }

  lemma DigitsHaveNoMarks(s: string, a: char, b: char)
    requires AllDigits(s) && !IsDigit(a) && !IsDigit(b)
    ensures FirstOf(s, a, b) == |s|
  {
  }

  lemma UnsignedFloatOfDigits(s: string)
    requires IsDigitString(s)
    ensures ParseUnsignedFloat(s) == Some(DecimalValue(s) as real)
  {
    DigitsHaveNoMarks(s, 'e', 'E');
    assert s[..|s|] == s;
    DigitsHaveNoMarks(s, '.', '.');
  }

  /** Every text `int()` accepts, `float()` accepts with the same value. */
  lemma ParseFloatExtendsParseInt(s: string)
    requires ParseInt(s).Some?
    ensures ParseFloat(s) == Some(ParseInt(s).value as real)
  {
    if IsDigitString(s) {
      UnsignedFloatOfDigits(s);
    } else {
      UnsignedFloatOfDigits(s[1..]);
    }
  }

  lemma {:induction false} FirstOfAfterDigits(d: string, rest: string, a: char, b: char)
    requires AllDigits(d) && !IsDigit(a) && !IsDigit(b)
    requires rest != [] && (rest[0] == a || rest[0] == b)
    ensures FirstOf(d + rest, a, b) == |d|
  {
    if d != [] {
      assert (d + rest)[1..] == d[1..] + rest;
      FirstOfAfterDigits(d[1..], rest, a, b);
    } else {
      assert d + rest == rest;
    }
  }

  lemma MantissaDecimal(whole: string, fraction: string)
    requires AllDigits(whole)
    ensures ParseMantissa(whole + "." + fraction) == MantissaOf(whole, fraction)
  {
    var s := whole + "." + fraction;
    var k := FirstOf(s, '.', '.');
    assert k == |whole| by {
      assert s == whole + ("." + fraction);
      FirstOfAfterDigits(whole, "." + fraction, '.', '.');
    }
    assert s[..k] == whole && s[k + 1..] == fraction;
  }

  lemma UnsignedFloatWithoutExponent(s: string)
    requires forall i :: 0 <= i < |s| ==> s[i] != 'e' && s[i] != 'E'
    ensures ParseUnsignedFloat(s) == ParseMantissa(s)
  {
    assert FirstOf(s, 'e', 'E') == |s|;
    assert s[..|s|] == s;
  }

  /** `float()` reads "whole.fraction" as the whole part plus the fraction's digits over their power of ten. */
  lemma ParseFloatDecimal(whole: string, fraction: string)
    requires IsDigitString(whole) && AllDigits(fraction)
    ensures ParseFloat(whole + "." + fraction).Some?
    ensures ParseFloat(whole + "." + fraction).value == DecimalValue(whole) as real + FractionValue(fraction)
  {
    var s := whole + "." + fraction;
    assert s[0] == whole[0];
    forall i | 0 <= i < |s| ensures s[i] != 'e' && s[i] != 'E' {
      if i < |whole| { assert s[i] == whole[i]; }
      else if i > |whole| { assert s[i] == fraction[i - |whole| - 1]; }
    }
    UnsignedFloatWithoutExponent(s);
    MantissaDecimal(whole, fraction);
    assert MantissaOf(whole, fraction).Some?;
  }
}
