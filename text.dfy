/** The Python string builtins the core relies on: `str.lower`, the `in` operator on
    strings, `str.replace` with a one-character pattern, `int()` and `float()` on text, the regular
    expression search `\d+`, and `str()` of an integer. */
module Text {
  import opened Wrappers

  // ---------------------------------------------------------------- str.lower

  predicate IsUpper(c: char) { 'A' <= c <= 'Z' }

  /** Lower-cases one character. Only ASCII letters are folded. */
  function LowerChar(c: char): char {
    if IsUpper(c) then (c as int + 32) as char else c
  }

  /** `s.lower()`, character by character. */
  function Lower(s: string): string {
    if s == [] then [] else [LowerChar(s[0])] + Lower(s[1..])
  }

  lemma {:induction false} LowerAt(s: string)
    ensures |Lower(s)| == |s|
    ensures forall i :: 0 <= i < |s| ==> Lower(s)[i] == LowerChar(s[i])
  {
    if s != [] {
      LowerAt(s[1..]);
    }
  }

  /** `s.lower() == 'true'` holds exactly for the sixteen letter-case spellings of "true". */
  lemma LowerIsTrue(s: string)
    ensures Lower(s) == "true" <==>
      && |s| == 4
      && (s[0] == 't' || s[0] == 'T')
      && (s[1] == 'r' || s[1] == 'R')
      && (s[2] == 'u' || s[2] == 'U')
      && (s[3] == 'e' || s[3] == 'E')
  {
    LowerEquals(s, "true");
    TrueSpellings(s);
  }

  /** The characters that lower, position by position, to "true". */
  lemma TrueSpellings(s: string)
    ensures (|s| == |"true"| && forall i :: 0 <= i < |s| ==> LowerChar(s[i]) == "true"[i]) <==>
      && |s| == 4
      && (s[0] == 't' || s[0] == 'T')
      && (s[1] == 'r' || s[1] == 'R')
      && (s[2] == 'u' || s[2] == 'U')
      && (s[3] == 'e' || s[3] == 'E')
  {
    if |s| == 4 {
      LowerCharIs(s[0], 't', 'T');
      LowerCharIs(s[1], 'r', 'R');
      LowerCharIs(s[2], 'u', 'U');
      LowerCharIs(s[3], 'e', 'E');
      assert (forall i :: 0 <= i < |s| ==> LowerChar(s[i]) == "true"[i]) <==>
        LowerChar(s[0]) == 't' && LowerChar(s[1]) == 'r' && LowerChar(s[2]) == 'u' && LowerChar(s[3]) == 'e';
    }
  }

  /** `s.lower() == w` compares character by character. */
  lemma LowerEquals(s: string, w: string)
    ensures Lower(s) == w <==> |s| == |w| && forall i :: 0 <= i < |s| ==> LowerChar(s[i]) == w[i]
  {
    LowerAt(s);
    if |s| == |w| && forall i :: 0 <= i < |s| ==> LowerChar(s[i]) == w[i] {
      assert Lower(s) == w;
    }
  }

  /** A character lowers to a given lower-case letter exactly when it is that letter or
      its capital. */
  lemma LowerCharIs(c: char, lower: char, upper: char)
    requires 'a' <= lower <= 'z' && upper as int == lower as int - 32
    ensures LowerChar(c) == lower <==> c == lower || c == upper
  {
  }

  // ---------------------------------------------------------------- sub in s

  /** `sub` occurs in `s` starting at index `i`. */
  predicate OccursAt(s: string, sub: string, i: int) {
    0 <= i && i + |sub| <= |s| && s[i..i + |sub|] == sub
  }

  /** Python's `sub in s` on strings. */
  predicate Contains(s: string, sub: string)
    decreases |s|
  {
    |sub| <= |s| && (s[..|sub|] == sub || (|s| > 0 && Contains(s[1..], sub)))
  }

  lemma {:induction false} ContainsIff(s: string, sub: string)
    ensures Contains(s, sub) <==> exists i :: OccursAt(s, sub, i)
    decreases |s|
  {
    if |sub| > |s| {
    } else if s[..|sub|] == sub {
      assert OccursAt(s, sub, 0);
    } else if |s| == 0 {
    } else {
      ContainsIff(s[1..], sub);
      forall i | OccursAt(s, sub, i) ensures OccursAt(s[1..], sub, i - 1) {
        assert i != 0;
        assert s[1..][i - 1..i - 1 + |sub|] == s[i..i + |sub|];
      }
      forall j | OccursAt(s[1..], sub, j) ensures OccursAt(s, sub, j + 1) {
        assert s[1..][j..j + |sub|] == s[j + 1..j + 1 + |sub|];
      }
    }
  }

  /** A string contains each of its prefixes. */
  lemma PrefixContained(p: string, q: string)
    ensures Contains(p + q, p)
  {
    assert (p + q)[..|p|] == p;
  }

  // ---------------------------------------------------------------- str.replace(c, '')

  /** `s.replace(c, '')` for a one-character `c`: every occurrence of `c` is removed,
      every other character keeps its multiplicity. */
  function RemoveAll(s: string, c: char): (r: string)
    ensures multiset(r) == multiset(s)[c := 0]
  {
    if s == [] then []
    else
      var rest := RemoveAll(s[1..], c);
      assert s == [s[0]] + s[1..];
      if s[0] == c then rest else [s[0]] + rest
  }

  /** Removal works piece by piece, so the surviving characters keep their order. */
  lemma {:induction false} RemoveAllAppend(a: string, b: string, c: char)
    ensures RemoveAll(a + b, c) == RemoveAll(a, c) + RemoveAll(b, c)
  {
    if a == [] {
      assert a + b == b;
    } else {
      assert (a + b)[0] == a[0];
      assert (a + b)[1..] == a[1..] + b;
      RemoveAllAppend(a[1..], b, c);
    }
  }

  /** Text without `c` is left as it is. */
  lemma {:induction false} RemoveAllAbsent(s: string, c: char)
    requires c !in s
    ensures RemoveAll(s, c) == s
  {
    if s != [] {
      RemoveAllAbsent(s[1..], c);
    }
  }

  // ---------------------------------------------------------------- digits, str(int)

  predicate IsDigit(c: char) { '0' <= c <= '9' }

  predicate AllDigits(s: string) { forall i :: 0 <= i < |s| ==> IsDigit(s[i]) }

  function DigitValue(c: char): nat
    requires IsDigit(c)
  {
    c as int - '0' as int
  }

  function DigitChar(d: nat): char
    requires d < 10
  {
    ('0' as int + d) as char
  }

  /** The value of a decimal numeral, most significant digit first. */
  function DigitsValue(s: string): nat
    requires AllDigits(s)
    decreases |s|
  {
    if s == [] then 0 else DigitsValue(s[..|s| - 1]) * 10 + DigitValue(s[|s| - 1])
  }

  /** `str(n)` for a natural number. */
  function NatToString(n: nat): string
    decreases n
  {
    if n < 10 then [DigitChar(n)] else NatToString(n / 10) + [DigitChar(n % 10)]
  }

  /** `str(n)` for an integer: a minus sign before the magnitude of a negative number.
      Python's `str` raises ValueError instead past `MaxStrDigits` digits. */
  function IntToString(n: int): string {
    if n < 0 then "-" + NatToString(-n) else NatToString(n)
  }

  lemma {:induction false} NatToStringDigits(n: nat)
    ensures |NatToString(n)| > 0 && AllDigits(NatToString(n))
    ensures DigitsValue(NatToString(n)) == n
    decreases n
  {
    if n >= 10 {
      NatToStringDigits(n / 10);
      var s := NatToString(n);
      assert s[..|s| - 1] == NatToString(n / 10);
    }
  }

  // ---------------------------------------------------------------- int(text)

  /** The characters `int()` and `float()` strip around their argument: tab, newline,
      vertical tab, form feed, carriage return and space, and the white space characters
      above ASCII. The ASCII separators 0x1C-0x1F, though `str.isspace` holds of them, are
      not stripped. */
  predicate IsSpace(c: char) {
    || 9 <= c as int <= 13 || c as int == 32
    || c as int == 0x85 || c as int == 0xA0 || c as int == 0x1680
    || 0x2000 <= c as int <= 0x200A || c as int == 0x2028 || c as int == 0x2029
    || c as int == 0x202F || c as int == 0x205F || c as int == 0x3000
  }

  function StripLeading(s: string): string {
    if s != [] && IsSpace(s[0]) then StripLeading(s[1..]) else s
  }

  function StripTrailing(s: string): string {
    if s != [] && IsSpace(s[|s| - 1]) then StripTrailing(s[..|s| - 1]) else s
  }

  function Strip(s: string): string { StripTrailing(StripLeading(s)) }

  /** The digit part of an integer literal: digits, with single underscores between digits. */
  predicate IsDigitPart(d: string) {
    && |d| > 0 && IsDigit(d[0]) && IsDigit(d[|d| - 1])
    && (forall i :: 0 <= i < |d| ==> IsDigit(d[i]) || d[i] == '_')
    && (forall i :: 0 <= i < |d| - 1 ==> d[i] == '_' ==> d[i + 1] != '_')
  }

  function DigitPartValue(d: string): nat
    requires IsDigitPart(d)
  {
    var digits := RemoveAll(d, '_');
    assert forall i :: 0 <= i < |digits| ==> digits[i] in multiset(digits);
    DigitsValue(digits)
  }

  /** `int(s)` with base 10: surrounding white space, an optional sign, then the digit
      part; None where Python raises ValueError. */
  function ParseInt(s: string): Option<int> {
    SignedInt(Strip(s))
  }

  /** An integer literal with no white space around it. */
  function SignedInt(t: string): Option<int> {
    if |t| > 0 && (t[0] == '+' || t[0] == '-') then
      var magnitude := UnsignedInt(t[1..]);
      if magnitude.Some? then Some(if t[0] == '-' then -magnitude.value else magnitude.value) else None
    else UnsignedInt(t)
  }

  /** The most digits `int()` converts from text: the default of
      `sys.get_int_max_str_digits()`; a longer numeral raises ValueError. */
  const MaxStrDigits: nat := 4300

  /** The digit part alone. */
  function UnsignedInt(d: string): Option<int> {
    if IsDigitPart(d) && DigitCount(d) <= MaxStrDigits then Some(DigitPartValue(d)) else None
  }

  lemma {:induction false} StripNoSpace(s: string)
    requires forall i :: 0 <= i < |s| ==> !IsSpace(s[i])
    ensures Strip(s) == s
  {
  }

  /** A numeral made only of digits, no longer than the limit, parses to its value. */
  lemma DigitsParse(d: string)
    requires |d| > 0 && AllDigits(d) && |d| <= MaxStrDigits
    ensures ParseInt(d) == Some(DigitsValue(d))
  {
    StripNoSpace(d);
    DigitsUnsigned(d);
  }

  /** A numeral of more digits than the limit raises ValueError. */
  lemma DigitsOverLimit(d: string)
    requires AllDigits(d) && |d| > MaxStrDigits
    ensures ParseInt(d) == None
  {
    StripNoSpace(d);
    DigitsArePart(d);
  }

  lemma NegativeParse(m: string)
    requires |m| > 0 && AllDigits(m) && |m| <= MaxStrDigits
    ensures ParseInt("-" + m) == Some(0 - DigitsValue(m))
  {
    NegativeUnstripped(m);
    NegativeDigitsSigned(m);
  }

  lemma NegativeDigitsSigned(m: string)
    requires |m| > 0 && AllDigits(m) && |m| <= MaxStrDigits
    ensures SignedInt("-" + m) == Some(0 - DigitsValue(m))
  {
    var t := "-" + m;
    assert t[1..] == m;
    NegativeSigned(t);
  }

  /** A minus sign before digits has no white space to strip. */
  lemma NegativeUnstripped(digits: string)
    requires AllDigits(digits)
    ensures Strip("-" + digits) == "-" + digits
  {
    var s := "-" + digits;
    forall i | 0 <= i < |s| ensures !IsSpace(s[i]) {
      if i > 0 { assert s[i] == digits[i - 1] && IsDigit(digits[i - 1]); }
    }
    StripNoSpace(s);
  }

  /** A minus sign and at most the limit's digits: the negated value. */
  lemma NegativeSigned(t: string)
    requires |t| > 1 && t[0] == '-' && AllDigits(t[1..]) && |t| - 1 <= MaxStrDigits
    ensures SignedInt(t) == Some(0 - DigitsValue(t[1..]))
  {
    DigitsUnsigned(t[1..]);
  }

  lemma DigitsUnsigned(d: string)
    requires |d| > 0 && AllDigits(d) && |d| <= MaxStrDigits
    ensures UnsignedInt(d) == Some(DigitsValue(d))
  {
    DigitsArePart(d);
  }

  /** `int(str(n)) == n` for every `n` that `str` prints (at most the limit's digits). */
  lemma ParseIntToString(n: int)
    requires |NatToString(if n < 0 then -n else n)| <= MaxStrDigits
    ensures ParseInt(IntToString(n)) == Some(n)
  {
    if n < 0 {
      NegativeRoundTrip(n);
    } else {
      NatToStringDigits(n);
      DigitsParse(NatToString(n));
    }
  }

  lemma NegativeRoundTrip(n: int)
    requires n < 0 && |NatToString(-n)| <= MaxStrDigits
    ensures ParseInt(IntToString(n)) == Some(n)
  {
    NegativeIntString(n);
    NegativeParse(NatToString(-n));
  }

  // ---------------------------------------------------------------- float(text)

  /** A Python float: a finite value (taken exactly, binary rounding not modelled), an
      infinity, or NaN. */
  datatype FloatValue = Finite(value: real) | Infinite(negative: bool) | NaN

  function Pow10(n: nat): (r: nat)
    ensures r >= 1
  {
    if n == 0 then 1 else 10 * Pow10(n - 1)
  }

  /** `x * 10**e` for an integer exponent. */
  function Scale(x: real, e: int): real {
    if e >= 0 then x * Pow10(e) as real else x / Pow10(-e) as real
  }

  /** The position of the first `c` in `s`, or `|s|` when there is none. */
  function IndexOf(s: string, c: char): (r: nat)
    ensures r <= |s| && (r < |s| ==> s[r] == c)
    ensures forall i :: 0 <= i < r ==> s[i] != c
  {
    if s == [] then 0 else if s[0] == c then 0 else 1 + IndexOf(s[1..], c)
  }

  /** The position of the first 'e' or 'E', or `|s|`. */
  function ExponentIndex(s: string): (r: nat)
    ensures r <= |s| && (r < |s| ==> s[r] == 'e' || s[r] == 'E')
    ensures forall i :: 0 <= i < r ==> s[i] != 'e' && s[i] != 'E'
  {
    if s == [] then 0 else if s[0] == 'e' || s[0] == 'E' then 0 else 1 + ExponentIndex(s[1..])
  }

  /** The value of a digit part, or 0 for the empty string. */
  function PartValue(d: string): nat
    requires d == [] || IsDigitPart(d)
  {
    if d == [] then 0 else DigitPartValue(d)
  }

  /** The number of digits in a digit part, underscores not counted. */
  function DigitCount(d: string): nat {
    |RemoveAll(d, '_')|
  }

  /** The number written with integer part `whole` and `digits` fraction digits `fraction`. */
  function Decimal(whole: nat, fraction: nat, digits: nat): real {
    whole as real + fraction as real / Pow10(digits) as real
  }

  /** `[digitpart] "." digitpart | digitpart ["."]`: the mantissa of a float literal. */
  function MantissaValue(m: string): Option<real> {
    var i := IndexOf(m, '.');
    if i == |m| then
      if IsDigitPart(m) then Some(DigitPartValue(m) as real) else None
    else
      var whole := m[..i];
      var fraction := m[i + 1..];
      if (whole != [] || fraction != [])
         && (whole == [] || IsDigitPart(whole)) && (fraction == [] || IsDigitPart(fraction))
      then Some(Decimal(PartValue(whole), PartValue(fraction), DigitCount(fraction)))
      else None
  }

  /** `["+" | "-"] digitpart` after the 'e' of an exponent. */
  function ExponentValue(e: string): Option<int> {
    if |e| > 0 && (e[0] == '+' || e[0] == '-') then
      if IsDigitPart(e[1..]) then
        var magnitude: int := DigitPartValue(e[1..]);
        Some(if e[0] == '-' then -magnitude else magnitude)
      else None
    else if IsDigitPart(e) then Some(DigitPartValue(e))
    else None
  }

  /** A mantissa with an optional exponent. */
  function NumberValue(body: string): Option<real> {
    var j := ExponentIndex(body);
    if j == |body| then MantissaValue(body)
    else
      var mantissa := MantissaValue(body[..j]);
      var exponent := ExponentValue(body[j + 1..]);
      if mantissa.Some? && exponent.Some? then Some(Scale(mantissa.value, exponent.value)) else None
  }

  /** An unsigned float: a number, which starts with a digit or '.', or else "inf",
      "infinity" or "nan" in any letter case. */
  function UnsignedFloat(body: string, negative: bool): Option<FloatValue> {
    if |body| > 0 && (IsDigit(body[0]) || body[0] == '.') then Signed(NumberValue(body), negative)
    else SpecialFloat(body, negative)
  }

  /** A finite magnitude with its sign applied. */
  function Signed(magnitude: Option<real>, negative: bool): Option<FloatValue> {
    if magnitude.Some? then Some(Finite(if negative then -magnitude.value else magnitude.value)) else None
  }

  /** The words `float` accepts in any case: an infinity or not-a-number. */
  function SpecialFloat(word: string, negative: bool): Option<FloatValue> {
    var w := Lower(word);
    if w == "inf" || w == "infinity" then Some(Infinite(negative))
    else if w == "nan" then Some(NaN)
    else None
  }

  /** `float(s)`: surrounding white space, an optional sign, then an unsigned float; None
      where Python raises ValueError. */
  function ParseFloat(s: string): Option<FloatValue> {
    SignedFloat(Strip(s))
  }

  /** A float literal with no white space around it. */
  function SignedFloat(t: string): Option<FloatValue> {
    if |t| > 0 && (t[0] == '+' || t[0] == '-') then UnsignedFloat(t[1..], t[0] == '-')
    else UnsignedFloat(t, false)
  }

  /** A digit string is a digit part, and it counts all its characters. */
  lemma DigitsArePart(d: string)
    requires |d| > 0 && AllDigits(d)
    ensures IsDigitPart(d) && DigitPartValue(d) == DigitsValue(d) && DigitCount(d) == |d|
  {
    RemoveAllAbsent(d, '_');
  }

  /** Without an 'e' the number is its mantissa. */
  lemma NumberWithoutExponent(body: string)
    requires forall i :: 0 <= i < |body| ==> body[i] != 'e' && body[i] != 'E'
    ensures NumberValue(body) == MantissaValue(body)
  {
    ExponentIndexNone(body);
  }

  lemma {:induction false} ExponentIndexNone(s: string)
    requires forall i :: 0 <= i < |s| ==> s[i] != 'e' && s[i] != 'E'
    ensures ExponentIndex(s) == |s|
  {
    if s != [] {
      ExponentIndexNone(s[1..]);
    }
  }

  lemma {:induction false} IndexOfFirst(s: string, c: char, k: nat)
    requires k < |s| && s[k] == c && forall i :: 0 <= i < k ==> s[i] != c
    ensures IndexOf(s, c) == k
  {
    if k > 0 {
      IndexOfFirst(s[1..], c, k - 1);
    }
  }

  lemma {:induction false} IndexOfNone(s: string, c: char)
    requires forall i :: 0 <= i < |s| ==> s[i] != c
    ensures IndexOf(s, c) == |s|
  {
    if s != [] {
      IndexOfNone(s[1..], c);
    }
  }

  /** A plain decimal "w.f" is a mantissa worth w + f / 10^|f|. */
  lemma MantissaDecimal(whole: string, fraction: string)
    requires |whole| > 0 && AllDigits(whole) && |fraction| > 0 && AllDigits(fraction)
    ensures MantissaValue(whole + "." + fraction) == Some(Decimal(DigitsValue(whole), DigitsValue(fraction), |fraction|))
  {
    var s := whole + "." + fraction;
    DigitsArePart(whole);
    DigitsArePart(fraction);
    forall i | 0 <= i < |whole| ensures s[i] != '.' {
      assert s[i] == whole[i];
    }
    IndexOfFirst(s, '.', |whole|);
    assert s[..|whole|] == whole;
    assert s[|whole| + 1..] == fraction;
    assert PartValue(whole) == DigitsValue(whole);
    assert PartValue(fraction) == DigitsValue(fraction);
    assert IndexOf(s, '.') != |s|;
  }

  /** A plain decimal "w.f" parses to w + f / 10^|f|. */
  lemma ParseFloatDecimal(whole: string, fraction: string)
    requires |whole| > 0 && AllDigits(whole) && |fraction| > 0 && AllDigits(fraction)
    ensures ParseFloat(whole + "." + fraction) == Some(Finite(Decimal(DigitsValue(whole), DigitsValue(fraction), |fraction|)))
  {
    DecimalUnstripped(whole, fraction);
    DecimalUnsigned(whole, fraction);
  }

  lemma DecimalUnstripped(whole: string, fraction: string)
    requires |whole| > 0 && AllDigits(whole) && AllDigits(fraction)
    ensures Strip(whole + "." + fraction) == whole + "." + fraction
    ensures SignedFloat(whole + "." + fraction) == UnsignedFloat(whole + "." + fraction, false)
  {
    var s := whole + "." + fraction;
    forall i | 0 <= i < |s| ensures !IsSpace(s[i]) {
      if i < |whole| { assert s[i] == whole[i]; }
      else if i > |whole| { assert s[i] == fraction[i - |whole| - 1]; }
    }
    StripNoSpace(s);
    assert s[0] == whole[0];
  }

  lemma DecimalUnsigned(whole: string, fraction: string)
    requires |whole| > 0 && AllDigits(whole) && |fraction| > 0 && AllDigits(fraction)
    ensures UnsignedFloat(whole + "." + fraction, false) ==
      Some(Finite(Decimal(DigitsValue(whole), DigitsValue(fraction), |fraction|)))
  {
    var s := whole + "." + fraction;
    forall i | 0 <= i < |s| ensures s[i] != 'e' && s[i] != 'E' {
      if i < |whole| { assert s[i] == whole[i]; }
      else if i > |whole| { assert s[i] == fraction[i - |whole| - 1]; }
    }
    assert s[0] == whole[0];
    NumberWithoutExponent(s);
    MantissaDecimal(whole, fraction);
  }

  /** A digit string is a mantissa worth its value. */
  lemma MantissaDigits(d: string)
    requires |d| > 0 && AllDigits(d)
    ensures MantissaValue(d) == Some(DigitsValue(d) as real)
  {
    DigitsArePart(d);
    forall i | 0 <= i < |d| ensures d[i] != '.' {
      assert IsDigit(d[i]);
    }
    IndexOfNone(d, '.');
  }

  /** A digit string, with or without a sign in front, parses to its value. */
  lemma UnsignedDigits(d: string, negative: bool)
    requires |d| > 0 && AllDigits(d)
    ensures UnsignedFloat(d, negative) == Signed(Some(DigitsValue(d) as real), negative)
  {
    forall i | 0 <= i < |d| ensures d[i] != 'e' && d[i] != 'E' {
      assert IsDigit(d[i]);
    }
    NumberWithoutExponent(d);
    MantissaDigits(d);
    assert IsDigit(d[0]);
    assert UnsignedFloat(d, negative) == Signed(NumberValue(d), negative);
  }

  /** `float(str(n)) == n` for every integer. */
  lemma ParseFloatInt(n: int)
    ensures ParseFloat(IntToString(n)) == Some(Finite(n as real))
  {
    if n < 0 {
      NegativeFloat(n);
    } else {
      NatFloat(n);
    }
  }

  lemma NatFloat(n: int)
    requires n >= 0
    ensures ParseFloat(IntToString(n)) == Some(Finite(n as real))
  {
    var s := IntToString(n);
    IntStringUnstripped(n);
    assert s == NatToString(n);
    NatToStringDigits(n);
    assert IsDigit(s[0]);
    UnsignedDigits(s, false);
  }

  lemma NegativeFloat(n: int)
    requires n < 0
    ensures ParseFloat(IntToString(n)) == Some(Finite(n as real))
  {
    NegativeIntString(n);
    NegativeDigitsFloat(NatToString(-n));
  }

  /** `str(n)` of a negative number is a minus sign before the digits of its magnitude. */
  lemma NegativeIntString(n: int)
    requires n < 0
    ensures IntToString(n) == "-" + NatToString(-n)
    ensures |NatToString(-n)| > 0 && AllDigits(NatToString(-n)) && DigitsValue(NatToString(-n)) == -n
  {
    NatToStringDigits(-n);
  }

  /** A minus sign before digits is a float literal of the negated value. */
  lemma NegativeDigitsFloat(digits: string)
    requires |digits| > 0 && AllDigits(digits)
    ensures ParseFloat("-" + digits) == Some(Finite(-(DigitsValue(digits) as real)))
  {
    NegativeUnstripped(digits);
    NegativeDigitsSignedFloat(digits);
  }

  lemma NegativeDigitsSignedFloat(digits: string)
    requires |digits| > 0 && AllDigits(digits)
    ensures SignedFloat("-" + digits) == Some(Finite(-(DigitsValue(digits) as real)))
  {
    NegativeSignedFloat(digits);
    UnsignedDigits(digits, true);
  }

  lemma NegativeSignedFloat(digits: string)
    ensures SignedFloat("-" + digits) == UnsignedFloat(digits, true)
  {
    assert ("-" + digits)[1..] == digits;
  }

  /** `str(n)` has no white space around it. */
  lemma IntStringUnstripped(n: int)
    ensures Strip(IntToString(n)) == IntToString(n)
  {
    var s := IntToString(n);
    var m: nat := if n < 0 then -n else n;
    var digits := NatToString(m);
    NatToStringDigits(m);
    forall i | 0 <= i < |s| ensures !IsSpace(s[i]) {
      if n < 0 && i > 0 { assert s[i] == digits[i - 1]; }
      else if n >= 0 { assert s[i] == digits[i]; }
    }
    StripNoSpace(s);
  }

  // ---------------------------------------------------------------- re.search(r'(\d+)', s)

  /** The longest prefix of `s` made of digits. */
  function LeadingDigits(s: string): (r: string)
    ensures |r| <= |s| && r == s[..|r|] && AllDigits(r)
    ensures |r| == |s| || !IsDigit(s[|r|])
  {
    if s != [] && IsDigit(s[0]) then [s[0]] + LeadingDigits(s[1..]) else []
  }

  /** `re.search(r'(\d+)', s)`: the matched text, or None when `s` holds no digit. */
  function SearchDigits(s: string): Option<string> {
    if s == [] then None
    else if IsDigit(s[0]) then Some(LeadingDigits(s))
    else SearchDigits(s[1..])
  }

  /** `run` is the leftmost maximal run of digits of `s`, and it starts at `i`. */
  ghost predicate IsLeftmostDigitRun(s: string, i: int, run: string) {
    && OccursAt(s, run, i) && |run| > 0 && AllDigits(run)
    && (forall j :: 0 <= j < i ==> !IsDigit(s[j]))
    && (i + |run| == |s| || !IsDigit(s[i + |run|]))
  }

  lemma {:induction false} SearchDigitsNone(s: string)
    ensures SearchDigits(s).None? <==> forall j :: 0 <= j < |s| ==> !IsDigit(s[j])
  {
    if s != [] && !IsDigit(s[0]) {
      SearchDigitsNone(s[1..]);
      assert forall j :: 1 <= j < |s| ==> s[j] == s[1..][j - 1];
    }
  }

  lemma {:induction false} SearchDigitsLeftmost(s: string)
    requires SearchDigits(s).Some?
    ensures exists i :: IsLeftmostDigitRun(s, i, SearchDigits(s).value)
  {
    if IsDigit(s[0]) {
      assert IsLeftmostDigitRun(s, 0, SearchDigits(s).value);
    } else {
      SearchDigitsLeftmost(s[1..]);
      var run := SearchDigits(s).value;
      var i :| IsLeftmostDigitRun(s[1..], i, run);
      assert s[1..][i..i + |run|] == s[i + 1..i + 1 + |run|];
      assert IsLeftmostDigitRun(s, i + 1, run);
    }
  }

  /** Whatever the leftmost maximal digit run is, the search finds exactly it. */
  lemma {:induction false} LeftmostDigitRunFound(s: string, i: int, run: string)
    requires IsLeftmostDigitRun(s, i, run)
    ensures SearchDigits(s) == Some(run)
    decreases i
  {
    if i == 0 {
      var r := LeadingDigits(s);
      assert run == s[..|run|];
    } else {
      assert s[1..][i - 1..i - 1 + |run|] == s[i..i + |run|];
      LeftmostDigitRunFound(s[1..], i - 1, run);
    }
  }
}
