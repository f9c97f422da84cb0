/** `json.dumps` with its defaults (`ensure_ascii=True`, separators ", " and ": ")
    for the values the JavaScript scenario holds: strings, integers, lists and objects. */
module Json {
  import Text

  function HexDigit(d: nat): char
    requires d < 16
  {
    if d < 10 then ('0' as int + d) as char else ('a' as int + d - 10) as char
  }

  /** Four lower-case hexadecimal digits. */
  function Hex4(n: nat): string
    requires n < 0x1_0000
  {
    [HexDigit(n / 0x1000), HexDigit(n / 0x100 % 16), HexDigit(n / 0x10 % 16), HexDigit(n % 16)]
  }

  predicate IsPrintableAscii(c: char) { ' ' <= c <= '~' }

  /** One character inside a JSON string literal: printable ASCII stands for itself
      (except the quote and the backslash), the usual short escapes, otherwise `\uXXXX`,
      with a surrogate pair above the Basic Multilingual Plane. */
  function EscapeChar(c: char): string {
    if c == '"' then "\\\""
    else if c == '\\' then "\\\\"
    else if IsPrintableAscii(c) then [c]
    else if c == '\n' then "\\n"
    else if c == '\r' then "\\r"
    else if c == '\t' then "\\t"
    else if c as int == 8 then "\\b"
    else if c as int == 12 then "\\f"
    else if c as int < 0x1_0000 then "\\u" + Hex4(c as int)
    else
      var v := c as int - 0x1_0000;
      "\\u" + Hex4(0xD800 + v / 0x400) + "\\u" + Hex4(0xDC00 + v % 0x400)
  }

  /** The characters of `s`, each escaped, one after the other. */
  function Escape(s: string): string {
    Concat(seq(|s|, i requires 0 <= i < |s| => EscapeChar(s[i])))
  }

  function Concat(pieces: seq<string>): string {
    if pieces == [] then [] else pieces[0] + Concat(pieces[1..])
  }

  function String(s: string): string { "\"" + Escape(s) + "\"" }

  function Int(n: int): string { Text.IntToString(n) }

  /** A one-member object `{"key": value}` whose value is already serialised. */
  function Member(key: string, value: string): string { "{" + String(key) + ": " + value + "}" }

  /** A list of already serialised elements. */
  function List(elements: seq<string>): string { "[" + Join(elements) + "]" }

  function Join(elements: seq<string>): string {
    if elements == [] then ""
    else if |elements| == 1 then elements[0]
    else elements[0] + ", " + Join(elements[1..])
  }

  predicate PrintableAscii(s: string) { forall i :: 0 <= i < |s| ==> IsPrintableAscii(s[i]) }

  lemma PrintableAppend(a: string, b: string)
    requires PrintableAscii(a) && PrintableAscii(b)
    ensures PrintableAscii(a + b)
  {
  }

  lemma EscapeCharPrintable(c: char)
    ensures PrintableAscii(EscapeChar(c))
  {
  }

  lemma {:induction false} ConcatPrintable(pieces: seq<string>)
    requires forall i :: 0 <= i < |pieces| ==> PrintableAscii(pieces[i])
    ensures PrintableAscii(Concat(pieces))
  {
    if pieces != [] {
      ConcatPrintable(pieces[1..]);
      PrintableAppend(pieces[0], Concat(pieces[1..]));
    }
  }

  /** With `ensure_ascii`, a serialised string is printable ASCII whatever it encodes. */
  lemma EscapePrintable(s: string)
    ensures PrintableAscii(Escape(s))
  {
    var pieces := seq(|s|, i requires 0 <= i < |s| => EscapeChar(s[i]));
    forall i | 0 <= i < |s| ensures PrintableAscii(pieces[i]) {
      EscapeCharPrintable(s[i]);
    }
    ConcatPrintable(pieces);
  }

  lemma StringPrintable(s: string)
    ensures PrintableAscii(String(s))
  {
    EscapePrintable(s);
  }

  /** `str(n)` is a minus sign and digits. */
  lemma IntPrintable(n: int)
    ensures PrintableAscii(Int(n))
  {
    var m: nat := if n < 0 then -n else n;
    var digits := Text.NatToString(m);
    Text.NatToStringDigits(m);
    var s := Int(n);
    forall i | 0 <= i < |s| ensures IsPrintableAscii(s[i]) {
      if n < 0 && i > 0 {
        assert s[i] == digits[i - 1] && Text.IsDigit(digits[i - 1]);
      } else if n >= 0 {
        assert s[i] == digits[i] && Text.IsDigit(digits[i]);
      }
    }
  }

  lemma MemberPrintable(key: string, value: string)
    requires PrintableAscii(value)
    ensures PrintableAscii(Member(key, value))
  {
    StringPrintable(key);
  }

  lemma {:induction false} JoinPrintable(elements: seq<string>)
    requires forall i :: 0 <= i < |elements| ==> PrintableAscii(elements[i])
    ensures PrintableAscii(Join(elements))
    decreases |elements|
  {
    if |elements| > 1 {
      JoinPrintable(elements[1..]);
      PrintableAppend(elements[0] + ", ", Join(elements[1..]));
    }
  }

  lemma ListPrintable(elements: seq<string>)
    requires forall i :: 0 <= i < |elements| ==> PrintableAscii(elements[i])
    ensures PrintableAscii(List(elements))
  {
    JoinPrintable(elements);
  }
}
