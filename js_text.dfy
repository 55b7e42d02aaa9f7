// The JavaScript text conversions the score service relies on: `parseInt`
// without a radix, `String(n)` of an integer, and the JSON string and
// integer forms written by `JSON.stringify` and read back by `JSON.parse`.
// A JavaScript number is modelled as an integer or NaN; precision loss
// beyond 2^53 is not modelled.

module JsText {
  import opened Base

  /** A JavaScript number as the score service uses it: an integer, or NaN (`None`). */
  type JsNumber = Option<int>

  predicate IsDecimalDigit(c: char)
  {
    '0' <= c <= '9'
  }

  /** The value of a digit character in radices up to 36; 36 for anything else. */
  function DigitValue(c: char): (d: int)
    ensures 0 <= d <= 36
    ensures d < 10 <==> IsDecimalDigit(c)
  {
    if '0' <= c <= '9' then c as int - '0' as int
    else if 'a' <= c <= 'z' then c as int - 'a' as int + 10
    else if 'A' <= c <= 'Z' then c as int - 'A' as int + 10
    else 36
  }

  predicate IsRadixDigit(c: char, radix: int)
  {
    DigitValue(c) < radix
  }

  /** The white space and line terminators `parseInt` skips before the number. */
  predicate IsJsSpace(c: char)
  {
    || c == '\t' || c == '\n' || c == '\U{b}' || c == '\U{c}' || c == '\r' || c == ' '
    || c == '\U{a0}' || c == '\U{1680}' || ('\U{2000}' <= c <= '\U{200a}')
    || c == '\U{2028}' || c == '\U{2029}' || c == '\U{202f}' || c == '\U{205f}'
    || c == '\U{3000}' || c == '\U{feff}'
  }

  function TrimStart(s: string): string
  {
    if |s| > 0 && IsJsSpace(s[0]) then TrimStart(s[1..]) else s
  }

  /** The length of the run of radix digits at the start of `s`. */
  function DigitRun(s: string, radix: int): (n: nat)
    ensures n <= |s|
  {
    if |s| > 0 && IsRadixDigit(s[0], radix) then 1 + DigitRun(s[1..], radix) else 0
  }

  /** The value of a digit string in the given radix, most significant digit first. */
  function ValueIn(digits: string, radix: int): int
  {
    if |digits| == 0 then 0
    else ValueIn(digits[..|digits| - 1], radix) * radix + DigitValue(digits[|digits| - 1])
  }

  function StripSign(t: string): (u: string)
    ensures |u| <= |t|
  {
    if |t| > 0 && (t[0] == '-' || t[0] == '+') then t[1..] else t
  }

  predicate HasHexPrefix(u: string)
  {
    |u| >= 2 && u[0] == '0' && (u[1] == 'x' || u[1] == 'X')
  }

  /** The value of the run of radix digits at the start of `body`; none at all is NaN. */
  function LeadingValue(body: string, radix: int): (r: JsNumber)
    ensures r.None? <==> DigitRun(body, radix) == 0
  {
    var n := DigitRun(body, radix);
    if n == 0 then None else Some(ValueIn(body[..n], radix))
  }

  /**
   * `parseInt(s)` with no radix: skip leading white space, take one sign,
   * read a `0x`/`0X` prefix as radix 16, then the longest run of digits;
   * no digit at all gives NaN.
   */
  function ParseInt(s: string): (r: JsNumber)
  {
    var t := TrimStart(s);
    var u := StripSign(t);
    var v := if HasHexPrefix(u) then LeadingValue(u[2..], 16) else LeadingValue(u, 10);
    if v.None? then None
    else if |t| > 0 && t[0] == '-' then Some(-v.value)
    else v
  }

  /** `n || fallback` for a number: NaN and 0 are falsy. */
  function OrElse(n: JsNumber, fallback: int): (r: int)
    ensures n.Some? && n.value != 0 ==> r == n.value
    ensures n.None? || n == Some(0) ==> r == fallback
  {
    if n.Some? && n.value != 0 then n.value else fallback
  }

  function DigitChar(d: int): (c: char)
    requires 0 <= d < 10
    ensures IsDecimalDigit(c) && DigitValue(c) == d
  {
    ('0' as int + d) as char
  }

  /** Decimal digits of a natural number, without leading zeros. */
  function ShowNat(n: nat): (s: string)
    ensures |s| >= 1
  {
    if n < 10 then [DigitChar(n)] else ShowNat(n / 10) + [DigitChar(n % 10)]
  }

  /** `String(n)` writes only decimal digits, with no leading zero. */
  lemma {:induction false} ShowNatDigits(n: nat)
    ensures forall i :: 0 <= i < |ShowNat(n)| ==> IsDecimalDigit(ShowNat(n)[i])
    ensures ShowNat(n)[0] == '0' ==> n == 0 && |ShowNat(n)| == 1
    decreases n
  {
    if n >= 10 {
      ShowNatDigits(n / 10);
      var s := ShowNat(n);
      assert s == ShowNat(n / 10) + [DigitChar(n % 10)];
      assert s[0] == ShowNat(n / 10)[0];
    }
  }

  /** `String(n)` for an integer. */
  function ShowInt(n: int): (s: string)
    ensures |s| >= 1
  {
    if n < 0 then "-" + ShowNat(-n) else ShowNat(n)
  }

  /** `String(x)` for a number that may be NaN. */
  function ShowNumber(x: JsNumber): string
  {
    if x.Some? then ShowInt(x.value) else "NaN"
  }

  lemma {:induction false} ValueOfShowNat(n: nat)
    ensures ValueIn(ShowNat(n), 10) == n
    decreases n
  {
    if n >= 10 {
      ValueOfShowNat(n / 10);
      var s := ShowNat(n);
      assert s[..|s| - 1] == ShowNat(n / 10);
    }
  }

  lemma {:induction false} DigitRunOfDigits(d: string, rest: string)
    requires forall i :: 0 <= i < |d| ==> IsDecimalDigit(d[i])
    requires rest == [] || !IsDecimalDigit(rest[0])
    ensures DigitRun(d + rest, 10) == |d|
    decreases |d|
  {
    if |d| > 0 {
      assert (d + rest)[1..] == d[1..] + rest;
      DigitRunOfDigits(d[1..], rest);
    } else {
      assert d + rest == rest;
    }
  }

  /** A whole string of decimal digits is its own leading value. */
  lemma AllDigitsValue(digits: string, v: int)
    requires |digits| > 0 && forall i :: 0 <= i < |digits| ==> IsDecimalDigit(digits[i])
    requires ValueIn(digits, 10) == v
    ensures LeadingValue(digits, 10) == Some(v)
  {
    DigitRunOfDigits(digits, []);
    assert digits + [] == digits;
    assert digits[..|digits|] == digits;
  }

  /** A string that opens with a decimal digit and no hex prefix is read as its leading value. */
  lemma ParseUnsigned(u: string, v: int)
    requires |u| > 0 && IsDecimalDigit(u[0]) && !HasHexPrefix(u)
    requires LeadingValue(u, 10) == Some(v)
    ensures ParseInt(u) == Some(v)
  {
    assert TrimStart(u) == u;
  }

  /** The same string after a minus sign is read as the negated value. */
  lemma ParseNegated(u: string, v: int)
    requires |u| > 0 && IsDecimalDigit(u[0]) && !HasHexPrefix(u)
    requires LeadingValue(u, 10) == Some(v)
    ensures ParseInt("-" + u) == Some(-v)
  {
    var s := "-" + u;
    assert TrimStart(s) == s;
    assert StripSign(s) == u;
  }

  /** `parseInt(String(n))` gives back `n`. */
  lemma ParseShowInt(n: int)
    ensures ParseInt(ShowInt(n)) == Some(n)
  {
    var m: nat := if n < 0 then -n else n;
    var digits := ShowNat(m);
    ValueOfShowNat(m);
    ShowNatDigits(m);
    AllDigitsValue(digits, m);
    assert |digits| >= 2 ==> IsDecimalDigit(digits[1]);
    if n < 0 {
      ParseNegated(digits, m);
    } else {
      ParseUnsigned(digits, m);
    }
  }

  /** Worked cases: an empty or wordy string is NaN, trailing text is ignored. */
  lemma ParseIntExamples()
    ensures ParseInt("") == None
    ensures ParseInt("NaN") == None
    ensures ParseInt("7px") == Some(7)
  {
    assert !IsJsSpace('N') && !IsJsSpace('7');
    assert TrimStart("NaN") == "NaN";
    assert TrimStart("7px") == "7px";
    assert DigitRun("7px", 10) == 1;
    assert "7px"[..1] == "7";
    assert ValueIn("7", 10) == 7;
  }

  // ---------------------------------------------------------------------
  // JSON strings

  function HexDigit(d: int): (c: char)
    requires 0 <= d < 16
    ensures DigitValue(c) == d && IsRadixDigit(c, 16)
  {
    if d < 10 then DigitChar(d) else ('a' as int + d - 10) as char
  }

  /** How `JSON.stringify` writes one character inside a string literal. */
  function EscapeChar(c: char): (e: string)
    ensures |e| >= 1
  {
    if c == '"' then "\\\""
    else if c == '\\' then "\\\\"
    else if c == '\U{8}' then "\\b"
    else if c == '\U{c}' then "\\f"
    else if c == '\n' then "\\n"
    else if c == '\r' then "\\r"
    else if c == '\t' then "\\t"
    else if c < ' ' then "\\u00" + [HexDigit(c as int / 16), HexDigit(c as int % 16)]
    else [c]
  }

  function Escape(s: string): string
  {
    if |s| == 0 then "" else Escape(s[..|s| - 1]) + EscapeChar(s[|s| - 1])
  }

  /** Escaping works character by character, so it can be read from the front. */
  lemma {:induction false} EscapeFront(s: string)
    requires |s| > 0
    ensures Escape(s) == EscapeChar(s[0]) + Escape(s[1..])
    decreases |s|
  {
    if |s| > 1 {
      var init := s[..|s| - 1];
      EscapeFront(init);
      assert init[1..] == s[1..][..|s| - 2];
      assert s[1..][|s| - 2] == s[|s| - 1];
    } else {
      assert s[1..] == [];
      assert s[..0] == [];
    }
  }

  /** `JSON.stringify` of a string. */
  function Quote(s: string): (q: string)
    ensures |q| >= 2 && q[0] == '"'
  {
    "\"" + Escape(s) + "\""
  }

  function Unescape(e: char): Option<char>
  {
    if e == '"' then Some('"')
    else if e == '\\' then Some('\\')
    else if e == '/' then Some('/')
    else if e == 'b' then Some('\U{8}')
    else if e == 'f' then Some('\U{c}')
    else if e == 'n' then Some('\n')
    else if e == 'r' then Some('\r')
    else if e == 't' then Some('\t')
    else None
  }

  function Prepend(c: char, r: Option<(string, string)>): Option<(string, string)>
  {
    if r.Some? then Some(([c] + r.value.0, r.value.1)) else None
  }

  /**
   * The rest of a JSON string literal after its opening quote: the decoded
   * text and what follows the closing quote. Escapes of surrogate code
   * units are refused.
   */
  function ParseStringBody(s: string): (r: Option<(string, string)>)
    decreases |s|
  {
    if |s| == 0 then None
    else if s[0] == '"' then Some(("", s[1..]))
    else if s[0] < ' ' then None
    else if s[0] == '\\' then
      if |s| < 2 then None
      else if s[1] == 'u' then
        if |s| < 6 || DigitRun(s[2..6], 16) < 4 then None
        else
          var v := ValueIn(s[2..6], 16);
          if 0xD800 <= v < 0xE000 || v < 0 || v >= 0x1_0000 then None
          else Prepend(v as char, ParseStringBody(s[6..]))
      else if Unescape(s[1]).None? then None
      else Prepend(Unescape(s[1]).value, ParseStringBody(s[2..]))
    else Prepend(s[0], ParseStringBody(s[1..]))
  }

  /** A JSON string literal at the start of `s`: its text and what follows. */
  function ParseJsonString(s: string): Option<(string, string)>
  {
    if |s| > 0 && s[0] == '"' then ParseStringBody(s[1..]) else None
  }

  /** Four hexadecimal digits form a full run and read as their base-16 value. */
  lemma ReadFourHexDigits(a: char, b: char, c: char, d: char)
    requires IsRadixDigit(a, 16) && IsRadixDigit(b, 16) && IsRadixDigit(c, 16) && IsRadixDigit(d, 16)
    ensures DigitRun([a, b, c, d], 16) == 4
    ensures ValueIn([a, b, c, d], 16)
            == ((DigitValue(a) * 16 + DigitValue(b)) * 16 + DigitValue(c)) * 16 + DigitValue(d)
  {
    assert [d][1..] == [];
    assert DigitRun([d], 16) == 1;
    assert [c, d][1..] == [d];
    assert DigitRun([c, d], 16) == 2;
    assert [b, c, d][1..] == [c, d];
    assert DigitRun([b, c, d], 16) == 3;
    assert [a, b, c, d][1..] == [b, c, d];
    assert [a][..0] == [];
    assert ValueIn([a], 16) == DigitValue(a);
    assert [a, b][..1] == [a];
    assert ValueIn([a, b], 16) == DigitValue(a) * 16 + DigitValue(b);
    assert [a, b, c][..2] == [a, b];
    assert ValueIn([a, b, c], 16) == (DigitValue(a) * 16 + DigitValue(b)) * 16 + DigitValue(c);
    assert [a, b, c, d][..3] == [a, b, c];
  }

  lemma EscapeCharRoundTrip(c: char, t: string)
    ensures ParseStringBody(EscapeChar(c) + t) == Prepend(c, ParseStringBody(t))
  {
    var s := EscapeChar(c) + t;
    if c == '"' || c == '\\' || c == '\U{8}' || c == '\U{c}' || c == '\n' || c == '\r' || c == '\t' {
      assert s[2..] == t;
    } else if c < ' ' {
      var hi := HexDigit(c as int / 16);
      var lo := HexDigit(c as int % 16);
      assert s[2..6] == ['0', '0', hi, lo];
      ReadFourHexDigits('0', '0', hi, lo);
      assert ValueIn(s[2..6], 16) == c as int;
      assert s[6..] == t;
    } else {
      assert s[1..] == t;
    }
  }

  lemma {:induction false} EscapeRoundTrip(x: string, rest: string)
    ensures ParseStringBody(Escape(x) + "\"" + rest) == Some((x, rest))
    decreases |x|
  {
    if |x| == 0 {
      assert Escape(x) + "\"" + rest == "\"" + rest;
      assert ("\"" + rest)[1..] == rest;
    } else {
      var t := Escape(x[1..]) + "\"" + rest;
      EscapeFront(x);
      assert Escape(x) + "\"" + rest == EscapeChar(x[0]) + t;
      EscapeCharRoundTrip(x[0], t);
      EscapeRoundTrip(x[1..], rest);
      assert [x[0]] + x[1..] == x;
    }
  }

  /** `JSON.parse` reads back the text `JSON.stringify` wrote, leaving what follows. */
  lemma QuoteRoundTrip(x: string, rest: string)
    ensures ParseJsonString(Quote(x) + rest) == Some((x, rest))
  {
    assert (Quote(x) + rest)[1..] == Escape(x) + "\"" + rest;
    EscapeRoundTrip(x, rest);
  }

  // ---------------------------------------------------------------------
  // JSON integers

  /** An optionally negative run of decimal digits at the start of `s`, and what follows. */
  function ParseJsonInt(s: string): (r: Option<(int, string)>)
    ensures r.Some? ==> |r.value.1| < |s|
  {
    var neg := |s| > 0 && s[0] == '-';
    var t := if neg then s[1..] else s;
    var n := DigitRun(t, 10);
    if n == 0 then None
    else Some((if neg then -ValueIn(t[..n], 10) else ValueIn(t[..n], 10), t[n..]))
  }

  /** The digits of `String(m)` followed by a non-digit read back as `m`. */
  lemma ReadShowNat(m: nat, rest: string)
    requires rest == [] || !IsDecimalDigit(rest[0])
    ensures var t := ShowNat(m) + rest;
      DigitRun(t, 10) == |ShowNat(m)| && ValueIn(t[..|ShowNat(m)|], 10) == m
      && t[|ShowNat(m)|..] == rest && t[0] != '-'
  {
    var digits := ShowNat(m);
    ValueOfShowNat(m);
    ShowNatDigits(m);
    DigitRunOfDigits(digits, rest);
    assert (digits + rest)[..|digits|] == digits;
    assert (digits + rest)[|digits|..] == rest;
    assert (digits + rest)[0] == digits[0];
  }

  /** A run of `k` digits worth `v` with no sign in front reads as `v`. */
  lemma ReadDigitRun(t: string, k: nat, v: int)
    requires 0 < k == DigitRun(t, 10) && ValueIn(t[..k], 10) == v && t[0] != '-'
    ensures ParseJsonInt(t) == Some((v, t[k..]))
  {
  }

  /** The same run after one minus sign reads as `-v`. */
  lemma ReadNegatedDigitRun(t: string, k: nat, v: int)
    requires 0 < k == DigitRun(t, 10) && ValueIn(t[..k], 10) == v
    ensures ParseJsonInt("-" + t) == Some((-v, t[k..]))
  {
    assert ("-" + t)[1..] == t;
  }

  /** An integer written by `JSON.stringify` reads back when no digit follows it. */
  lemma JsonIntRoundTrip(n: int, rest: string)
    requires rest == [] || !IsDecimalDigit(rest[0])
    ensures ParseJsonInt(ShowInt(n) + rest) == Some((n, rest))
  {
    var m: nat := if n < 0 then -n else n;
    var t := ShowNat(m) + rest;
    ReadShowNat(m, rest);
    if n < 0 {
      ReadNegatedDigitRun(t, |ShowNat(m)|, m);
      assert ShowInt(n) == "-" + ShowNat(m);
      ConcatAssoc("-", ShowNat(m), rest);
    } else {
      ReadDigitRun(t, |ShowNat(m)|, m);
    }
  }


  /** `JSON.stringify` of a number that may be NaN: NaN is written as null. */
  function JsonNumber(x: JsNumber): string
  {
    if x.Some? then ShowInt(x.value) else "null"
  }
}
