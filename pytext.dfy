/** The few Python text operations the core relies on: `str.startswith`,
    `str.lower` (ASCII), whitespace stripping and the decimal `int()`
    conversion, with the rendering of an integer back to text that `int()`
    inverts. */
module PyText {
  import opened Wrappers

  predicate StartsWith(s: string, prefix: string) {
    |prefix| <= |s| && s[..|prefix|] == prefix
  }

  /** Python's `str.lower` restricted to ASCII: only 'A'..'Z' change. */
  function LowerChar(c: char): (r: char)
    ensures 'A' <= c <= 'Z' ==> r as int == c as int + 32
    ensures !('A' <= c <= 'Z') ==> r == c
  {
    if 'A' <= c <= 'Z' then (c as int + 32) as char else c
  }

  function Lower(s: string): (r: string)
    ensures |r| == |s|
    ensures forall i :: 0 <= i < |s| ==> r[i] == LowerChar(s[i])
  {
    seq(|s|, i requires 0 <= i < |s| => LowerChar(s[i]))
  }

  /** A string lower-cases to "all" exactly when it is "all" in any mix of cases. */
  lemma LowerIsAll(s: string)
    ensures Lower(s) == "all" <==>
      |s| == 3 && (s[0] == 'a' || s[0] == 'A') && (s[1] == 'l' || s[1] == 'L') && (s[2] == 'l' || s[2] == 'L')
  {
    var r := Lower(s);
    if r == "all" {
      assert |s| == 3;
      assert LowerChar(s[0]) == 'a' && LowerChar(s[1]) == 'l' && LowerChar(s[2]) == 'l';
    }
    if |s| == 3 && (s[0] == 'a' || s[0] == 'A') && (s[1] == 'l' || s[1] == 'L') && (s[2] == 'l' || s[2] == 'L') {
      assert r[0] == 'a' && r[1] == 'l' && r[2] == 'l';
    }
  }

  /** The characters C's isspace accepts, which `int()` strips at either end. */
  predicate IsSpace(c: char) {
    c == ' ' || c == '\t' || c == '\n' || c == '\r' || c == '\U{0B}' || c == '\U{0C}'
  }

  function TrimLeft(s: string): string {
    if |s| > 0 && IsSpace(s[0]) then TrimLeft(s[1..]) else s
  }

  function TrimRight(s: string): string {
    if |s| > 0 && IsSpace(s[|s| - 1]) then TrimRight(s[..|s| - 1]) else s
  }

  function Strip(s: string): string {
    TrimRight(TrimLeft(s))
  }

  predicate IsDigit(c: char) {
    '0' <= c <= '9'
  }

  predicate AllDigits(s: string) {
    forall i :: 0 <= i < |s| ==> IsDigit(s[i])
  }

  /** The number a non-empty run of decimal digits denotes, read from the right. */
  function DigitsValue(s: string): nat
    requires AllDigits(s)
  {
    if s == [] then 0
    else DigitsValue(s[..|s| - 1]) * 10 + (s[|s| - 1] as int - '0' as int)
  }

  /** Python's `int(text)` in base 10: surrounding whitespace is ignored, one
      optional sign, whitespace after the sign is skipped too, then at least
      one decimal digit; anything else is a ValueError, modelled as None. */
  function ParseInt(text: string): Option<int> {
    ParseSigned(Strip(text))
  }

  /** `int()` of text with no surrounding whitespace: after a sign, the
      digits may follow further whitespace (`int(u'- 5')` is -5). */
  function ParseSigned(t: string): Option<int> {
    if |t| > 0 && (t[0] == '-' || t[0] == '+') then
      match ParseUnsigned(TrimLeft(t[1..]))
      case None => None
      case Some(m) => Some(if t[0] == '-' then -(m as int) else m)
    else ParseUnsigned(t)
  }

  /** A non-empty run of decimal digits and nothing else. */
  function ParseUnsigned(u: string): Option<nat> {
    if |u| > 0 && AllDigits(u) then Some(DigitsValue(u)) else None
  }

  /** The position of the first character of `s` in `cs`, or |s| when there is none. */
  function FirstOf(s: string, cs: set<char>): (r: nat)
    ensures r <= |s|
    ensures forall i :: 0 <= i < r ==> s[i] !in cs
    ensures r < |s| ==> s[r] in cs
  {
    if s == [] then 0
    else if s[0] in cs then 0
    else 1 + FirstOf(s[1..], cs)
  }

  /** Digits with at most one decimal point among them, and at least one digit. */
  predicate Mantissa(m: string) {
    var d := FirstOf(m, {'.'});
    if d == |m| then |m| > 0 && AllDigits(m)
    else |m| > 1 && AllDigits(m[..d]) && AllDigits(m[d + 1..])
  }

  /** The part after the exponent letter: one optional sign, then digits. */
  predicate Exponent(x: string) {
    if |x| > 0 && (x[0] == '-' || x[0] == '+') then |x| > 1 && AllDigits(x[1..])
    else |x| > 0 && AllDigits(x)
  }

  /** An unsigned decimal literal: a mantissa, then an optional exponent. */
  predicate DecimalLiteral(u: string) {
    var e := FirstOf(u, {'e', 'E'});
    if e == |u| then Mantissa(u) else Mantissa(u[..e]) && Exponent(u[e + 1..])
  }

  /** Text Python's `float()` accepts: surrounding whitespace is ignored,
      then one optional sign and a decimal literal, or 'inf', 'infinity' or
      'nan' in any case; anything else raises ValueError. */
  predicate FloatText(text: string) {
    var u := Unsigned(Strip(text));
    SpecialFloat(u) || DecimalLiteral(u)
  }

  /** The text after one optional leading sign. */
  function Unsigned(t: string): string {
    if |t| > 0 && (t[0] == '-' || t[0] == '+') then t[1..] else t
  }

  /** The names of the infinities and of NaN, in any case. */
  predicate SpecialFloat(u: string) {
    var l := Lower(u);
    l == "inf" || l == "infinity" || l == "nan"
  }

  function DigitChar(d: nat): (c: char)
    requires d < 10
    ensures IsDigit(c) && c as int - '0' as int == d
  {
    ('0' as int + d) as char
  }

  /** The decimal text of a natural number, no leading zeros. */
  function ShowNat(n: nat): (r: string)
    ensures |r| > 0 && AllDigits(r)
  {
    if n < 10 then [DigitChar(n)] else ShowNat(n / 10) + [DigitChar(n % 10)]
  }

  /** Python's `unicode(i)` of an integer: a minus sign for a negative
      number, then the digits of its magnitude. */
  function ShowInt(i: int): string {
    Sign(i) + ShowNat(Magnitude(i))
  }

  function Sign(i: int): string {
    if i < 0 then "-" else ""
  }

  function Magnitude(i: int): nat {
    if i < 0 then -i else i
  }

  lemma {:induction false} DigitsOfShowNat(n: nat)
    ensures DigitsValue(ShowNat(n)) == n
  {
    var s := ShowNat(n);
    if n >= 10 {
      DigitsOfShowNat(n / 10);
      assert s[..|s| - 1] == ShowNat(n / 10);
    }
  }

  /** Text without surrounding whitespace is left alone by `strip`. */
  lemma StripUnpadded(s: string)
    requires |s| > 0 && !IsSpace(s[0]) && !IsSpace(s[|s| - 1])
    ensures Strip(s) == s
  {
    assert TrimLeft(s) == s;
  }

  /** `int()` of a run of digits is the number they spell. */
  lemma ParseDigits(t: string)
    requires |t| > 0 && AllDigits(t)
    ensures ParseInt(t) == Some(DigitsValue(t))
  {
    assert IsDigit(t[0]) && IsDigit(t[|t| - 1]);
    StripUnpadded(t);
    assert ParseSigned(t) == ParseUnsigned(t);
  }

  /** `int()` of a minus sign and a run of digits is the negated number. */
  lemma {:induction false} ParseNegatedDigits(t: string)
    requires |t| > 0 && AllDigits(t)
    ensures ParseInt("-" + t) == Some(-(DigitsValue(t) as int))
  {
    var s := "-" + t;
    assert s[1..] == t;
    assert IsDigit(t[|t| - 1]);
    assert s[|s| - 1] == t[|t| - 1];
    StripUnpadded(s);
    assert TrimLeft(t) == t;
    ParseNegative(s, t);
  }

  /** The digits of a natural number read back as that number. */
  lemma ShowNonNegative(n: nat)
    ensures ParseInt(ShowNat(n)) == Some(n)
  {
    var t := ShowNat(n);
    DigitsOfShowNat(n);
    ParseDigits(t);
  }

  /** A minus sign before the digits of a number reads back as its negation. */
  lemma ShowNegative(n: nat)
    ensures ParseInt("-" + ShowNat(n)) == Some(-(n as int))
  {
    var t := ShowNat(n);
    DigitsOfShowNat(n);
    ParseNegatedDigits(t);
  }

  /** `int()` reads back exactly the integer that `unicode()` wrote. */
  lemma ParseShowInt(i: int)
    ensures ParseInt(ShowInt(i)) == Some(i)
  {
    if i < 0 {
      ShowNegative(-i);
    } else {
      ShowNonNegative(i);
      assert ShowInt(i) == ShowNat(i);
    }
  }

  /** The stripped text is a sign followed by whitespace. */
  predicate SpaceAfterSign(text: string) {
    var t := Strip(text);
    |t| > 1 && (t[0] == '-' || t[0] == '+') && IsSpace(t[1])
  }

  /** Text `int()` accepts, `float()` accepts too, unless whitespace follows
      the sign, which only `int()` skips. */
  lemma IntTextIsFloatText(text: string)
    requires ParseInt(text).Some? && !SpaceAfterSign(text)
    ensures FloatText(text)
  {
    var t := Strip(text);
    if |t| > 0 && (t[0] == '-' || t[0] == '+') {
      assert ParseUnsigned(TrimLeft(t[1..])).Some?;
      assert |t| > 1;
      assert TrimLeft(t[1..]) == t[1..];
    }
    var u := Unsigned(t);
    assert |u| > 0 && AllDigits(u);
    NoSeparators(u);
  }

  /** Whitespace at the front is all `TrimLeft` removes before a digit. */
  lemma {:induction false} TrimPadding(pad: string, t: string)
    requires forall i :: 0 <= i < |pad| ==> IsSpace(pad[i])
    requires |t| > 0 && IsDigit(t[0])
    ensures TrimLeft(pad + t) == t
  {
    if pad == [] {
      assert pad + t == t;
    } else {
      assert (pad + t)[1..] == pad[1..] + t;
      TrimPadding(pad[1..], t);
    }
  }

  /** `int()` skips whitespace after the sign: a minus sign, whitespace,
      then digits is the negated number. */
  lemma {:induction false} SpacedSignInt(pad: string, t: string)
    requires forall i :: 0 <= i < |pad| ==> IsSpace(pad[i])
    requires |t| > 0 && AllDigits(t)
    ensures ParseInt("-" + pad + t) == Some(-(DigitsValue(t) as int))
  {
    var s := "-" + pad + t;
    SignedUnpadded(pad, t);
    assert s[1..] == pad + t;
    TrimPadding(pad, t);
    ParseNegative(s, t);
  }

  lemma ParseNegative(s: string, t: string)
    requires |s| > 0 && s[0] == '-' && Strip(s) == s
    requires TrimLeft(s[1..]) == t && |t| > 0 && AllDigits(t)
    ensures ParseInt(s) == Some(-(DigitsValue(t) as int))
  {
    assert ParseUnsigned(TrimLeft(s[1..])) == Some(DigitsValue(t));
  }

  /** `float()` does not: with any whitespace after the sign it raises,
      where `int()` reads the number. */
  lemma {:induction false} SpacedSignNotFloat(pad: string, t: string)
    requires forall i :: 0 <= i < |pad| ==> IsSpace(pad[i])
    requires |pad| > 0 && |t| > 0 && AllDigits(t)
    ensures !FloatText("-" + pad + t)
  {
    var s := "-" + pad + t;
    SignedUnpadded(pad, t);
    var u := Unsigned(s);
    assert u == pad + t && u[0] == pad[0];
    NotSpecial(u);
    NotDecimal(u);
  }

  lemma SignedUnpadded(pad: string, t: string)
    requires |t| > 0 && AllDigits(t)
    ensures Strip("-" + pad + t) == "-" + pad + t
  {
    var s := "-" + pad + t;
    assert s[0] == '-';
    assert IsDigit(t[|t| - 1]) && s[|s| - 1] == t[|t| - 1];
    StripUnpadded(s);
  }

  /** A run of digits has no exponent letter and no decimal point, so it is
      a decimal literal on its own. */
  lemma NoSeparators(u: string)
    requires |u| > 0 && AllDigits(u)
    ensures DecimalLiteral(u)
  {
    assert forall i :: 0 <= i < |u| ==> u[i] !in {'e', 'E'} && u[i] !in {'.'} by {
      forall i | 0 <= i < |u| ensures u[i] !in {'e', 'E'} && u[i] !in {'.'} {
        assert IsDigit(u[i]);
      }
    }
    assert FirstOf(u, {'e', 'E'}) == |u|;
    assert FirstOf(u, {'.'}) == |u|;
  }

  /** Text that starts with another character than a digit, a sign, a
      decimal point or the first letter of 'inf' or 'nan' is not a float:
      `float(u'abc')` raises. */
  lemma LeadingLetterNotFloat(text: string)
    requires |text| > 0 && !IsSpace(text[0]) && !IsSpace(text[|text| - 1])
    requires !IsDigit(text[0]) && text[0] !in "+-.iInN"
    ensures !FloatText(text)
  {
    StripUnpadded(text);
    assert Unsigned(text) == text;
    NotSpecial(text);
    NotDecimal(text);
  }

  lemma NotSpecial(u: string)
    requires |u| > 0 && u[0] !in "iInN"
    ensures !SpecialFloat(u)
  {
    assert Lower(u)[0] == LowerChar(u[0]);
  }

  lemma NotDecimal(u: string)
    requires |u| > 0 && !IsDigit(u[0]) && u[0] != '.'
    ensures !DecimalLiteral(u)
  {
    var e := FirstOf(u, {'e', 'E'});
    if e > 0 {
      var m := u[..e];
      assert m[0] == u[0];
      var d := FirstOf(m, {'.'});
      assert d > 0;
      assert m[..d][0] == u[0];
    }
  }
}
