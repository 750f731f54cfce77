/**
 * The small part of JavaScript's value semantics that the navigation code in
 * js/modules/ui.js relies on: truthiness, string conversion, `parseInt` with
 * no radix, the numeric coercion done by `-`, and decimal printing of numbers.
 * Numbers are integers here (see README, "Left out").
 */
module JsValues {

  datatype Option<T> = None | Some(value: T)

  /** A JavaScript value as the navigation code meets one. */
  datatype JsValue = Undefined | Str(s: string) | Num(n: int) | NaN

  /** JavaScript's ToBoolean on these values. */
  predicate Truthy(v: JsValue) {
    match v
    case Undefined => false
    case Str(s) => s != ""
    case Num(n) => n != 0
    case NaN => false
  }

  /** StrWhiteSpaceChar of ECMAScript: WhiteSpace (TAB, VT, FF, ZWNBSP and every
      space separator) and LineTerminator (LF, CR, LS, PS). */
  predicate IsWhiteSpace(c: char) {
    || c == '\t' || c == '\n' || c == '\U{B}' || c == '\U{C}' || c == '\r'
    || c == ' ' || c == '\U{A0}' || c == '\U{1680}'
    || ('\U{2000}' <= c <= '\U{200A}')
    || c == '\U{2028}' || c == '\U{2029}' || c == '\U{202F}' || c == '\U{205F}'
    || c == '\U{3000}' || c == '\U{FEFF}'
  }

  /** Drops leading white space. */
  function TrimStart(s: string): (r: string)
    ensures |r| <= |s| && r == s[|s| - |r|..]
    ensures r == [] || !IsWhiteSpace(r[0])
    ensures forall i :: 0 <= i < |s| - |r| ==> IsWhiteSpace(s[i])
  {
    if s != [] && IsWhiteSpace(s[0]) then
      var r := TrimStart(s[1..]);
      assert forall i :: 1 <= i < |s| - |r| ==> IsWhiteSpace(s[1..][i - 1]) && s[1..][i - 1] == s[i];
      r
    else s
  }

  /** Drops trailing white space. */
  function TrimEnd(s: string): (r: string)
    ensures |r| <= |s| && r == s[..|r|]
    ensures r == [] || !IsWhiteSpace(r[|r| - 1])
    ensures forall i :: |r| <= i < |s| ==> IsWhiteSpace(s[i])
  {
    if s != [] && IsWhiteSpace(s[|s| - 1]) then
      var r := TrimEnd(s[..|s| - 1]);
      assert forall i :: |r| <= i < |s| - 1 ==> IsWhiteSpace(s[..|s| - 1][i]) && s[..|s| - 1][i] == s[i];
      r
    else s
  }

  /** The value of a character as a digit in radix up to 36; 36 when it is no digit. */
  function DigitValue(c: char): (d: nat)
    ensures d <= 36
  {
    if '0' <= c <= '9' then c as int - '0' as int
    else if 'a' <= c <= 'z' then c as int - 'a' as int + 10
    else if 'A' <= c <= 'Z' then c as int - 'A' as int + 10
    else 36
  }

  predicate IsDigitIn(c: char, radix: nat) {
    DigitValue(c) < radix
  }

  predicate AllDigitsIn(s: string, radix: nat) {
    forall i :: 0 <= i < |s| ==> IsDigitIn(s[i], radix)
  }

  /** The longest prefix of `s` made of digits of `radix`. */
  function DigitPrefix(s: string, radix: nat): (r: string)
    ensures |r| <= |s| && r == s[..|r|]
    ensures AllDigitsIn(r, radix)
    ensures |r| < |s| ==> !IsDigitIn(s[|r|], radix)
  {
    if s != [] && IsDigitIn(s[0], radix) then [s[0]] + DigitPrefix(s[1..], radix) else []
  }

  /** The number a string of digits denotes in `radix`, most significant first. */
  function DigitsValue(d: string, radix: nat): nat
    requires AllDigitsIn(d, radix)
  {
    if d == [] then 0 else DigitsValue(d[..|d| - 1], radix) * radix + DigitValue(d[|d| - 1])
  }

  /** The number denoted by the leading digits of `s` in `radix`; None when
      `s` does not start with such a digit. */
  function LeadingNumber(s: string, radix: nat): Option<nat> {
    var digits := DigitPrefix(s, radix);
    if digits == [] then None else Some(DigitsValue(digits, radix))
  }

  /** The digits after an optional sign: a `0x`/`0X` prefix selects radix 16. */
  function ParseUnsigned(s: string): Option<nat> {
    if |s| >= 2 && s[0] == '0' && (s[1] == 'x' || s[1] == 'X') then LeadingNumber(s[2..], 16)
    else LeadingNumber(s, 10)
  }

  /** An optional sign, then ParseUnsigned. */
  function ParseSigned(s: string): Option<int> {
    if s != [] && s[0] == '-' then
      match ParseUnsigned(s[1..])
      case None => None
      case Some(m) => var n: int := m; Some(-n)
    else if s != [] && s[0] == '+' then
      match ParseUnsigned(s[1..])
      case None => None
      case Some(m) => Some(m)
    else
      match ParseUnsigned(s)
      case None => None
      case Some(m) => Some(m)
  }

  /** `parseInt(s)` with no radix argument: leading white space, an optional sign,
      an optional `0x`/`0X` prefix selecting radix 16, then the longest run of
      digits; None stands for NaN. */
  function ParseInt(input: string): Option<int> {
    ParseSigned(TrimStart(input))
  }

  function DigitChar(d: nat): (c: char)
    requires d < 10
    ensures DigitValue(c) == d
  {
    ('0' as int + d) as char
  }

  /** Decimal notation of a natural number, without leading zeros. */
  function NatToString(n: nat): string {
    if n < 10 then [DigitChar(n)] else NatToString(n / 10) + [DigitChar(n % 10)]
  }

  /** Number::toString for an integer. */
  function IntToString(n: int): string {
    if n < 0 then "-" + NatToString(-n) else NatToString(n)
  }

  /** ToString. */
  function ToString(v: JsValue): string {
    match v
    case Undefined => "undefined"
    case Str(s) => s
    case Num(n) => IntToString(n)
    case NaN => "NaN"
  }

  /** The value of `parseInt(v)`. */
  function ParseIntValue(v: JsValue): (r: JsValue)
    ensures r.Num? || r.NaN?
  {
    match ParseInt(ToString(v))
    case None => NaN
    case Some(n) => Num(n)
  }

  function RadixOfPrefix(c: char): nat {
    if c == 'x' || c == 'X' then 16 else if c == 'o' || c == 'O' then 8
    else if c == 'b' || c == 'B' then 2 else 0
  }

  /** A non-decimal integer literal `0x…`, `0o…` or `0b…`; None when `t` is not one. */
  function NonDecimalLiteral(t: string): Option<nat> {
    if |t| > 2 && t[0] == '0' && RadixOfPrefix(t[1]) != 0 && AllDigitsIn(t[2..], RadixOfPrefix(t[1]))
    then Some(DigitsValue(t[2..], RadixOfPrefix(t[1])))
    else None
  }

  /** An optionally signed run of decimal digits; None when `t` is not one. */
  function SignedDecimalLiteral(t: string): Option<int> {
    var body := if t != [] && (t[0] == '+' || t[0] == '-') then t[1..] else t;
    if body == [] || !AllDigitsIn(body, 10) then None
    else if t[0] == '-' then var m: int := DigitsValue(body, 10); Some(-m)
    else Some(DigitsValue(body, 10))
  }

  /** StringToNumber restricted to integer literals: white space around, then
      empty (0), a `0x`/`0o`/`0b` literal, or an optionally signed run of
      decimal digits; anything else reads as NaN. */
  function StringToNumber(input: string): (r: JsValue)
    ensures r.Num? || r.NaN?
  {
    var t := TrimEnd(TrimStart(input));
    if t == [] then Num(0)
    else if |t| > 2 && t[0] == '0' && RadixOfPrefix(t[1]) != 0 then
      match NonDecimalLiteral(t)
      case None => NaN
      case Some(m) => Num(m)
    else
      match SignedDecimalLiteral(t)
      case None => NaN
      case Some(n) => Num(n)
  }

  /** ToNumber, as applied by the binary `-` operator. */
  function ToNumber(v: JsValue): (r: JsValue)
    ensures r.Num? || r.NaN?
  {
    match v
    case Undefined => NaN
    case Str(s) => StringToNumber(s)
    case Num(_) => v
    case NaN => NaN
  }

  /** `v + k` where v is already a number (Num or NaN). */
  function AddNumber(v: JsValue, k: int): (r: JsValue)
    ensures r.Num? || r.NaN?
  {
    if v.Num? then Num(v.n + k) else NaN
  }

  lemma {:induction false} NatToStringDigits(n: nat)
    ensures var s := NatToString(n);
      && s != []
      && AllDigitsIn(s, 10)
      && DigitsValue(s, 10) == n
      && (s[0] == '0' ==> s == "0")
  {
    var s := NatToString(n);
    if n >= 10 {
      var p := NatToString(n / 10);
      NatToStringDigits(n / 10);
      assert s == p + [DigitChar(n % 10)];
      assert s[..|s| - 1] == p;
      assert s[0] == p[0];
    }
  }

  lemma DigitPrefixOfDigits(s: string, radix: nat)
    requires AllDigitsIn(s, radix)
    ensures DigitPrefix(s, radix) == s
  {
  }

  /** The decimal notation of a natural number reads back, unsigned. */
  lemma ParseUnsignedOfNatToString(m: nat)
    ensures ParseUnsigned(NatToString(m)) == Some(m)
  {
    var digits := NatToString(m);
    NatToStringDigits(m);
    DigitPrefixOfDigits(digits, 10);
    if |digits| >= 2 {
      assert digits[0] != '0';
    }
  }

  /** Decimal notation starts with a sign or a digit, never white space. */
  lemma IntToStringNoLeadingSpace(n: int)
    ensures TrimStart(IntToString(n)) == IntToString(n)
  {
    var m: nat := if n < 0 then -n else n;
    var digits := NatToString(m);
    NatToStringDigits(m);
    DecimalDigitNotWhiteSpace(digits[0]);
    var s := IntToString(n);
    assert s[0] == '-' || s[0] == digits[0];
  }

  lemma ParseSignedOfNatToString(m: nat)
    ensures ParseSigned(NatToString(m)) == Some(m)
  {
    var digits := NatToString(m);
    NatToStringDigits(m);
    DecimalDigitNotWhiteSpace(digits[0]);
    ParseUnsignedOfNatToString(m);
  }

  lemma ParseSignedOfNegative(m: nat)
    ensures var n: int := m; ParseSigned("-" + NatToString(m)) == Some(-n)
  {
    var s := "-" + NatToString(m);
    assert s[1..] == NatToString(m);
    ParseUnsignedOfNatToString(m);
  }

  /** parseInt reads back the decimal notation of every integer. */
  lemma ParseIntOfIntToString(n: int)
    ensures ParseInt(IntToString(n)) == Some(n)
  {
    IntToStringNoLeadingSpace(n);
    if n < 0 {
      ParseSignedOfNegative(-n);
    } else {
      ParseSignedOfNatToString(n);
    }
  }

  lemma DecimalDigitNotWhiteSpace(c: char)
    requires IsDigitIn(c, 10)
    ensures !IsWhiteSpace(c) && c != '-' && c != '+'
  {
    assert '0' <= c <= '9';
  }

  /** Decimal notation ends with a digit, never white space. */
  lemma IntToStringNoTrailingSpace(n: int)
    ensures TrimEnd(IntToString(n)) == IntToString(n)
  {
    var m: nat := if n < 0 then -n else n;
    var digits := NatToString(m);
    NatToStringDigits(m);
    DecimalDigitNotWhiteSpace(digits[|digits| - 1]);
    var s := IntToString(n);
    assert s[|s| - 1] == digits[|digits| - 1];
  }

  /** Decimal notation carries no surrounding white space. */
  lemma IntToStringTrimmed(n: int)
    ensures TrimEnd(TrimStart(IntToString(n))) == IntToString(n)
  {
    IntToStringNoLeadingSpace(n);
    IntToStringNoTrailingSpace(n);
  }

  lemma SignedDecimalLiteralOfIntToString(n: int)
    ensures SignedDecimalLiteral(IntToString(n)) == Some(n)
  {
    var m: nat := if n < 0 then -n else n;
    var digits := NatToString(m);
    NatToStringDigits(m);
    var s := IntToString(n);
    if n < 0 {
      assert s == "-" + digits;
      assert s[1..] == digits;
    } else {
      assert s[0] != '+' && s[0] != '-';
    }
  }

  /** The `-` coercion also reads back the decimal notation of every integer. */
  lemma StringToNumberOfIntToString(n: int)
    ensures StringToNumber(IntToString(n)) == Num(n)
  {
    var m: nat := if n < 0 then -n else n;
    NatToStringDigits(m);
    IntToStringTrimmed(n);
    SignedDecimalLiteralOfIntToString(n);
    var s := IntToString(n);
    assert |s| > 2 ==> s[0] != '0';
  }

  /** `parseInt("NaN")` is NaN. */
  lemma ParseIntValueOfNaN()
    ensures ParseIntValue(NaN) == NaN
  {
    var s := "NaN";
    assert ToString(NaN) == s;
    assert !IsWhiteSpace(s[0]) && TrimStart(s) == s;
    assert !IsDigitIn(s[0], 10) && DigitPrefix(s, 10) == [];
  }

  /** `parseInt` of a number is that number. */
  lemma ParseIntValueOfNum(n: int)
    ensures ParseIntValue(Num(n)) == Num(n)
  {
    ParseIntOfIntToString(n);
  }

  /** Applying parseInt a second time changes nothing: a number goes back to
      itself and NaN stays NaN. */
  lemma ParseIntValueIdempotent(v: JsValue)
    ensures ParseIntValue(ParseIntValue(v)) == ParseIntValue(v)
  {
    var r := ParseIntValue(v);
    if r.NaN? {
      ParseIntValueOfNaN();
    } else {
      ParseIntValueOfNum(r.n);
    }
  }

  /** `parseInt('1')` is 1. */
  lemma ParseIntValueOfOne()
    ensures ParseIntValue(Str("1")) == Num(1)
  {
    assert DigitChar(1) == '1';
    assert IntToString(1) == "1";
    ParseIntOfIntToString(1);
  }
}
