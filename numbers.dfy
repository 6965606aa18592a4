/** JavaScript's `Number(string)` conversion (ECMA-262 StringToNumber), used by
    the draft validator through `isNaN(Number(x))` and `Number(x) < 1`.
    Values are exact rationals; the rounding to binary64 is not modelled. */
module JsNumbers {
  import opened Text
  import opened Optional

  datatype JsNumber = NaN | Finite(r: real) | Infinite(positive: bool)

  /** `isNaN(n)` */
  predicate IsNaN(n: JsNumber) {
    n.NaN?
  }

  /** `n < 1` (false for NaN, as every comparison with NaN is). */
  predicate LessThanOne(n: JsNumber) {
    match n
    case NaN => false
    case Finite(r) => r < 1.0
    case Infinite(positive) => !positive
  }

  /** Value of a digit in radix 2, 8 or 16; -1 when `c` is not such a digit. */
  function RadixDigit(c: char, radix: nat): int
    requires radix == 2 || radix == 8 || radix == 16
  {
    var d :=
      if '0' <= c <= '9' then (c as int) - ('0' as int)
      else if 'a' <= c <= 'f' then (c as int) - ('a' as int) + 10
      else if 'A' <= c <= 'F' then (c as int) - ('A' as int) + 10
      else -1;
    if d < radix then d else -1
  }

  predicate AllRadixDigits(s: string, radix: nat)
    requires radix == 2 || radix == 8 || radix == 16
  {
    forall i :: 0 <= i < |s| ==> RadixDigit(s[i], radix) >= 0
  }

  function RadixValue(s: string, radix: nat): nat
    requires radix == 2 || radix == 8 || radix == 16
    requires AllRadixDigits(s, radix)
  {
    if s == [] then 0 else RadixValue(s[..|s| - 1], radix) * radix + RadixDigit(s[|s| - 1], radix)
  }

  function Pow10(k: int): (p: real)
    ensures p > 0.0
    decreases if k < 0 then -k else k
  {
    if k == 0 then 1.0
    else if k > 0 then 10.0 * Pow10(k - 1)
    else Pow10(k + 1) / 10.0
  }

  /** Position of the first 'e' or 'E', or `|s|`. */
  function ExponentMark(s: string): (i: nat)
    ensures i <= |s|
    ensures i < |s| ==> s[i] == 'e' || s[i] == 'E'
    ensures forall j :: 0 <= j < i ==> s[j] != 'e' && s[j] != 'E'
  {
    if s == [] then 0 else if s[0] == 'e' || s[0] == 'E' then 0 else 1 + ExponentMark(s[1..])
  }

  /** The signed integer after an exponent mark: `[+-]?digits`, at least one digit. */
  function ParseExponent(s: string): Option<int> {
    var neg := s != [] && s[0] == '-';
    var digits := if s != [] && (s[0] == '+' || s[0] == '-') then s[1..] else s;
    if digits == [] || !AllDigits(digits) then None
    else
      var magnitude: int := DigitsValue(digits);
      Some(if neg then -magnitude else magnitude)
  }

  /** An unsigned StrDecimalLiteral: `Infinity`, or digits with an optional
      fraction and an optional exponent, with at least one digit in total. */
  function ParseUnsignedDecimal(u: string): JsNumber {
    if u == "Infinity" then Infinite(true)
    else
      var e := ExponentMark(u);
      var mantissa := u[..e];
      var dot := IndexOf(mantissa, '.');
      var whole := mantissa[..dot];
      var fraction := if dot < |mantissa| then mantissa[dot + 1..] else [];
      if !AllDigits(whole) || !AllDigits(fraction) || |whole| + |fraction| == 0 then NaN
      else
        var exponent := if e == |u| then Some(0) else ParseExponent(u[e + 1..]);
        match exponent
        case None => NaN
        case Some(x) =>
          assert AllDigits(whole + fraction);
          Finite(DigitsValue(whole + fraction) as real * Pow10(x - |fraction|))
  }

  function Negate(n: JsNumber): JsNumber {
    match n
    case NaN => NaN
    case Finite(r) => Finite(-r)
    case Infinite(positive) => Infinite(!positive)
  }

  /** A StrDecimalLiteral, with its optional sign. */
  function ParseDecimal(t: string): JsNumber {
    if t != [] && t[0] == '-' then Negate(ParseUnsignedDecimal(t[1..]))
    else if t != [] && t[0] == '+' then ParseUnsignedDecimal(t[1..])
    else ParseUnsignedDecimal(t)
  }

  /** `0x…`, `0o…` or `0b…` (either case, no sign); `None` when `t` has no such prefix. */
  function RadixPrefix(t: string): Option<nat> {
    if |t| >= 2 && t[0] == '0' then
      if t[1] == 'x' || t[1] == 'X' then Some(16)
      else if t[1] == 'o' || t[1] == 'O' then Some(8)
      else if t[1] == 'b' || t[1] == 'B' then Some(2)
      else None
    else None
  }

  /** `Number(s)` for a string `s`. */
  function ToNumber(s: string): JsNumber {
    var t := Trim(s);
    if t == [] then Finite(0.0)
    else match RadixPrefix(t)
      case Some(radix) =>
        assert radix == 2 || radix == 8 || radix == 16;
        if |t| > 2 && AllRadixDigits(t[2..], radix) then Finite(RadixValue(t[2..], radix) as real) else NaN
      case None => ParseDecimal(t)
  }

  /** `Number("")` and `Number("  ")` are 0, not NaN. */
  lemma BlankIsZero(s: string)
    requires AllWhitespace(s)
    ensures ToNumber(s) == Finite(0.0)
  {
    TrimEmptyIffBlank(s);
  }

  /** A string of decimal digits converts to the number it spells. */
  lemma {:induction false} DigitsToNumber(s: string)
    requires s != [] && AllDigits(s)
    requires |s| == 1 || s[0] != '0' || (s[1] != 'x' && s[1] != 'X' && s[1] != 'o' && s[1] != 'O' && s[1] != 'b' && s[1] != 'B')
    ensures ToNumber(s) == Finite(DigitsValue(s) as real)
  {
    TrimStartNoWhitespace(s);
    TrimEndNoWhitespace(s);
    assert Trim(s) == s;
    assert 'e' !in s && 'E' !in s && '.' !in s;
    assert s[..|s|] == s;
    assert s + [] == s;
  }

  lemma TrimStartNoWhitespace(s: string)
    requires s != [] && !IsWhitespace(s[0])
    ensures TrimStart(s) == s
  {
  }

  lemma TrimEndNoWhitespace(s: string)
    requires s != [] && !IsWhitespace(s[|s| - 1])
    ensures TrimEnd(s) == s
  {
  }

  /** `Number(n.toString())` is `n`. */
  lemma NatToStringToNumber(n: nat)
    ensures ToNumber(NatToString(n)) == Finite(n as real)
  {
    DigitsToNumber(NatToString(n));
  }
}
