/** The number coercions of the JavaScript runtime that the shop's code uses:
    `parseInt` (no radix argument), `parseFloat`, `Number(...)` on a form
    input, truthiness, and `String(number)`. Numbers are exact decimals; the
    binary rounding of IEEE doubles is not modelled. */
module JsNumber {
  import opened JsString

  /** A JavaScript number: NaN, one of the infinities, or the finite decimal
      `units * 10^exp` (negative zero is `Fin(0, _)`). */
  datatype Float = NaN | PosInf | NegInf | Fin(units: int, exp: int)

  function Pow10(n: nat): (r: nat)
    ensures r >= 1
  {
    if n == 0 then 1 else 10 * Pow10(n - 1)
  }

  /** The mathematical value of a finite number. */
  function Value(x: Float): real
    requires x.Fin?
  {
    if x.exp >= 0 then (x.units * Pow10(x.exp)) as real
    else x.units as real / Pow10(-x.exp) as real
  }

  /** JavaScript truthiness of a number: NaN and zero are falsy. */
  predicate Truthy(x: Float) {
    !x.NaN? && !(x.Fin? && x.units == 0)
  }

  /** `x > 0` for a JavaScript number: +Infinity, or a finite value with positive units. */
  predicate IsPositive(x: Float) {
    x.PosInf? || (x.Fin? && x.units > 0)
  }

  lemma PositiveIsTruthy(x: Float)
    ensures IsPositive(x) ==> Truthy(x)
    ensures x.Fin? ==> (IsPositive(x) <==> Value(x) > 0.0)
  {
    if x.Fin? && x.exp < 0 {
      var d := Pow10(-x.exp) as real;
      assert Value(x) == x.units as real / d;
      if x.units > 0 { assert x.units as real / d > 0.0; }
      if x.units <= 0 { assert x.units as real / d <= 0.0; }
    }
  }

  // ---------------------------------------------------------------- digits

  /** The value of a digit character in base 10 or 16, or -1. */
  function DigitOf(c: char): int {
    if '0' <= c <= '9' then c as int - '0' as int
    else if 'a' <= c <= 'f' then c as int - 'a' as int + 10
    else if 'A' <= c <= 'F' then c as int - 'A' as int + 10
    else -1
  }

  predicate IsRadixDigit(c: char, radix: nat) {
    0 <= DigitOf(c) < radix
  }

  /** Number of leading characters of `s` that are digits in `radix`. */
  function LeadingDigits(s: string, radix: nat): (k: nat)
    ensures k <= |s|
    ensures forall i :: 0 <= i < k ==> IsRadixDigit(s[i], radix)
    ensures k < |s| ==> !IsRadixDigit(s[k], radix)
  {
    if s != [] && IsRadixDigit(s[0], radix) then 1 + LeadingDigits(s[1..], radix) else 0
  }

  /** The value of a string of digits in `radix`, most significant first. */
  function DigitsValue(ds: string, radix: nat): nat
    requires forall i :: 0 <= i < |ds| ==> IsRadixDigit(ds[i], radix)
  {
    if ds == [] then 0
    else
      var init := ds[..|ds| - 1];
      LastDigit(ds, init, radix);
      var high := DigitsValue(init, radix);
      ShiftedDigit(high, radix, DigitOf(ds[|ds| - 1]));
      high * radix + DigitOf(ds[|ds| - 1])
  }

  lemma ShiftedDigit(high: nat, radix: nat, d: int)
    requires 0 <= d
    ensures high * radix + d >= 0
  {
  }

  /** A string of digits is its leading digits and a last digit. */
  lemma LastDigit(ds: string, init: string, radix: nat)
    requires ds != [] && init == ds[..|ds| - 1]
    requires forall i :: 0 <= i < |ds| ==> IsRadixDigit(ds[i], radix)
    ensures forall i :: 0 <= i < |init| ==> IsRadixDigit(init[i], radix)
    ensures 0 <= DigitOf(ds[|ds| - 1]) < radix
  {
    assert IsRadixDigit(ds[|ds| - 1], radix);
  }

  // ---------------------------------------------------------------- parseInt

  /** Length of an optional leading `-` or `+`. */
  function SignLength(t: string): (k: nat)
    ensures k <= |t|
  {
    if t != [] && (t[0] == '-' || t[0] == '+') then 1 else 0
  }

  /** Whether `u` starts with the hexadecimal prefix `0x` or `0X`. */
  predicate HasHexPrefix(u: string) {
    |u| >= 2 && u[0] == '0' && (u[1] == 'x' || u[1] == 'X')
  }

  /** The unsigned part of `parseInt`: a hexadecimal prefix selects base 16,
      then the longest digit run is read; none at all is NaN (`None`). */
  function UnsignedInt(u: string): Option<nat> {
    var radix := if HasHexPrefix(u) then 16 else 10;
    var v := if HasHexPrefix(u) then u[2..] else u;
    var n := LeadingDigits(v, radix);
    if n == 0 then None else Some(DigitsValue(v[..n], radix))
  }

  /** `parseInt(s)` with no radix: leading white space is skipped, then an
      optional sign, then a `0x`/`0X` prefix selects base 16; the longest run
      of digits that follows is read, and with no digit the result is NaN
      (`None`). Trailing characters are ignored. */
  function ParseInt(s: string): Option<int> {
    var t := TrimStart(s);
    var neg := t != [] && t[0] == '-';
    match UnsignedInt(t[SignLength(t)..])
    case None => None
    case Some(m) => var v: int := m; Some(if neg then -v else v)
  }

  /** The decimal digits of `NatToString(n)` read back give `n`. */
  lemma {:induction false} DigitsOfNatToString(n: nat)
    ensures forall i :: 0 <= i < |NatToString(n)| ==> IsRadixDigit(NatToString(n)[i], 10)
    ensures DigitsValue(NatToString(n), 10) == n
  {
    var r := NatToString(n);
    if n >= 10 {
      DigitsOfNatToString(n / 10);
      assert r[..|r| - 1] == NatToString(n / 10);
    }
  }

  /** A string that starts with a digit is not changed by `trimStart` and has no sign. */
  lemma DigitStart(s: string)
    requires s != [] && IsDigit(s[0])
    ensures TrimStart(s) == s && SignLength(s) == 0 && s[0..] == s
  {
  }

  /** `parseInt` reads back what `String(n)` prints, and stops at the first
      character that cannot continue the number. */
  lemma ParseIntOfNatToString(n: nat, rest: string)
    requires rest == [] || (!IsDigit(rest[0]) && rest[0] != 'x' && rest[0] != 'X')
    ensures ParseInt(NatToString(n) + rest) == Some(n)
  {
    var r := NatToString(n);
    var s := r + rest;
    DigitsOfNatToString(n);
    assert s[0] == r[0];
    DigitStart(s);
    assert !HasHexPrefix(s) by {
      if |r| >= 2 { assert s[1] == r[1]; } else if rest != [] { assert s[1] == rest[0]; }
    }
    LeadingDigitsOfPrefix(r, rest, 10);
    assert s[..|r|] == r;
    assert UnsignedInt(s) == Some(n);
  }

  /** The digit run of `ds + rest` is `ds` when `rest` does not continue it. */
  lemma {:induction false} LeadingDigitsOfPrefix(ds: string, rest: string, radix: nat)
    requires forall i :: 0 <= i < |ds| ==> IsRadixDigit(ds[i], radix)
    requires rest == [] || !IsRadixDigit(rest[0], radix)
    ensures LeadingDigits(ds + rest, radix) == |ds|
  {
    if ds != [] {
      assert (ds + rest)[1..] == ds[1..] + rest;
      LeadingDigitsOfPrefix(ds[1..], rest, radix);
    }
  }

  // ---------------------------------------------------------------- parseFloat

  /** The mantissa at the start of `u`: digits, optionally a point and more
      digits. Gives (all its digits, how many follow the point, characters
      used); (``, 0, 0) when it holds no digit. */
  function Mantissa(u: string): (r: (string, nat, nat))
    ensures r.2 <= |u| && r.1 <= |r.0|
    ensures forall i :: 0 <= i < |r.0| ==> IsRadixDigit(r.0[i], 10)
    ensures r.2 == 0 <==> r.0 == []
  {
    var a := LeadingDigits(u, 10);
    if a < |u| && u[a] == '.' then
      var b := LeadingDigits(u[a + 1..], 10);
      if a + b == 0 then ("", 0, 0)
      else
        var ds := u[..a] + u[a + 1..a + 1 + b];
        assert forall i :: 0 <= i < |ds| ==> ds[i] == if i < a then u[i] else u[a + 1..][i - a];
        (ds, b, a + 1 + b)
    else (u[..a], 0, a)
  }

  /** An unsigned StrDecimalLiteral at the start of `u`: `Infinity`, or a
      mantissa and an optional exponent. Gives (number, characters used), and
      (NaN, 0) when there is none. */
  function UnsignedDecimal(u: string): (r: (Float, nat))
    ensures r.1 <= |u|
    ensures r.0.NaN? <==> r.1 == 0
  {
    if StartsWith(u, "Infinity") then (PosInf, 8)
    else
      var mt := Mantissa(u);
      if mt.2 == 0 then (NaN, 0)
      else
        var e := ExponentPart(u[mt.2..]);
        (Fin(DigitsValue(mt.0, 10), e.0 - mt.1), mt.2 + e.1)
  }

  /** Unary minus. */
  function Negate(x: Float): Float {
    match x
    case NaN => NaN
    case PosInf => NegInf
    case NegInf => PosInf
    case Fin(u, e) => Fin(-u, e)
  }

  /** The longest prefix of `t` (which starts after any white space) that is an
      ECMAScript StrDecimalLiteral, as the pair (number, characters used); a
      prefix that holds no digit gives (NaN, 0). */
  function DecimalPrefix(t: string): (r: (Float, nat))
    ensures r.1 <= |t|
    ensures r.0.NaN? <==> r.1 == 0
  {
    if t != [] && (t[0] == '-' || t[0] == '+') then
      var p := UnsignedDecimal(t[1..]);
      if p.1 == 0 then (NaN, 0) else (if t[0] == '-' then Negate(p.0) else p.0, 1 + p.1)
    else UnsignedDecimal(t)
  }

  /** An exponent part `e`/`E`, optional sign, digits, at the start of `s`:
      the pair (exponent, characters used), (0, 0) when there is none. */
  function ExponentPart(s: string): (r: (int, nat))
    ensures r.1 <= |s|
  {
    if s == [] || (s[0] != 'e' && s[0] != 'E') then (0, 0)
    else
      var signLen := if |s| > 1 && (s[1] == '-' || s[1] == '+') then 1 else 0;
      var ds := s[1 + signLen..];
      var c := LeadingDigits(ds, 10);
      if c == 0 then (0, 0)
      else
        var v: int := DigitsValue(ds[..c], 10);
        (if signLen == 1 && s[1] == '-' then -v else v, 1 + signLen + c)
  }

  /** `parseFloat(s)`: the longest decimal-literal prefix after leading white
      space; NaN when there is none. */
  function ParseFloat(s: string): Float {
    DecimalPrefix(TrimStart(s)).0
  }

  /** `Number(s)` on the text of a form input: white space around it is
      ignored, the empty string is 0, and anything that is not one whole
      decimal literal is NaN. */
  function NumberOf(s: string): Float {
    var t := Trim(s);
    if t == [] then Fin(0, 0)
    else
      var p := DecimalPrefix(t);
      if p.1 == |t| then p.0 else NaN
  }

  /** The mantissa of a string of digits is the whole string. */
  lemma MantissaOfDigits(r: string)
    requires r != [] && forall i :: 0 <= i < |r| ==> IsRadixDigit(r[i], 10)
    ensures Mantissa(r) == (r, 0, |r|)
  {
    LeadingDigitsOfPrefix(r, [], 10);
    assert r + [] == r;
  }

  /** A string that starts with a digit does not start with `Infinity`. */
  lemma NotInfinity(r: string)
    requires r != [] && IsRadixDigit(r[0], 10)
    ensures !StartsWith(r, "Infinity")
  {
    if |r| >= 8 {
      assert r[..8][0] == r[0];
    }
  }

  /** An unsigned literal made of digits only is read whole. */
  lemma UnsignedDecimalOfDigits(r: string)
    requires r != [] && forall i :: 0 <= i < |r| ==> IsRadixDigit(r[i], 10)
    ensures UnsignedDecimal(r) == (Fin(DigitsValue(r, 10), 0), |r|)
  {
    NotInfinity(r);
    MantissaOfDigits(r);
    assert ExponentPart(r[|r|..]) == (0, 0) by {
      assert r[|r|..] == [];
    }
  }

  /** A decimal literal made of digits only is read whole. */
  lemma DecimalPrefixOfDigits(r: string)
    requires r != [] && forall i :: 0 <= i < |r| ==> IsRadixDigit(r[i], 10)
    ensures DecimalPrefix(r) == (Fin(DigitsValue(r, 10), 0), |r|)
  {
    assert IsRadixDigit(r[0], 10);
    assert r[0] != '-' && r[0] != '+';
    UnsignedDecimalOfDigits(r);
  }

  /** `parseFloat` and `Number` read back what `String(n)` prints for a
      natural number. */
  lemma ParseFloatOfNatToString(n: nat)
    ensures ParseFloat(NatToString(n)) == Fin(n, 0)
    ensures NumberOf(NatToString(n)) == Fin(n, 0)
  {
    var r := NatToString(n);
    DigitsOfNatToString(n);
    DigitsTrim(r);
    DecimalPrefixOfDigits(r);
  }

  /** White space trimming leaves a string of digits alone. */
  lemma DigitsTrim(r: string)
    requires r != [] && forall i :: 0 <= i < |r| ==> IsDigit(r[i])
    ensures TrimStart(r) == r && Trim(r) == r
  {
    assert !IsSpace(r[0]) && !IsSpace(r[|r| - 1]);
    NoSpaceTrim(r);
    assert r[0..] == r;
  }

  // ---------------------------------------------------------------- String(n)

  /** The shortest form of a finite decimal: no trailing zero digit in `units`. */
  function Normalize(units: int, exp: int): (r: (int, int))
    ensures r.0 == 0 ==> units == 0
    ensures (r.0 > 0) <==> (units > 0)
    decreases if units < 0 then -units else units
  {
    if units != 0 && units % 10 == 0 then Normalize(units / 10, exp + 1)
    else if units == 0 then (0, 0)
    else (units, exp)
  }

  function Zeros(n: nat): (r: string)
    ensures |r| == n
  {
    if n == 0 then "" else "0" + Zeros(n - 1)
  }

  /** `String(x)` for a number in plain (non-exponential) notation. */
  function NumberToString(x: Float): (r: string)
    ensures r != []
  {
    match x
    case NaN => "NaN"
    case PosInf => "Infinity"
    case NegInf => "-Infinity"
    case Fin(u0, e0) =>
      var (u, e) := Normalize(u0, e0);
      var digits := NatToString(if u < 0 then -u else u);
      var body :=
        if e >= 0 then digits + Zeros(e)
        else if |digits| > -e then digits[..|digits| + e] + "." + digits[|digits| + e..]
        else "0." + Zeros(-e - |digits|) + digits;
      (if u < 0 then "-" else "") + body
  }

  /** A string that does not start with white space is left alone by `trimStart`. */
  lemma NoLeadingSpace(s: string)
    requires s != [] && !IsSpace(s[0])
    ensures TrimStart(s) == s
  {
  }

  /** `parseInt` takes the leading digits and ignores the rest. */
  lemma ParseIntPrefixExample()
    ensures ParseInt("12abc") == Some(12)
  {
    assert NatToString(12) == "12";
    assert "12abc" == NatToString(12) + "abc";
    ParseIntOfNatToString(12, "abc");
  }

  /** `parseInt` reads a `0x` prefix as hexadecimal. */
  lemma ParseIntHexExample()
    ensures ParseInt("0x1A") == Some(26)
  {
    NoLeadingSpace("0x1A");
    assert SignLength("0x1A") == 0 && "0x1A"[0..] == "0x1A";
    assert HasHexPrefix("0x1A") && "0x1A"[2..] == "1A";
    assert LeadingDigits("1A", 16) == 2;
    assert "1A"[..2] == "1A" && "1A"[..1] == "1";
    assert DigitsValue("1", 16) == 1;
    assert DigitsValue("1A", 16) == 26;
    assert UnsignedInt("0x1A") == Some(26);
  }

  /** `parseInt` of a word is NaN. */
  lemma ParseIntWordExample()
    ensures ParseInt("Jazz") == None
  {
    NoLeadingSpace("Jazz");
    assert SignLength("Jazz") == 0 && "Jazz"[0..] == "Jazz";
    assert !HasHexPrefix("Jazz");
    assert LeadingDigits("Jazz", 10) == 0;
    assert UnsignedInt("Jazz") == None;
  }

  /** `parseFloat` keeps the sign of a negative number and gives NaN for a word. */
  lemma ParseFloatExamples()
    ensures ParseFloat("-5") == Fin(-5, 0)
    ensures ParseFloat("abc") == NaN
  {
    NoLeadingSpace("-5");
    assert "-5"[1..] == NatToString(5);
    DigitsOfNatToString(5);
    DecimalPrefixOfDigits("5");
    NoLeadingSpace("abc");
    assert !StartsWith("abc", "Infinity");
    assert LeadingDigits("abc", 10) == 0;
  }

  /** JavaScript converts `null` to the text `null` before parsing it, and
      that text is not a number. */
  lemma NullIsNaN()
    ensures ParseInt("null") == None
    ensures ParseFloat("null") == NaN
  {
    NoLeadingSpace("null");
    assert SignLength("null") == 0 && "null"[0..] == "null";
    assert !HasHexPrefix("null");
    assert LeadingDigits("null", 10) == 0;
    assert !StartsWith("null", "Infinity");
  }
}
