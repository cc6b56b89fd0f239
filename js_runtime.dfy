/** The few JavaScript built-ins the token factory relies on, with the
    semantics the ECMAScript language specification gives them:
    strings as sequences of UTF-16 code units, the ToInt32 conversion that
    the bitwise operators apply, Number.prototype.toString(16) on a
    non-negative integer, String.prototype.padStart and slice, and parseInt
    without a radix. */
module JsRuntime {

  /** JavaScript's `null`-or-value. */
  datatype Option<+T> = None | Some(value: T)

  /** A UTF-16 code unit, what `charCodeAt` yields. */
  type CodeUnit = x: int | 0 <= x < 0x1_0000

  /** A JavaScript string: `length`, indexing, `slice` and `charCodeAt` all
      work on code units. */
  type JsString = seq<CodeUnit>

  /** A random hexadecimal digit, `Math.floor(Math.random() * 16)`. */
  type Nibble = x: int | 0 <= x < 16

  const TwoTo31: int := 0x8000_0000
  const TwoTo32: int := 0x1_0000_0000

  // ---------------------------------------------------------------------
  // Strings

  /** A string literal of the source whose characters all lie in the Basic
      Multilingual Plane, as code units. */
  function Units(s: string): (r: JsString)
    requires forall i :: 0 <= i < |s| ==> s[i] as int < 0x1_0000
    ensures |r| == |s| && forall i :: 0 <= i < |s| ==> r[i] == s[i] as int
  {
    seq(|s|, i requires 0 <= i < |s| => s[i] as int)
  }

  /** `s.slice(0, n)` for n >= 0. */
  function SliceTo(s: JsString, n: nat): (r: JsString)
    ensures |r| == if n <= |s| then n else |s|
    ensures r <= s
  {
    if n <= |s| then s[..n] else s
  }

  /** `s.slice(-k)` for k > 0: the last k code units, or all of s when it is
      shorter. */
  function SliceLast(s: JsString, k: nat): (r: JsString)
    ensures |r| == if k <= |s| then k else |s|
    ensures forall i :: 0 <= i < |r| ==> r[i] == s[|s| - |r| + i]
  {
    if k <= |s| then s[|s| - k..] else s
  }

  /** `c` repeated n times. */
  function Repeat(c: CodeUnit, n: nat): (r: JsString)
    ensures |r| == n
    ensures forall i :: 0 <= i < n ==> r[i] == c
  {
    if n == 0 then [] else [c] + Repeat(c, n - 1)
  }

  /** `s.padStart(len, fill)` with a one-unit fill string. */
  function PadStart(s: JsString, len: nat, fill: CodeUnit): (r: JsString)
    ensures |r| == if |s| < len then len else |s|
    ensures r[|r| - |s|..] == s
    ensures forall i :: 0 <= i < |r| - |s| ==> r[i] == fill
  {
    if |s| < len then Repeat(fill, len - |s|) + s else s
  }

  // ---------------------------------------------------------------------
  // 32-bit integers

  predicate IsInt32(x: int) {
    -TwoTo31 <= x < TwoTo31
  }

  /** ToInt32: the integer in [-2^31, 2^31) congruent to x modulo 2^32
      (x is a mathematical integer here; every value this model converts is
      exactly representable as a double). */
  function ToInt32(x: int): (r: int)
    ensures IsInt32(r)
    ensures (r - x) % TwoTo32 == 0
  {
    var m := x % TwoTo32;
    if m >= TwoTo31 then m - TwoTo32 else m
  }

  lemma MultipleOfModulus(d: int)
    requires d % TwoTo32 == 0
    ensures d == TwoTo32 * (d / TwoTo32)
  {
  }

  /** ToInt32 identifies congruent integers: it is a function of x modulo
      2^32, and the only 32-bit representative of its class. */
  lemma {:induction false} ToInt32Congruent(a: int, b: int)
    requires (a - b) % TwoTo32 == 0
    ensures ToInt32(a) == ToInt32(b)
  {
    var ra, rb := ToInt32(a), ToInt32(b);
    MultipleOfModulus(ra - a);
    MultipleOfModulus(a - b);
    MultipleOfModulus(b - rb);
    var k := (ra - a) / TwoTo32 + (a - b) / TwoTo32 + (b - rb) / TwoTo32;
    assert ra - rb == TwoTo32 * k;
  }

  /** ToInt32 leaves a 32-bit value alone. */
  lemma ToInt32OfInt32(x: int)
    requires IsInt32(x)
    ensures ToInt32(x) == x
  {
    var m := x % TwoTo32;
    if x >= 0 {
      assert m == x;
    } else {
      assert m == x + TwoTo32;
    }
  }

  /** `Math.abs` on integers. */
  function Abs(x: int): (r: nat)
    ensures r == x || r == -x
  {
    if x < 0 then -x else x
  }

  // ---------------------------------------------------------------------
  // Hexadecimal rendering

  /** The lower-case hexadecimal digit for d, as `toString(16)` writes it. */
  function HexDigit(d: Nibble): (u: CodeUnit)
    ensures IsLowerHex(u)
    ensures HexDigitValue(u) == d
  {
    if d < 10 then '0' as int + d else 'a' as int + (d - 10)
  }

  predicate IsLowerHex(u: CodeUnit) {
    '0' as int <= u <= '9' as int || 'a' as int <= u <= 'f' as int
  }

  predicate IsLowerHexString(s: JsString) {
    forall i :: 0 <= i < |s| ==> IsLowerHex(s[i])
  }

  /** The value of a hexadecimal digit (0 for anything else). */
  function HexDigitValue(u: CodeUnit): (d: Nibble)
  {
    if '0' as int <= u <= '9' as int then u - '0' as int
    else if 'a' as int <= u <= 'f' as int then u - 'a' as int + 10
    else if 'A' as int <= u <= 'F' as int then u - 'A' as int + 10
    else 0
  }

  /** The number a string of hexadecimal digits denotes. */
  function HexValue(s: JsString): nat
  {
    if s == [] then 0 else HexValue(s[..|s| - 1]) * 16 + HexDigitValue(s[|s| - 1])
  }

  /** `n.toString(16)` for a non-negative integer n: lower-case digits, no
      leading zero. */
  function ToHex(n: nat): (r: JsString)
    ensures |r| >= 1
    ensures IsLowerHexString(r)
    ensures |r| > 1 ==> r[0] != '0' as int
  {
    if n < 16 then [HexDigit(n)]
    else
      var r := ToHex(n / 16) + [HexDigit(n % 16)];
      assert r[0] == ToHex(n / 16)[0];
      r
  }

  /** Reading the rendering back gives the number: toString(16) is
      injective on non-negative integers. */
  lemma {:induction false} HexValueOfToHex(n: nat)
    ensures HexValue(ToHex(n)) == n
  {
    if n >= 16 {
      var r := ToHex(n);
      assert r[..|r| - 1] == ToHex(n / 16);
      HexValueOfToHex(n / 16);
    }
  }

  /** Powers of sixteen. */
  function Pow16(k: nat): (p: nat)
    ensures p >= 1
  {
    if k == 0 then 1 else 16 * Pow16(k - 1)
  }

  /** A number below 16^k needs at most k hexadecimal digits. */
  lemma {:induction false} ToHexLength(n: nat, k: nat)
    requires k >= 1 && n < Pow16(k)
    ensures |ToHex(n)| <= k
  {
    if n >= 16 {
      assert k >= 2;
      ToHexLength(n / 16, k - 1);
    }
  }

  /** Leading zeros do not change the value of a hexadecimal string. */
  lemma {:induction false} HexValueLeadingZeros(n: nat, s: JsString)
    ensures HexValue(Repeat('0' as int, n) + s) == HexValue(s)
  {
    if s == [] {
      assert Repeat('0' as int, n) + s == Repeat('0' as int, n);
      ZerosValue(n);
    } else {
      var t := Repeat('0' as int, n) + s;
      assert t[..|t| - 1] == Repeat('0' as int, n) + s[..|s| - 1];
      HexValueLeadingZeros(n, s[..|s| - 1]);
    }
  }

  lemma {:induction false} ZerosValue(n: nat)
    ensures HexValue(Repeat('0' as int, n)) == 0
  {
    if n > 0 {
      var z := Repeat('0' as int, n);
      assert z[..n - 1] == Repeat('0' as int, n - 1);
      ZerosValue(n - 1);
    }
  }

  // ---------------------------------------------------------------------
  // parseInt

  /** StrWhiteSpaceChar: the white space and line terminators that parseInt
      skips at the start of its argument. */
  predicate IsJsWhiteSpace(u: CodeUnit) {
    u == 0x09 || u == 0x0A || u == 0x0B || u == 0x0C || u == 0x0D || u == 0x20
    || u == 0xA0 || u == 0x1680 || 0x2000 <= u <= 0x200A || u == 0x2028 || u == 0x2029
    || u == 0x202F || u == 0x205F || u == 0x3000 || u == 0xFEFF
  }

  /** The input without its leading white space. */
  function TrimStart(s: JsString): (r: JsString)
    ensures |r| <= |s| && r == s[|s| - |r|..]
    ensures r == [] || !IsJsWhiteSpace(r[0])
    ensures forall i :: 0 <= i < |s| - |r| ==> IsJsWhiteSpace(s[i])
  {
    if s != [] && IsJsWhiteSpace(s[0]) then TrimStart(s[1..]) else s
  }

  predicate IsDigitIn(u: CodeUnit, radix: int) {
    if radix == 16 then
      '0' as int <= u <= '9' as int || 'a' as int <= u <= 'f' as int || 'A' as int <= u <= 'F' as int
    else
      '0' as int <= u <= '9' as int
  }

  /** The longest prefix of s made of digits of the radix. */
  function DigitPrefix(s: JsString, radix: int): (r: JsString)
    ensures r <= s
    ensures forall i :: 0 <= i < |r| ==> IsDigitIn(r[i], radix)
    ensures |r| < |s| ==> !IsDigitIn(s[|r|], radix)
  {
    if s != [] && IsDigitIn(s[0], radix) then [s[0]] + DigitPrefix(s[1..], radix) else []
  }

  /** The value of a string of digits in radix 10 or 16. */
  function DigitsValue(s: JsString, radix: int): nat
    requires radix == 10 || radix == 16
  {
    if s == [] then 0
    else DigitsValue(s[..|s| - 1], radix) * radix + HexDigitValue(s[|s| - 1])
  }

  /** `parseInt(s)` without a radix: skip leading white space, read one
      optional sign, then the magnitude; NaN (None) when there is no digit.
      The result is the exact integer (a double would round values above
      2^53). */
  function ParseInt(s: JsString): (r: Option<int>)
    ensures TrimStart(s) == [] ==> r == None
    ensures r.Some? && r.value < 0 ==> TrimStart(s)[0] == '-' as int
  {
    var t := TrimStart(s);
    if t != [] && t[0] == '-' as int then Negate(ParseMagnitude(t[1..]))
    else if t != [] && t[0] == '+' as int then ParseMagnitude(t[1..])
    else ParseMagnitude(t)
  }

  function Negate(m: Option<int>): Option<int> {
    if m.Some? then Some(-m.value) else None
  }

  /** A `0x`/`0X` prefix selects radix 16, anything else radix 10. */
  function ParseMagnitude(u: JsString): Option<int>
  {
    if |u| >= 2 && u[0] == '0' as int && (u[1] == 'x' as int || u[1] == 'X' as int)
    then ParseDigits(u[2..], 16)
    else ParseDigits(u, 10)
  }

  /** The value of the longest run of digits at the start of u. */
  function ParseDigits(u: JsString, radix: int): Option<int>
    requires radix == 10 || radix == 16
  {
    var digits := DigitPrefix(u, radix);
    if digits == [] then None else Some(DigitsValue(digits, radix))
  }

  /** Decimal rendering of a natural number (`String(n)`). */
  function Decimal(n: nat): (r: JsString)
    ensures |r| >= 1
    ensures forall i :: 0 <= i < |r| ==> IsDigitIn(r[i], 10)
    ensures |r| > 1 ==> r[0] != '0' as int
  {
    if n < 10 then ['0' as int + n]
    else
      var r := Decimal(n / 10) + ['0' as int + n % 10];
      assert r[0] == Decimal(n / 10)[0];
      r
  }

  lemma {:induction false} DecimalValue(n: nat)
    ensures DigitsValue(Decimal(n), 10) == n
  {
    if n >= 10 {
      var r := Decimal(n);
      assert r[..|r| - 1] == Decimal(n / 10);
      DecimalValue(n / 10);
    }
  }

  lemma DigitPrefixAll(s: JsString, radix: int)
    requires forall i :: 0 <= i < |s| ==> IsDigitIn(s[i], radix)
    ensures DigitPrefix(s, radix) == s
  {
  }

  /** Decimal digits without a radix prefix are read in radix 10. */
  lemma ParseMagnitudeOfDigits(d: JsString)
    requires d != [] && forall i :: 0 <= i < |d| ==> IsDigitIn(d[i], 10)
    ensures ParseMagnitude(d) == Some(DigitsValue(d, 10) as int)
  {
    assert !(|d| >= 2 && (d[1] == 'x' as int || d[1] == 'X' as int));
    DigitPrefixAll(d, 10);
  }

  /** A string of decimal digits parses to its value. */
  lemma ParseIntOfDigits(d: JsString)
    requires d != [] && forall i :: 0 <= i < |d| ==> IsDigitIn(d[i], 10)
    ensures ParseInt(d) == Some(DigitsValue(d, 10) as int)
  {
    TrimStartKeeps(d);
    ParseMagnitudeOfDigits(d);
  }

  /** A leading minus sign negates whatever the rest parses to. */
  lemma ParseIntMinus(d: JsString)
    ensures ParseInt(['-' as int] + d) == Negate(ParseMagnitude(d))
  {
    var m: JsString := ['-' as int] + d;
    TrimStartKeeps(m);
    assert m[1..] == d;
  }

  lemma TrimStartKeeps(s: JsString)
    requires s != [] && !IsJsWhiteSpace(s[0])
    ensures TrimStart(s) == s
  {
  }

  /** parseInt reads back what String(n) writes. */
  lemma ParseIntOfDecimal(n: nat)
    ensures ParseInt(Decimal(n)) == Some(n)
  {
    DecimalValue(n);
    ParseIntOfDigits(Decimal(n));

  }

  /** parseInt answers NaN exactly when no digit follows the white space,
      sign and radix prefix. */
  lemma ParseIntNaN(s: JsString)
    requires TrimStart(s) == [] || (TrimStart(s)[0] != '-' as int && TrimStart(s)[0] != '+' as int && !IsDigitIn(TrimStart(s)[0], 10))
    ensures ParseInt(s) == None
  {
  }
}
