/** The pure part of web3.js: the placeholder "keccak256" digest (a 32-bit
    multiply-by-31 accumulator rendered as 64 hex characters, not Keccak),
    the predicted token address taken from it, the random hex words used as
    salt and as simulated transaction hash, and the shortened address shown
    in the interface. */
module TokenAddress {
  import opened JsRuntime

  /** The fields of the create form a token is made from. `totalSupply` is
      the result of `parseInt`, None for NaN; `desiredPrefix` is collected
      and never used. */
  datatype TokenData = TokenData(
    name: JsString,
    symbol: JsString,
    totalSupply: Option<int>,
    salt: JsString,
    desiredPrefix: JsString)

  /** `'0x'` */
  const HexPrefix: JsString := ['0' as int, 'x' as int]
  /** `'...'` */
  const Ellipsis: JsString := ['.' as int, '.' as int, '.' as int]
  const Zero: CodeUnit := '0' as int

  // ---------------------------------------------------------------------
  // The digest

  /** The accumulator after reading s, from 0, one code unit at a time:
      h := ToInt32(31 * h + c). */
  function HashOf(s: JsString): (h: int)
    ensures IsInt32(h)
  {
    if s == [] then 0 else ToInt32(31 * HashOf(s[..|s| - 1]) + s[|s| - 1])
  }

  /** The step web3.js writes, `hash = ((hash << 5) - hash) + char` followed
      by `hash = hash & hash`, is the multiply-by-31 step: the shift wraps
      at 32 bits, the subtraction and addition are exact, and `& hash`
      wraps the sum back to 32 bits. */
  lemma JsStepIsTimes31(h: int, c: CodeUnit)
    requires IsInt32(h)
    ensures ToInt32(ToInt32(ToInt32(h) * 32) - h + c) == ToInt32(31 * h + c)
  {
    ToInt32OfInt32(h);
    var shifted := ToInt32(h * 32);
    MultipleOfModulus(shifted - h * 32);
    var k := (shifted - h * 32) / TwoTo32;
    assert (shifted - h + c) - (31 * h + c) == TwoTo32 * k;
    assert ((shifted - h + c) - (31 * h + c)) % TwoTo32 == 0;
    ToInt32Congruent(shifted - h + c, 31 * h + c);
  }

  /** The 64-character rendering: `Math.abs(hash).toString(16)
      .padStart(64, '0')`. */
  function Digest(s: JsString): (d: JsString)
    ensures |d| == 64
  {
    HashHexLength(s);
    PadStart(ToHex(Abs(HashOf(s))), 64, Zero)
  }

  /** `keccak256(input)`: folds the code units of the input into a 32-bit
      accumulator exactly as written in web3.js, then renders it. */
  method Keccak256(input: JsString) returns (digest: JsString)
    ensures digest == Digest(input)
  {
    var hash: int := 0;
    for i := 0 to |input|
      invariant hash == HashOf(input[..i])
    {
      var code := input[i];
      JsStepIsTimes31(hash, code);
      assert input[..i + 1][..i] == input[..i];
      hash := ToInt32(ToInt32(hash) * 32) - hash + code;  // ((hash << 5) - hash) + char
      hash := ToInt32(hash);                               // hash & hash
    }
    assert input[..|input|] == input;
    digest := PadStart(ToHex(Abs(hash)), 64, Zero);
  }

  /** |hash| <= 2^31 has at most eight hexadecimal digits. */
  lemma HashHexLength(s: JsString)
    ensures |ToHex(Abs(HashOf(s)))| <= 8
  {
    assert Pow16(8) == TwoTo32;
    ToHexLength(Abs(HashOf(s)), 8);
  }

  /** The digest is always 64 lower-case hex characters, of which the first
      56 are '0': only 32 bits of it carry information. */
  lemma DigestShape(s: JsString)
    ensures |Digest(s)| == 64
    ensures IsLowerHexString(Digest(s))
    ensures forall i :: 0 <= i < 56 ==> Digest(s)[i] == Zero
  {
    HashHexLength(s);
    var hx := ToHex(Abs(HashOf(s)));
    var d := Digest(s);
    assert d[64 - |hx|..] == hx;
    forall i | 0 <= i < 64
      ensures IsLowerHex(d[i])
    {
      if i >= 64 - |hx| {
        assert d[i] == hx[i - (64 - |hx|)];
      }
    }
  }

  /** The digest, read as a hexadecimal number, is |hash|. */
  lemma DigestValue(s: JsString)
    ensures HexValue(Digest(s)) == Abs(HashOf(s))
  {
    HashHexLength(s);
    var hx := ToHex(Abs(HashOf(s)));
    assert Digest(s) == Repeat(Zero, 64 - |hx|) + hx;
    HexValueLeadingZeros(64 - |hx|, hx);
    HexValueOfToHex(Abs(HashOf(s)));
  }

  // ---------------------------------------------------------------------
  // Random hex words

  /** `'0x'` followed by 64 random digits in lower-case hex: the salt of
      `generateSalt` and the simulated transaction hash of
      `simulateTokenCreation` are both this rendering of 64 nibbles. */
  function HexWord(digits: seq<Nibble>): (w: JsString)
    requires |digits| == 64
    ensures |w| == 66 && w[..2] == HexPrefix
    ensures IsLowerHexString(w[2..])
    ensures forall i :: 0 <= i < 64 ==> HexDigitValue(w[2 + i]) == digits[i]
  {
    HexPrefix + seq(64, i requires 0 <= i < 64 => HexDigit(digits[i]))
  }

  // ---------------------------------------------------------------------
  // The predicted address

  /** `'0x' + hash.slice(-40)` over `name + symbol + salt`. */
  function DeriveAddress(name: JsString, symbol: JsString, salt: JsString): (a: JsString)
    ensures |a| == 42 && a[..2] == HexPrefix
    ensures a[2..] == Digest(name + symbol + salt)[24..]
  {
    HexPrefix + SliceLast(Digest(name + symbol + salt), 40)
  }

  /** The salt `computeTokenAddress` derives from: the token's own, or a
      fresh one when it is empty. */
  function SaltUsed(t: TokenData, entropy: seq<Nibble>): (salt: JsString)
    requires |entropy| == 64
    ensures salt != []
    ensures t.salt != [] ==> salt == t.salt
    ensures t.salt == [] ==> salt == HexWord(entropy)
  {
    if t.salt != [] then t.salt else HexWord(entropy)
  }

  /** `computeTokenAddress(tokenData)`; `entropy` is the randomness a missing
      salt would be generated from. */
  function ComputeTokenAddress(t: TokenData, entropy: seq<Nibble>): (a: JsString)
    requires |entropy| == 64
    ensures |a| == 42 && a[..2] == HexPrefix
    ensures t.salt != [] ==> a == DeriveAddress(t.name, t.symbol, t.salt)
    ensures t.salt == [] ==> a == DeriveAddress(t.name, t.symbol, HexWord(entropy))
  {
    DeriveAddress(t.name, t.symbol, SaltUsed(t, entropy))
  }

  /** Every derived address is `'0x'` and 40 lower-case hex characters, the
      first 32 of which are '0'. */
  lemma AddressShape(name: JsString, symbol: JsString, salt: JsString)
    ensures |DeriveAddress(name, symbol, salt)| == 42
    ensures DeriveAddress(name, symbol, salt)[..2] == HexPrefix
    ensures IsLowerHexString(DeriveAddress(name, symbol, salt)[2..])
    ensures forall i :: 2 <= i < 34 ==> DeriveAddress(name, symbol, salt)[i] == Zero
  {
    var d := Digest(name + symbol + salt);
    DigestShape(name + symbol + salt);
    var a := DeriveAddress(name, symbol, salt);
    assert a[2..] == d[24..];
    forall i | 2 <= i < 42
      ensures IsLowerHex(a[i]) && (i < 34 ==> a[i] == Zero)
    {
      assert a[i] == d[i + 22];
    }
  }

  /** The address keeps the whole of the 32-bit hash: its hex digits, read
      as a number, are |hash| of name + symbol + salt. */
  lemma AddressValue(name: JsString, symbol: JsString, salt: JsString)
    ensures HexValue(DeriveAddress(name, symbol, salt)[2..]) == Abs(HashOf(name + symbol + salt))
  {
    var s := name + symbol + salt;
    HashHexLength(s);
    var hx := ToHex(Abs(HashOf(s)));
    assert Digest(s) == Repeat(Zero, 64 - |hx|) + hx;
    assert DeriveAddress(name, symbol, salt)[2..] == Repeat(Zero, 40 - |hx|) + hx;
    HexValueLeadingZeros(40 - |hx|, hx);
    HexValueOfToHex(Abs(HashOf(s)));
  }

  /** The address depends on the token only through the text
      name + symbol + salt: the supply and the desired prefix never enter,
      and splits with the same concatenation ("ab"+"c" and "a"+"bc") give
      the same address. */
  lemma AddressDependsOnConcatenation(t1: TokenData, t2: TokenData, entropy1: seq<Nibble>, entropy2: seq<Nibble>)
    requires |entropy1| == 64 && |entropy2| == 64
    requires t1.salt != [] && t2.salt != []
    requires t1.name + t1.symbol + t1.salt == t2.name + t2.symbol + t2.salt
    ensures ComputeTokenAddress(t1, entropy1) == ComputeTokenAddress(t2, entropy2)
  {
  }

  // ---------------------------------------------------------------------
  // No collision resistance

  /** Reading one more code unit: ToInt32 before multiplying does not
      change the result. */
  lemma Times31Congruent(x: int, c: int)
    ensures ToInt32(31 * ToInt32(x) + c) == ToInt32(31 * x + c)
  {
    var r := ToInt32(x);
    MultipleOfModulus(r - x);
    var k := (r - x) / TwoTo32;
    assert (31 * r + c) - (31 * x + c) == TwoTo32 * (31 * k);
    ToInt32Congruent(31 * r + c, 31 * x + c);
  }

  /** Inputs whose accumulators agree keep agreeing on every common
      continuation. */
  lemma {:induction false} HashSameSuffix(x1: JsString, x2: JsString, s: JsString)
    requires HashOf(x1) == HashOf(x2)
    ensures HashOf(x1 + s) == HashOf(x2 + s)
  {
    if s == [] {
      assert x1 + s == x1 && x2 + s == x2;
    } else {
      var s' := s[..|s| - 1];
      assert (x1 + s)[..|x1 + s| - 1] == x1 + s' && (x1 + s)[|x1 + s| - 1] == s[|s| - 1];
      assert (x2 + s)[..|x2 + s| - 1] == x2 + s' && (x2 + s)[|x2 + s| - 1] == s[|s| - 1];
      HashSameSuffix(x1, x2, s');
    }
  }

  /** "Aa" and "BB" fold to the same accumulator after any prefix
      (31*65 + 97 == 31*66 + 66), so the digest has collisions inside any
      text. */
  lemma {:induction false} HashCollision(p: JsString, s: JsString)
    ensures HashOf(p + ['A' as int, 'a' as int] + s) == HashOf(p + ['B' as int, 'B' as int] + s)
  {
    var h := HashOf(p);
    var xa := p + ['A' as int, 'a' as int];
    var xb := p + ['B' as int, 'B' as int];
    assert xa[..|xa| - 1] == p + ['A' as int] && (p + ['A' as int])[..|p|] == p;
    assert xb[..|xb| - 1] == p + ['B' as int] && (p + ['B' as int])[..|p|] == p;
    Times31Congruent(31 * h + 'A' as int, 'a' as int);
    Times31Congruent(31 * h + 'B' as int, 'B' as int);
    assert 31 * (31 * h + 'A' as int) + 'a' as int == 31 * (31 * h + 'B' as int) + 'B' as int;
    HashSameSuffix(xa, xb, s);
  }

  /** Two different tokens that both pass validation, "TAa"/"TK" and
      "TBB"/"TK", are predicted the same address for every salt. */
  lemma DistinctTokensShareAddress(salt: JsString)
    ensures DeriveAddress(['T' as int, 'A' as int, 'a' as int], ['T' as int, 'K' as int], salt)
         == DeriveAddress(['T' as int, 'B' as int, 'B' as int], ['T' as int, 'K' as int], salt)
  {
    var rest := ['T' as int, 'K' as int] + salt;
    HashCollision(['T' as int], rest);
    assert ['T' as int, 'A' as int, 'a' as int] + ['T' as int, 'K' as int] + salt
        == ['T' as int] + ['A' as int, 'a' as int] + rest;
    assert ['T' as int, 'B' as int, 'B' as int] + ['T' as int, 'K' as int] + salt
        == ['T' as int] + ['B' as int, 'B' as int] + rest;
  }

  // ---------------------------------------------------------------------
  // Display

  /** `formatAddress(address)`: the first six code units, `'...'`, the last
      four. */
  function FormatAddress(a: JsString): (r: JsString)
    ensures |r| == |SliceTo(a, 6)| + 3 + |SliceLast(a, 4)|
    ensures |a| >= 6 ==> r[..6] == a[..6]
    ensures |a| >= 4 ==> r[|r| - 4..] == a[|a| - 4..]
    ensures r[|SliceTo(a, 6)|..|SliceTo(a, 6)| + 3] == Ellipsis
    ensures |a| == 42 ==> |r| == 13
  {
    SliceTo(a, 6) + Ellipsis + SliceLast(a, 4)
  }
}
