/** The 64-bit FNV-1a hash of a finding's material, and its rendering. */
module Fnv {
  import opened Text

  const TWO64: nat := 0x1_0000_0000_0000_0000
  const OFFSET: nat := 0xcbf29ce484222325
  const PRIME: nat := 0x100000001b3
  /** The inverse of the prime modulo 2^64. */
  const UNPRIME: nat := 0xce965057aff6957b

  type Word = h: int | 0 <= h < 0x1_0000_0000_0000_0000

  /** Exclusive or, bit by bit. */
  function Xor(a: nat, b: nat, bits: nat): (r: nat)
    ensures a < PowerOf2(bits) && b < PowerOf2(bits) ==> r < PowerOf2(bits)
  {
    if bits == 0 then 0
    else 2 * Xor(a / 2, b / 2, bits - 1) + (if a % 2 == b % 2 then 0 else 1)
  }

  function PowerOf2(n: nat): nat {
    if n == 0 then 1 else 2 * PowerOf2(n - 1)
  }

  lemma EightBits()
    ensures PowerOf2(8) == 256
  {
    assert PowerOf2(4) == 16;
  }

  function XorByte(a: Byte, b: Byte): Byte {
    EightBits();
    Xor(a, b, 8)
  }

  /** The byte is mixed into the low eight bits. */
  function Mix(h: Word, b: Byte): Word {
    h / 256 * 256 + XorByte(h % 256, b)
  }

  /** Multiplication wraps. */
  function Step(h: Word, b: Byte): Word {
    Mix(h, b) * PRIME % TWO64
  }

  function Fold(h: Word, material: seq<Byte>): Word {
    if material == [] then h else Step(Fold(h, material[..|material| - 1]), material[|material| - 1])
  }

  method Hash(material: seq<Byte>) returns (hash: Word)
    ensures hash == Fold(OFFSET, material)
  {
    hash := OFFSET;
    for n := 0 to |material|
      invariant hash == Fold(OFFSET, material[..n])
    {
      assert material[..n + 1][..n] == material[..n];
      hash := Step(hash, material[n]);
    }
    assert material[..|material|] == material;
  }

  // ---- every step is a bijection ----

  lemma {:induction false} XorUndone(a: nat, b: nat, bits: nat)
    requires a < PowerOf2(bits)
    ensures Xor(Xor(a, b, bits), b, bits) == a
  {
    if bits > 0 {
      XorUndone(a / 2, b / 2, bits - 1);
      var x := Xor(a, b, bits);
      assert x / 2 == Xor(a / 2, b / 2, bits - 1);
    }
  }

  lemma XorTwice(a: Byte, b: Byte)
    ensures XorByte(XorByte(a, b), b) == a
  {
    EightBits();
    XorUndone(a, b, 8);
  }

  lemma {:induction false} XorCommutes(a: nat, b: nat, bits: nat)
    ensures Xor(a, b, bits) == Xor(b, a, bits)
  {
    if bits > 0 {
      XorCommutes(a / 2, b / 2, bits - 1);
    }
  }

  lemma ModuloIs(a: int, k: int, h: Word)
    requires a == h + k * TWO64
    ensures a % TWO64 == h
  {
  }

  lemma MultiplyingUndone(h: Word)
    ensures h * PRIME % TWO64 * UNPRIME % TWO64 == h
  {
    var q, r := h * PRIME / TWO64, h * PRIME % TWO64;
    var k := (PRIME * UNPRIME - 1) / TWO64;
    assert PRIME * UNPRIME == 1 + k * TWO64;
    assert r * UNPRIME == h + (h * k - q * UNPRIME) * TWO64;
    ModuloIs(r * UNPRIME, h * k - q * UNPRIME, h);
  }

  /** The state before a step, from the state after it. */
  function Unstep(h: Word, b: Byte): Word {
    Mix(h * UNPRIME % TWO64, b)
  }

  lemma MixUndone(h: Word, b: Byte)
    ensures Mix(Mix(h, b), b) == h
  {
    var mixed := Mix(h, b);
    assert mixed / 256 == h / 256 && mixed % 256 == XorByte(h % 256, b);
    XorTwice(h % 256, b);
  }

  lemma StepUndone(h: Word, b: Byte)
    ensures Unstep(Step(h, b), b) == h
  {
    MultiplyingUndone(Mix(h, b));
    MixUndone(h, b);
  }

  lemma UnstepUndone(h: Word, b: Byte)
    ensures Step(Unstep(h, b), b) == h
  {
    MixUndone(h * UNPRIME % TWO64, b);
    MultiplyingRedone(h);
  }

  lemma MultiplyingRedone(h: Word)
    ensures h * UNPRIME % TWO64 * PRIME % TWO64 == h
  {
    var q, r := h * UNPRIME / TWO64, h * UNPRIME % TWO64;
    var k := (PRIME * UNPRIME - 1) / TWO64;
    assert PRIME * UNPRIME == 1 + k * TWO64;
    assert r * PRIME == h + (h * k - q * PRIME) * TWO64;
    ModuloIs(r * PRIME, h * k - q * PRIME, h);
  }

  lemma StepDistinguishesBytes(h: Word, a: Byte, b: Byte)
    requires a != b
    ensures Step(h, a) != Step(h, b)
  {
    var x, y := Mix(h, a), Mix(h, b);
    MultiplyingUndone(x);
    MultiplyingUndone(y);
    if x == y {
      XorCommutes(h % 256, a, 8);
      XorCommutes(h % 256, b, 8);
      XorTwice(a, h % 256);
      XorTwice(b, h % 256);
    }
  }

  lemma {:induction false} FoldDistinguishesStates(g: Word, h: Word, material: seq<Byte>)
    requires g != h
    ensures Fold(g, material) != Fold(h, material)
  {
    if material != [] {
      var front, b := material[..|material| - 1], material[|material| - 1];
      FoldDistinguishesStates(g, h, front);
      StepUndone(Fold(g, front), b);
      StepUndone(Fold(h, front), b);
    }
  }

  lemma {:induction false} FoldOfJoined(h: Word, a: seq<Byte>, b: seq<Byte>)
    ensures Fold(h, a + b) == Fold(Fold(h, a), b)
  {
    if b == [] {
      assert a + b == a;
    } else {
      assert (a + b)[..|a + b| - 1] == a + b[..|b| - 1];
      FoldOfJoined(h, a, b[..|b| - 1]);
    }
  }

  /** Two materials that differ in exactly one byte never share a hash. */
  lemma OneByteNeverCollides(prefix: seq<Byte>, a: Byte, b: Byte, suffix: seq<Byte>)
    requires a != b
    ensures Fold(OFFSET, prefix + [a] + suffix) != Fold(OFFSET, prefix + [b] + suffix)
  {
    var h := Fold(OFFSET, prefix);
    FoldOfJoined(OFFSET, prefix, [a]);
    FoldOfJoined(OFFSET, prefix, [b]);
    FoldOfJoined(OFFSET, prefix + [a], suffix);
    FoldOfJoined(OFFSET, prefix + [b], suffix);
    assert [a][..0] == [] && [b][..0] == [];
    StepDistinguishesBytes(h, a, b);
    FoldDistinguishesStates(Step(h, a), Step(h, b), suffix);
  }

  // ---- sixteen hexadecimal digits ----

  function HexDigits(h: nat, n: nat): string {
    if n == 0 then [] else HexDigits(h / 16, n - 1) + [HexDigit(h % 16)]
  }

  function PowerOf16(n: nat): nat {
    if n == 0 then 1 else 16 * PowerOf16(n - 1)
  }

  lemma HexDigitInjective(a: nat, b: nat)
    requires a < 16 && b < 16 && HexDigit(a) == HexDigit(b)
    ensures a == b
  {
  }

  lemma {:induction false} HexDigitsInjective(a: nat, b: nat, n: nat)
    requires a < PowerOf16(n) && b < PowerOf16(n)
    ensures |HexDigits(a, n)| == |HexDigits(b, n)| == n
    ensures HexDigits(a, n) == HexDigits(b, n) ==> a == b
  {
    if n > 0 {
      HexDigitsInjective(a / 16, b / 16, n - 1);
      var s, t := HexDigits(a, n), HexDigits(b, n);
      assert s[..n - 1] == HexDigits(a / 16, n - 1) && t[..n - 1] == HexDigits(b / 16, n - 1);
      if s == t {
        assert s[n - 1] == t[n - 1];
        HexDigitInjective(a % 16, b % 16);
      }
    }
  }

  function Rendered(h: Word): string {
    HexDigits(h, 16)
  }

  lemma RenderedInjective(g: Word, h: Word)
    ensures |Rendered(g)| == 16
    ensures Rendered(g) == Rendered(h) <==> g == h
  {
    assert PowerOf16(4) == 65536;
    assert PowerOf16(8) == 65536 * PowerOf16(4);
    assert PowerOf16(12) == 65536 * PowerOf16(8);
    assert PowerOf16(16) == 65536 * PowerOf16(12);
    HexDigitsInjective(g, h, 16);
  }

  lemma KnownXor()
    ensures Xor(37, 97, 8) == 68
  {
    assert Xor(2, 6, 4) == 4;
    assert Xor(9, 24, 6) == 17;
  }

  lemma KnownMix()
    ensures Mix(OFFSET, 97) == 0xcbf29ce484222344
  {
    KnownXor();
    assert OFFSET % 256 == 37 && OFFSET / 256 * 256 == 0xcbf29ce484222300;
  }

  lemma StepOf(h: Word, b: Byte, mixed: Word, q: nat, r: nat)
    requires Mix(h, b) == mixed && mixed * PRIME == q * TWO64 + r && r < TWO64
    ensures Step(h, b) == r
  {
    ModuloIs(mixed * PRIME, q, r);
  }

  lemma FoldOne(h: Word, b: Byte)
    ensures Fold(h, []) == h && Fold(h, [b]) == Step(h, b)
  {
    assert [b][..0] == [];
  }

  /** The published values of FNV-1a for the empty text and for "a". */
  lemma KnownValues(material: seq<Byte>)
    ensures material == [] ==> Fold(OFFSET, material) == 0xcbf29ce484222325
    ensures material == [97] ==> Fold(OFFSET, material) == 0xaf63dc4c8601ec8c
  {
    KnownMix();
    StepOf(OFFSET, 97, 0xcbf29ce484222344, 0xcbf29ce5de, 0xaf63dc4c8601ec8c);
    FoldOne(OFFSET, 97);
  }
}
