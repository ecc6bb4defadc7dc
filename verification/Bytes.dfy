/** Byte strings, and the big-endian 32-bit integers the protocols put on the wire. */
module Bytes {

  type byte = x: int | 0 <= x < 0x100
  type bytes = seq<byte>

  const TWO_32: int := 0x1_0000_0000
  const TWO_31: int := 0x8000_0000

  /** `uint32(v)` for an int32 `v`. */
  function AsUint32(v: int): (u: nat)
    ensures u < TWO_32
  {
    v % TWO_32
  }

  /** `int32(u)`: the representative of `u` modulo 2^32 in [-2^31, 2^31). */
  function AsInt32(u: int): (v: int)
    ensures -TWO_31 <= v < TWO_31
    ensures AsUint32(v) == AsUint32(u)
  {
    (u + TWO_31) % TWO_32 - TWO_31
  }

  lemma SameResidue(a: int, b: int)
    ensures AsUint32(a) == AsUint32(b) <==> (a - b) % TWO_32 == 0
  {
    var q := a / TWO_32 - b / TWO_32;
    assert a - b == q * TWO_32 + (a % TWO_32 - b % TWO_32);
  }

  /** `binary.BigEndian.PutUint32`. */
  function PutUint32(u: nat): (b: bytes)
    requires u < TWO_32
    ensures |b| == 4
  {
    [u / 0x100_0000, u / 0x1_0000 % 0x100, u / 0x100 % 0x100, u % 0x100]
  }

  /** `binary.BigEndian.Uint32`. */
  function Uint32(b: bytes): (u: nat)
    requires |b| == 4
    ensures u < TWO_32
  {
    var d3: int, d2: int, d1: int, d0: int := b[0], b[1], b[2], b[3];
    d3 * 0x100_0000 + d2 * 0x1_0000 + d1 * 0x100 + d0
  }

  lemma DigitsSum(u: nat)
    requires u < TWO_32
    ensures u == u / 0x100_0000 * 0x100_0000 + u / 0x1_0000 % 0x100 * 0x1_0000 + u / 0x100 % 0x100 * 0x100 + u % 0x100
  {
    var v, w := u / 0x100, u / 0x1_0000;
    assert v / 0x100 == w && w / 0x100 == u / 0x100_0000;
  }

  /** The most significant byte comes first. */
  lemma Uint32OfPut(u: nat)
    requires u < TWO_32
    ensures Uint32(PutUint32(u)) == u
    ensures var b := PutUint32(u);
      u == b[0] as int * 0x100_0000 + b[1] as int * 0x1_0000 + b[2] as int * 0x100 + b[3] as int
  {
    DigitsSum(u);
  }

  /** The encoding is injective, so distinct sequence numbers have distinct wire forms. */
  lemma PutUint32Injective(u: nat, v: nat)
    requires u < TWO_32 && v < TWO_32
    ensures PutUint32(u) == PutUint32(v) <==> u == v
  {
    Uint32OfPut(u);
    Uint32OfPut(v);
  }

  function Repeat(b: byte, n: nat): (s: bytes)
    ensures |s| == n && forall i :: 0 <= i < n ==> s[i] == b
  {
    seq(n, _ => b)
  }

  // ---------------------------------------------------------------- exclusive or

  function XorBits(a: nat, b: nat, bits: nat): nat {
    if bits == 0 then 0 else (if a % 2 == b % 2 then 0 else 1) + 2 * XorBits(a / 2, b / 2, bits - 1)
  }

  function Power2(n: nat): nat {
    if n == 0 then 1 else 2 * Power2(n - 1)
  }

  lemma {:induction false} XorBitsBound(a: nat, b: nat, bits: nat)
    ensures XorBits(a, b, bits) < Power2(bits)
  {
    if bits > 0 {
      XorBitsBound(a / 2, b / 2, bits - 1);
    }
  }

  lemma {:induction false} XorBitsCancels(a: nat, b: nat, bits: nat)
    requires a < Power2(bits)
    ensures XorBits(XorBits(a, b, bits), b, bits) == a
  {
    if bits > 0 {
      var rest := XorBits(a / 2, b / 2, bits - 1);
      var c := XorBits(a, b, bits);
      assert c / 2 == rest && (c % 2 == b % 2 <==> a % 2 == 0);
      XorBitsCancels(a / 2, b / 2, bits - 1);
    }
  }

  lemma Power2Of8()
    ensures Power2(8) == 0x100
  {
    assert Power2(4) == 16 && Power2(8) == 16 * Power2(4);
  }

  /** `a ^ b` on bytes. */
  function Xor(a: byte, b: byte): byte {
    XorBitsBound(a, b, 8);
    Power2Of8();
    XorBits(a, b, 8)
  }

  lemma XorCancels(a: byte, b: byte)
    ensures Xor(Xor(a, b), b) == a
  {
    Power2Of8();
    XorBitsCancels(a, b, 8);
  }

  /** Bit k of a number. */
  function Bit(a: nat, k: nat): nat {
    if k == 0 then a % 2 else Bit(a / 2, k - 1)
  }

  lemma {:induction false} XorBitsAt(a: nat, b: nat, bits: nat, k: nat)
    requires k < bits
    ensures Bit(XorBits(a, b, bits), k) == if Bit(a, k) == Bit(b, k) then 0 else 1
  {
    var rest := XorBits(a / 2, b / 2, bits - 1);
    assert XorBits(a, b, bits) / 2 == rest;
    if k > 0 {
      XorBitsAt(a / 2, b / 2, bits - 1, k - 1);
    }
  }

  /** A bit of `a ^ b` is set exactly where the two differ. */
  lemma XorAt(a: byte, b: byte, k: nat)
    requires k < 8
    ensures Bit(Xor(a, b), k) == if Bit(a, k) == Bit(b, k) then 0 else 1
  {
    XorBitsAt(a, b, 8, k);
  }

  lemma {:induction false} XorBitsSelf(a: nat, bits: nat)
    ensures XorBits(a, a, bits) == 0
  {
    if bits > 0 {
      XorBitsSelf(a / 2, bits - 1);
    }
  }

  lemma XorSelf(a: byte)
    ensures Xor(a, a) == 0
  {
    XorBitsSelf(a, 8);
  }

  lemma XorZero(a: byte)
    ensures Xor(a, 0) == a && Xor(0, a) == a
  {
    XorSelf(a);
    XorCancels(a, a);
    XorCommutes(a, 0);
  }

  lemma {:induction false} XorBitsCommute(a: nat, b: nat, bits: nat)
    ensures XorBits(a, b, bits) == XorBits(b, a, bits)
  {
    if bits > 0 {
      XorBitsCommute(a / 2, b / 2, bits - 1);
    }
  }

  lemma XorCommutes(a: byte, b: byte)
    ensures Xor(a, b) == Xor(b, a)
  {
    XorBitsCommute(a, b, 8);
  }
}
