/** Octets, big-endian 16-bit fields and exclusive or, on unbounded integers. */
module Octets {

  type byte = b: int | 0 <= b < 256

  type uint16 = n: int | 0 <= n < 65536

  /** The big-endian 16-bit field at `i`. */
  function U16(s: seq<byte>, i: nat): uint16
    requires i + 2 <= |s|
  {
    (s[i] as int) * 256 + s[i + 1] as int
  }

  function Bytes16(n: uint16): (s: seq<byte>)
    ensures |s| == 2 && U16(s, 0) == n
  {
    [n / 256, n % 256]
  }

  /** The only two octets that read back as `n` are the ones `Bytes16` writes. */
  lemma Bytes16Unique(s: seq<byte>, i: nat)
    requires i + 2 <= |s|
    ensures s[i..i + 2] == Bytes16(U16(s, i))
  {
  }

  function Pow2(bits: nat): (n: nat)
    ensures n > 0
  {
    if bits == 0 then 1 else 2 * Pow2(bits - 1)
  }

  function Bit(a: nat, i: nat): bool
  {
    if i == 0 then a % 2 == 1 else Bit(a / 2, i - 1)
  }

  /** Exclusive or of the low `bits` bits of two numbers. */
  function Xor(a: nat, b: nat, bits: nat): (c: nat)
    ensures c < Pow2(bits)
  {
    if bits == 0 then 0
    else 2 * Xor(a / 2, b / 2, bits - 1) + if a % 2 == b % 2 then 0 else 1
  }

  /** Every bit of the result is set exactly when the two operands differ in it. */
  lemma {:induction false} XorBit(a: nat, b: nat, bits: nat, i: nat)
    requires i < bits
    ensures Bit(Xor(a, b, bits), i) <==> Bit(a, i) != Bit(b, i)
  {
    if i > 0 {
      XorBit(a / 2, b / 2, bits - 1, i - 1);
    }
  }

  /** Masking twice with the same mask gives the number back. */
  lemma {:induction false} XorInvolution(a: nat, mask: nat, bits: nat)
    requires a < Pow2(bits)
    ensures Xor(Xor(a, mask, bits), mask, bits) == a
  {
    if bits > 0 {
      XorInvolution(a / 2, mask / 2, bits - 1);
    }
  }

  function Xor8(a: byte, b: byte): (c: byte)
    ensures Xor(c, b, 8) == a
  {
    assert Pow2(8) == 256;
    XorInvolution(a, b, 8);
    Xor(a, b, 8)
  }

  function Xor16(a: uint16, b: uint16): (c: uint16)
    ensures Xor(c, b, 16) == a
  {
    assert Pow2(8) == 256;
    assert Pow2(16) == 65536;
    XorInvolution(a, b, 16);
    Xor(a, b, 16)
  }
}
