/** Fixed-width unsigned integers as bounded ints, with the bitwise operators
    the interpreter uses computed through 8-bit bit-vectors. */
module Bits {

  /** C++ uint8_t. */
  type uint8 = x: int | 0 <= x < 0x100

  /** C++ uint16_t. */
  type uint16 = x: int | 0 <= x < 0x1_0000

  function BitAnd(a: uint8, b: uint8): uint8 { ((a as bv8) & (b as bv8)) as int }

  function BitOr(a: uint8, b: uint8): uint8 { ((a as bv8) | (b as bv8)) as int }

  function BitXor(a: uint8, b: uint8): uint8 { ((a as bv8) ^ (b as bv8)) as int }

  /** Bit `k` of a byte, counted from the most significant bit:
      the source's test `sprite & (0x80 >> k)`. */
  function MsbBit(b: uint8, k: nat): bool
    requires k < 8
  {
    (b as bv8) & ((0x80 as bv8) >> k) != 0
  }

  lemma ByteRoundTrip(b: bv8)
    ensures (b as int) as bv8 == b
  {}

  /** The result of masking with `m` has no bit outside `m`. */
  lemma BitAndWithinMask(r: uint8, m: uint8)
    ensures BitAnd(BitAnd(r, m), m) == BitAnd(r, m)
  {
    var x := (r as bv8) & (m as bv8);
    assert BitAnd(r, m) == x as int;
    ByteRoundTrip(x);
    assert BitAnd(r, m) as bv8 == x;
    AndIdempotent(r as bv8, m as bv8);
  }

  lemma AndIdempotent(a: bv8, m: bv8)
    ensures (a & m) & m == a & m
  {}

  /** On a 0/1 cell, `d ^ 1` is the other of the two values. */
  lemma FlipBinary(d: uint8)
    requires d <= 1
    ensures BitXor(d, 1) == 1 - d
  {
    assert (0 as bv8) ^ 1 == 1;
    assert (1 as bv8) ^ 1 == 0;
  }

  /** `d ^ 1` is zero exactly when `d` is 1. */
  lemma FlipIsZero(d: uint8)
    ensures BitXor(d, 1) == 0 <==> d == 1
    ensures d == 0 ==> BitXor(d, 1) == 1
  {
    ByteRoundTrip(d as bv8);
    assert (d as bv8) ^ 1 == 0 <==> d as bv8 == 1;
  }

  /** `s` with `data` written over it from index `at` on (std::copy_n). */
  function Overwrite<T>(s: seq<T>, at: nat, data: seq<T>): (r: seq<T>)
    requires at + |data| <= |s|
    ensures |r| == |s|
    ensures forall j :: 0 <= j < |s| ==>
              r[j] == if at <= j < at + |data| then data[j - at] else s[j]
  {
    s[..at] + data + s[at + |data|..]
  }
}
