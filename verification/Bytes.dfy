/**
 Bytes, little-endian lengths, and copies between memory blocks.
 */
module Bytes {
  import Casts

  type Byte = bv8

  function Min(a: nat, b: nat): nat {
    if a <= b then a else b
  }

  /** The low byte of an unsigned number, what a cast to an 8-bit type keeps: counting up to n, it wraps at 256. */
  function LowByte(n: nat): Byte {
    if n == 0 then 0 else LowByte(n - 1) + 1
  }

  /** A 16-bit length as memcpy stores it on a little-endian machine. */
  function LengthBytes(n: nat): seq<Byte> {
    [LowByte(n), LowByte(n / 256)]
  }

  function LengthOf(low: Byte, high: Byte): nat {
    low as nat + 256 * (high as nat)
  }

  lemma {:induction false} LowByteValue(n: nat)
    ensures LowByte(n) as nat == n % 256
  {
    if n > 0 {
      LowByteValue(n - 1);
      Casts.AddOne(LowByte(n - 1));
      Casts.ModNext(n - 1);
    }
  }

  lemma TwoBytes(n: nat, low: Byte, high: Byte)
    requires n < 0x1_0000 && low as nat == n % 256 && high as nat == (n / 256) % 256
    ensures LengthOf(low, high) == n
  {
  }

  lemma LengthRoundTrip(n: nat)
    requires n < 0x1_0000
    ensures LengthOf(LengthBytes(n)[0], LengthBytes(n)[1]) == n
  {
    LowByteValue(n);
    LowByteValue(n / 256);
    TwoBytes(n, LowByte(n), LowByte(n / 256));
  }

  /** memcpy into a block. */
  method CopyInto(dst: array<Byte>, at: nat, src: seq<Byte>)
    requires at + |src| <= dst.Length
    modifies dst
    ensures dst[..] == old(dst[..at]) + src + old(dst[at + |src|..])
  {
    forall k | 0 <= k < |src| {
      dst[at + k] := src[k];
    }
  }
}
