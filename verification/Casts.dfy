/**
 Byte arithmetic, seen as numbers.
 */
module Casts {
  /** Byte addition wraps at 256. */
  lemma AddOne(x: bv8)
    ensures (x + 1) as nat == if x == 255 then 0 else x as nat + 1
    ensures x == 255 ==> x as nat == 255
    ensures x != 255 ==> x as nat < 255
  {
  }

  lemma ModNext(n: nat)
    ensures (n + 1) % 256 == if n % 256 == 255 then 0 else n % 256 + 1
  {
  }
}
