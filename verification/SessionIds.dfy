/**
 Session ids (net_server.cpp): slot index and generation of a session packed into one 64-bit number.
 */
module SessionIds {
  /** A 32-bit number, widened to 64 bits. */
  type Half = x: bv64 | x <= 0xFFFF_FFFF

  /** The cast to 32 bits keeps the low half. */
  function Low(x: bv64): Half {
    x & 0xFFFF_FFFF
  }

  /** pack_session_id. */
  function Pack(index: Half, generation: Half): bv64 {
    (generation << 32) | index
  }

  /** unpack_session_id. */
  function Unpack(id: bv64): (Half, Half) {
    (Low(id), Low(id >> 32))
  }

  /** An id stands for exactly one slot and generation ... */
  lemma UnpackPack(index: Half, generation: Half)
    ensures Unpack(Pack(index, generation)) == (index, generation)
  {
    LowOf(index, generation);
    HighOf(index, generation);
  }

  lemma LowOf(index: bv64, generation: bv64)
    requires index <= 0xFFFF_FFFF
    ensures ((generation << 32) | index) & 0xFFFF_FFFF == index
  {
  }

  lemma HighOf(index: bv64, generation: bv64)
    requires index <= 0xFFFF_FFFF && generation <= 0xFFFF_FFFF
    ensures (((generation << 32) | index) >> 32) & 0xFFFF_FFFF == generation
  {
  }

  /** ... and every 64-bit number is the id of some slot index and generation. */
  lemma PackUnpack(id: bv64)
    ensures Pack(Unpack(id).0, Unpack(id).1) == id
  {
  }

  /** Sessions differ in their ids as soon as they differ in slot or generation. */
  lemma PackInjective(i: Half, g: Half, j: Half, h: Half)
    ensures Pack(i, g) == Pack(j, h) <==> i == j && g == h
  {
    UnpackPack(i, g);
    UnpackPack(j, h);
  }
}
