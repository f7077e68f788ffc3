/**
 The receive ring (ring_buffer.cpp): a power-of-two block with two 64-bit indices that run on and wrap.
 */
module RingBuffers {
  import opened Bytes
  import opened RingArithmetic

  /** The block a receive is posted into: up to two pieces, as offsets into the buffer.  The second offset comes
      from the source's pointer arithmetic and is used only when the second size is not zero. */
  datatype Segments = Segments(first: nat, firstSize: nat, second: int, secondSize: nat)

  /** std::bit_ceil. */
  function CeilOrder(n: nat): nat {
    if n <= 1 then 0 else 1 + CeilOrder((n + 1) / 2)
  }

  /** The smallest power of two that is at least n. */
  lemma {:induction false} CeilIsLeast(n: nat, k: nat)
    ensures n <= Pow2(CeilOrder(n))
    ensures n <= Pow2(k) ==> CeilOrder(n) <= k
  {
    if n > 1 {
      CeilIsLeast((n + 1) / 2, if k == 0 then 0 else k - 1);
    }
  }

  lemma {:induction false} PowGrows(a: nat, b: nat)
    requires a <= b
    ensures Pow2(a) <= Pow2(b)
  {
    if a < b {
      PowGrows(a, b - 1);
    }
  }

  lemma CapacityFits(k: nat)
    requires k <= 63
    ensures 2 * Pow2(k) <= WORD
  {
    WordIsPower();
    PowGrows(k + 1, 64);
  }

  /** Two copies into one place, one behind the other. */
  method Gather(dst: array<Byte>, at: nat, a: seq<Byte>, b: seq<Byte>)
    requires at + |a| + |b| <= dst.Length
    modifies dst
    ensures dst[..] == old(dst[..at]) + (a + b) + old(dst[at + |a| + |b|..])
  {
    CopyInto(dst, at, a);
    if |b| > 0 {
      CopyInto(dst, at + |a|, b);
    }
  }

  /** One source copied to offset off and, for what is left, to the start of the block. */
  method Scatter(buffer: array<Byte>, off: nat, src: seq<Byte>, firstSize: nat)
    requires firstSize <= |src| && off + firstSize <= buffer.Length && |src| - firstSize <= off
    modifies buffer
    ensures buffer[..] == src[firstSize..] + old(buffer[|src| - firstSize..off]) + src[..firstSize]
                          + old(buffer[off + firstSize..])
  {
    CopyInto(buffer, off, src[..firstSize]);
    if firstSize < |src| {
      CopyInto(buffer, 0, src[firstSize..]);
    }
  }

  class RingBuffer {
    const buffer: array<Byte>
    ghost const order: nat
    const capacity: nat
    const mask: nat
    var readIndex: nat
    var writeIndex: nat

    ghost predicate Valid()
      reads this
    {
      && order <= 63 && capacity == buffer.Length == Pow2(order) && mask == capacity - 1
      && readIndex < WORD && writeIndex < WORD
      && UsedSize() <= capacity
    }

    /** The 64-bit difference of the indices. */
    function UsedSize(): nat
      reads this
    {
      (writeIndex + WORD - readIndex) % WORD
    }

    function FreeSize(): nat
      reads this
      requires Valid()
    {
      capacity - UsedSize()
    }

    /** The bytes written and not yet read, oldest first. */
    ghost function Contents(): (s: seq<Byte>)
      reads this, buffer
      requires Valid()
      ensures |s| == UsedSize()
    {
      Logical(buffer[..], readIndex, UsedSize())
    }

    constructor (bufferCapacity: nat)
      requires bufferCapacity <= 0x8000_0000_0000_0000
      ensures Valid() && fresh(buffer) && Contents() == []
      ensures bufferCapacity <= capacity
      ensures forall k: nat :: bufferCapacity <= Pow2(k) ==> capacity <= Pow2(k)
    {
      order := CeilOrder(bufferCapacity);
      capacity := CeilingOf(bufferCapacity);
      mask := CeilingOf(bufferCapacity) - 1;
      buffer := new Byte[CeilingOf(bufferCapacity)];
      readIndex, writeIndex := 0, 0;
      new;
      CeilIsLeast(bufferCapacity, 63);
      assert Pow2(63) == 0x8000_0000_0000_0000 by {
        WordIsPower();
      }
      forall k: nat | bufferCapacity <= Pow2(k) ensures capacity <= Pow2(k) {
        CeilIsLeast(bufferCapacity, k);
        PowGrows(order, k);
      }
    }

    static function CeilingOf(n: nat): nat {
      Pow2(CeilOrder(n))
    }

    /** The byte offset of an index: the source masks, which is reduction modulo the capacity. */
    method Offset(index: nat) returns (off: nat)
      requires Valid()
      ensures off == index % capacity
    {
      off := BitAnd(index, mask);
      MaskIsMod(index, order);
    }

    /** The write index runs UsedSize ahead of the read index, modulo the word. */
    lemma WriteFollowsRead()
      requires Valid()
      ensures writeIndex == (readIndex + UsedSize()) % WORD
      ensures forall n: nat :: Logical(buffer[..], writeIndex, n) == Logical(buffer[..], readIndex + UsedSize(), n)
    {
      IndexDistance(readIndex, writeIndex);
      forall n: nat ensures Logical(buffer[..], writeIndex, n) == Logical(buffer[..], readIndex + UsedSize(), n) {
        LogicalWraps(buffer[..], readIndex + UsedSize(), n, order);
      }
    }

    /** Copies the oldest size bytes out; the ring is unchanged. */
    method Peek(dst: array<Byte>, at: nat, size: nat) returns (ok: bool)
      requires Valid() && dst != buffer && at + size <= dst.Length
      modifies dst
      ensures ok == (size <= UsedSize())
      ensures dst[..] == if ok then old(dst[..at]) + Contents()[..size] + old(dst[at + size..]) else old(dst[..])
    {
      if size == 0 {
        assert dst[..] == dst[..at] + [] + dst[at..];
        return true;
      }
      if UsedSize() < size {
        return false;
      }
      var off := Offset(readIndex);
      var spaceToEnd := capacity - off;
      var firstSize := if spaceToEnd >= size then size else spaceToEnd;
      var secondSize := size - firstSize;
      Gather(dst, at, buffer[off..off + firstSize], buffer[..secondSize]);
      ok := true;
      OldestAre(off, firstSize, size);
    }

    lemma OldestAre(off: nat, firstSize: nat, size: nat)
      requires Valid() && size <= UsedSize() && off == readIndex % capacity && firstSize == Min(size, capacity - off)
      ensures Contents()[..size] == buffer[off..off + firstSize] + buffer[..size - firstSize]
    {
      LogicalSplit(buffer[..], readIndex, size);
      assert Contents()[..size] == Logical(buffer[..], readIndex, size);
      assert buffer[..][off..off + firstSize] == buffer[off..off + firstSize];
    }

    /** Moves the read index on: the oldest size bytes are gone. */
    method CommitDirectRead(size: nat)
      requires Valid() && size <= UsedSize()
      modifies this`readIndex
      ensures Valid() && Contents() == old(Contents())[size..] && FreeSize() == old(FreeSize()) + size
    {
      ghost var used, was := UsedSize(), readIndex;
      LogicalAppend(buffer[..], readIndex, size, used - size);
      CapacityFits(order);
      readIndex := (readIndex + size) % WORD;
      AdvanceRead(was, writeIndex, size);
      LogicalWraps(buffer[..], was + size, used - size, order);
    }

    method Read(dst: array<Byte>, at: nat, size: nat) returns (ok: bool)
      requires Valid() && dst != buffer && at + size <= dst.Length
      modifies this`readIndex, dst
      ensures Valid() && ok == (size <= old(UsedSize()))
      ensures ok ==> dst[..] == old(dst[..at]) + old(Contents())[..size] + old(dst[at + size..])
      ensures !ok ==> dst[..] == old(dst[..])
      ensures Contents() == if ok then old(Contents())[size..] else old(Contents())
      ensures FreeSize() == old(FreeSize()) + (if ok then size else 0)
    {
      ok := Peek(dst, at, size);
      if ok {
        CommitDirectRead(size);
      }
    }

    /** The bytes placed behind the write index become part of the contents. */
    method CommitDirectWrite(size: nat)
      requires Valid() && size <= FreeSize()
      modifies this`writeIndex
      ensures Valid() && Contents() == old(Contents()) + Logical(buffer[..], old(writeIndex), size)
      ensures FreeSize() == old(FreeSize()) - size
    {
      ghost var used, was := UsedSize(), writeIndex;
      WriteFollowsRead();
      LogicalAppend(buffer[..], readIndex, used, size);
      CapacityFits(order);
      writeIndex := (writeIndex + size) % WORD;
      AdvanceWrite(readIndex, was, size);
    }

    /** All of src or nothing. */
    method Write(src: seq<Byte>) returns (ok: bool)
      requires Valid()
      modifies this`writeIndex, buffer
      ensures Valid() && ok == (|src| <= old(FreeSize()))
      ensures Contents() == old(Contents()) + (if ok then src else [])
    {
      if src == [] {
        return true;
      }
      if FreeSize() < |src| {
        return false;
      }
      ghost var before, used := buffer[..], UsedSize();
      var off := Offset(writeIndex);
      var spaceToEnd := capacity - off;
      var firstSize := if spaceToEnd >= |src| then |src| else spaceToEnd;
      var secondSize := |src| - firstSize;
      Scatter(buffer, off, src, firstSize);
      TwoCopiesFill(before, buffer[..], writeIndex, src, firstSize);
      FilledFromUsed(before, src);
      CommitDirectWrite(|src|);
      ok := true;
    }

    /** Bytes placed behind the write index leave the contents alone and can be committed. */
    lemma FilledFromUsed(before: seq<Byte>, data: seq<Byte>)
      requires Valid() && |data| <= FreeSize()
      requires Filled(before, buffer[..], writeIndex, data)
      ensures Contents() == Logical(before, readIndex, UsedSize())
      ensures Logical(buffer[..], writeIndex, |data|) == data
    {
      var used := UsedSize();
      WriteFollowsRead();
      forall j | 0 <= j < |data| ensures Place(readIndex + used, j, capacity) == Place(writeIndex, j, capacity) {
        PlaceWraps(readIndex + used, j, order);
      }
      FillDisjoint(before, buffer[..], readIndex, used, data);
    }

    method DirectWriteSize() returns (n: nat)
      requires Valid()
      ensures n == Min(FreeSize(), capacity - writeIndex % capacity)
    {
      var freeSize := FreeSize();
      var off := Offset(writeIndex);
      var spaceToEnd := capacity - off;
      n := if spaceToEnd >= freeSize then freeSize else spaceToEnd;
    }

    method DirectReadSize() returns (n: nat)
      requires Valid()
      ensures n == Min(UsedSize(), capacity - readIndex % capacity)
    {
      var usedSize := UsedSize();
      var off := Offset(readIndex);
      var spaceToEnd := capacity - off;
      n := if spaceToEnd >= usedSize then usedSize else spaceToEnd;
    }

    /** The first DirectReadSize bytes can be read in place. */
    lemma DirectReadIsContents(n: nat)
      requires Valid() && n <= Min(UsedSize(), capacity - readIndex % capacity)
      ensures var off := readIndex % capacity; buffer[off..off + n] == Contents()[..n]
    {
      LogicalSplit(buffer[..], readIndex, n);
      assert Contents()[..n] == Logical(buffer[..], readIndex, n);
    }

    method Clear()
      requires Valid()
      modifies this`readIndex, this`writeIndex
      ensures Valid() && Contents() == []
    {
      readIndex, writeIndex := 0, 0;
    }

    // -------------------------------------------------------------- a receive in two segments

    /** The segments of a posted receive still lie behind the write index and inside the free bytes. */
    ghost predicate PostedInto(seg: Segments)
      reads this
    {
      && Valid()
      && seg.first == writeIndex % capacity
      && seg.firstSize <= capacity - seg.first
      && seg.firstSize + seg.secondSize <= FreeSize()
      && (seg.secondSize > 0 ==> seg.second == 0 && seg.firstSize == capacity - seg.first)
    }

    /** recv_post: the two segments are exactly the free bytes. */
    method SegmentsForReceive() returns (seg: Segments)
      requires Valid()
      ensures PostedInto(seg) && seg.firstSize + seg.secondSize == FreeSize()
    {
      var totalFree := FreeSize();
      var first := DirectWriteSize();
      var off := Offset(writeIndex);
      seg := Segments(off, first, off - (capacity - first), totalFree - first);
    }

    /** The kernel receives some bytes into a posted operation's segments: at any time, whatever has been read
        meanwhile, it changes none of the bytes a reader can see, and the bytes it placed are the ones a commit will
        append. */
    method Receive(seg: Segments, data: seq<Byte>)
      requires PostedInto(seg) && |data| <= seg.firstSize + seg.secondSize
      modifies buffer
      ensures PostedInto(seg) && Contents() == old(Contents())
      ensures Logical(buffer[..], writeIndex, |data|) == data
    {
      ghost var before := buffer[..];
      var firstSize := Min(|data|, seg.firstSize);
      assert firstSize < |data| ==> seg.second == 0;
      Scatter(buffer, seg.first, data, firstSize);
      TwoCopiesFill(before, buffer[..], writeIndex, data, firstSize);
      FilledFromUsed(before, data);
    }

    /** Reading frees bytes but never moves the write index, so a posted receive stays where it is. */
    twostate lemma ReadingKeepsPost(seg: Segments)
      requires old(PostedInto(seg)) && Valid() && writeIndex == old(writeIndex) && FreeSize() >= old(FreeSize())
      ensures PostedInto(seg)
    {
    }
  }

  lemma ModOnce(x: nat)
    requires x < 2 * WORD
    ensures x % WORD == if x < WORD then x else x - WORD
  {
  }

  lemma IndexDistance(r: nat, w: nat)
    requires r < WORD && w < WORD
    ensures w == (r + (w + WORD - r) % WORD) % WORD
  {
    ModOnce(w + WORD - r);
    ModOnce(r + (w + WORD - r) % WORD);
  }

  lemma AdvanceRead(r: nat, w: nat, n: nat)
    requires r < WORD && w < WORD && n <= (w + WORD - r) % WORD
    ensures (r + n) % WORD < WORD && (w + WORD - (r + n) % WORD) % WORD == (w + WORD - r) % WORD - n
  {
    ModOnce(w + WORD - r);
    ModOnce(r + n);
    ModOnce(w + WORD - (r + n) % WORD);
  }

  lemma AdvanceWrite(r: nat, w: nat, n: nat)
    requires r < WORD && w < WORD && (w + WORD - r) % WORD + n < WORD
    ensures (w + n) % WORD < WORD && ((w + n) % WORD + WORD - r) % WORD == (w + WORD - r) % WORD + n
  {
    ModOnce(w + WORD - r);
    ModOnce(w + n);
    ModOnce((w + n) % WORD + WORD - r);
  }
}
