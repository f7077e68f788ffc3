/**
 The linear byte buffer with a read and a write cursor (serialization_buffer.cpp).
 */
module SerializationBuffers {
  import opened Bytes

  class SerializationBuffer {
    const buffer: array<Byte>
    var readIndex: nat
    var writeIndex: nat

    ghost predicate Valid()
      reads this
    {
      readIndex <= writeIndex <= buffer.Length
    }

    /** What has been written and not yet read. */
    ghost function Contents(): seq<Byte>
      reads this, buffer
      requires Valid()
    {
      buffer[readIndex..writeIndex]
    }

    constructor (capacity: nat)
      ensures Valid() && fresh(buffer) && buffer.Length == capacity
      ensures readIndex == 0 && Contents() == []
    {
      buffer := new Byte[capacity];
      readIndex, writeIndex := 0, 0;
    }

    function DataSize(): nat
      reads this
      requires Valid()
    {
      writeIndex - readIndex
    }

    function FreeSize(): nat
      reads this
      requires Valid()
    {
      buffer.Length - writeIndex
    }

    /** All of src or nothing. */
    method Serialize(src: seq<Byte>) returns (ok: bool)
      requires Valid()
      modifies this`writeIndex, buffer
      ensures Valid() && ok == (|src| <= old(FreeSize()))
      ensures Contents() == old(Contents()) + (if ok then src else [])
      ensures buffer[..old(writeIndex)] == old(buffer[..writeIndex])
      ensures writeIndex == old(writeIndex) + (if ok then |src| else 0)
    {
      if src == [] {
        return true;
      }
      if |src| > FreeSize() {
        return false;
      }
      CopyInto(buffer, writeIndex, src);
      writeIndex := writeIndex + |src|;
      ok := true;
      assert buffer[readIndex..writeIndex] == old(buffer[readIndex..writeIndex]) + src;
    }

    /** size bytes or nothing, in the order they were written. */
    method Deserialize(size: nat) returns (ok: bool, dst: seq<Byte>)
      requires Valid()
      modifies this`readIndex
      ensures Valid() && ok == (size <= old(DataSize()))
      ensures |dst| == (if ok then size else 0) && dst + Contents() == old(Contents())
    {
      if size == 0 {
        return true, [];
      }
      if size > DataSize() {
        return false, [];
      }
      dst := buffer[readIndex..readIndex + size];
      readIndex := readIndex + size;
      ok := true;
    }

    /** The caller has filled size bytes behind the write cursor itself. */
    method CommitDirectSerialize(size: nat)
      requires Valid() && size <= FreeSize()
      modifies this`writeIndex
      ensures Valid() && writeIndex == old(writeIndex) + size
      ensures Contents() == old(Contents()) + buffer[old(writeIndex)..writeIndex]
    {
      writeIndex := writeIndex + size;
    }

    /** The caller has consumed size bytes itself. */
    method CommitDirectDeserialize(size: nat)
      requires Valid() && size <= DataSize()
      modifies this`readIndex
      ensures Valid() && readIndex == old(readIndex) + size
      ensures Contents() == old(Contents())[size..]
    {
      readIndex := readIndex + size;
    }

    method Clear()
      modifies this
      ensures Valid() && readIndex == writeIndex == 0 && Contents() == []
    {
      readIndex, writeIndex := 0, 0;
    }
  }
}
