/**
 The packet object of the obfuscated protocol (net_packet_buffer.cpp): a serialization buffer whose first five
 bytes are the header, finalised at most once.
 */
module NetPackets {
  import opened Bytes
  import opened Obfuscator
  import opened PacketFormats
  import opened SerializationBuffers

  method ComputeChecksum(a: array<Byte>, lo: nat, length: nat) returns (sum: Byte)
    requires lo + length <= a.Length
    ensures sum == Checksum(a[lo..lo + length])
  {
    sum := 0;
    for i := 0 to length
      invariant sum == Checksum(a[lo..lo + i])
    {
      assert a[lo..lo + i + 1] == a[lo..lo + i] + [a[lo + i]];
      sum := sum + a[lo + i];
    }
  }

  class NetPacketBuffer {
    const base: SerializationBuffer
    var finalized: bool

    /** The read cursor never falls back into the header. */
    ghost predicate Valid()
      reads this, base
    {
      && base.Valid() && HEADER_SIZE <= base.readIndex
      && HEADER_SIZE <= base.buffer.Length <= HEADER_SIZE + MAX_PAYLOAD_SIZE
    }

    /** The bytes that go on the wire: get_packet_size bytes from the start of the buffer. */
    ghost function Wire(): (w: seq<Byte>)
      reads this, base, base.buffer
      requires Valid()
      ensures |w| == HEADER_SIZE + base.DataSize()
    {
      base.buffer[..HEADER_SIZE + base.DataSize()]
    }

    /** The payload part of Wire.  Nothing has been read from a packet that is about to be sent, and then this is
        exactly what was serialized into it. */
    ghost function Body(): seq<Byte>
      reads this, base, base.buffer
      requires Valid()
    {
      Wire()[HEADER_SIZE..]
    }

    constructor (payloadCapacity: nat)
      ensures Valid() && fresh(base) && fresh(base.buffer) && !finalized
      ensures base.buffer.Length == HEADER_SIZE + Min(payloadCapacity, MAX_PAYLOAD_SIZE)
      ensures base.readIndex == base.writeIndex == HEADER_SIZE
    {
      base := new SerializationBuffer(HEADER_SIZE + Min(payloadCapacity, MAX_PAYLOAD_SIZE));
      finalized := false;
      new;
      base.CommitDirectSerialize(HEADER_SIZE);
      base.CommitDirectDeserialize(HEADER_SIZE);
    }

    /** Appends to the payload. */
    method Serialize(src: seq<Byte>) returns (ok: bool)
      requires Valid()
      modifies base`writeIndex, base.buffer
      ensures Valid() && ok == (|src| <= old(base.FreeSize()))
      ensures base.Contents() == old(base.Contents()) + (if ok then src else [])
    {
      ok := base.Serialize(src);
    }

    /** While nothing has been read, what is sent is what was serialized. */
    lemma BodyIsContents()
      requires Valid() && base.readIndex == HEADER_SIZE
      ensures Body() == base.Contents()
    {
    }

    method BuildHeader(code: Byte, randomKey: Byte)
      requires Valid()
      modifies base.buffer
      ensures Valid()
      ensures if finalized then base.buffer[..] == old(base.buffer[..]) else Wire() == Raw(code, randomKey, old(Body()))
    {
      if finalized {
        return;
      }
      var payloadLength := base.DataSize();
      var checksum := ComputeChecksum(base.buffer, HEADER_SIZE, payloadLength);
      ghost var body := Body();
      assert base.buffer[HEADER_SIZE..HEADER_SIZE + payloadLength] == body;
      var length := LengthBytes(payloadLength);
      WriteHeader(code, length, randomKey, checksum);
      assert Wire() == base.buffer[..HEADER_SIZE] + body;
    }

    method WriteHeader(code: Byte, length: seq<Byte>, randomKey: Byte, checksum: Byte)
      requires Valid() && |length| == 2
      modifies base.buffer
      ensures base.buffer[..HEADER_SIZE] == [code] + length + [randomKey] + [checksum]
      ensures base.buffer[HEADER_SIZE..] == old(base.buffer[HEADER_SIZE..])
    {
      base.buffer[0] := code;
      CopyInto(base.buffer, LEN_OFFSET, length);
      assert forall k :: RANDKEY_OFFSET <= k < base.buffer.Length ==> base.buffer[..][k] == old(base.buffer[k]);
      base.buffer[RANDKEY_OFFSET] := randomKey;
      base.buffer[CHECKSUM_OFFSET] := checksum;
    }

    method Encode(fixedKey: Byte)
      requires Valid()
      modifies this`finalized, base.buffer
      ensures Valid() && finalized
      ensures if old(finalized) then base.buffer[..] == old(base.buffer[..])
              else Wire() == Sealed(old(Wire()), fixedKey)
    {
      if finalized {
        return;
      }
      var randomKey := base.buffer[RANDKEY_OFFSET];
      var blockLength := 1 + base.DataSize();
      ghost var was := Wire();
      assert was[CHECKSUM_OFFSET..] == base.buffer[CHECKSUM_OFFSET..CHECKSUM_OFFSET + blockLength];
      ObfuscateInPlace(base.buffer, CHECKSUM_OFFSET, blockLength, fixedKey, randomKey);
      finalized := true;
      assert Wire() == base.buffer[..CHECKSUM_OFFSET] + base.buffer[CHECKSUM_OFFSET..CHECKSUM_OFFSET + blockLength];
      assert base.buffer[..CHECKSUM_OFFSET] == was[..CHECKSUM_OFFSET];
    }

    /** What send_packet does to every packet: the first call seals it under these keys, later calls change no byte. */
    method Finalise(code: Byte, randomKey: Byte, fixedKey: Byte)
      requires Valid()
      modifies this`finalized, base.buffer
      ensures Valid() && finalized
      ensures if old(finalized) then base.buffer[..] == old(base.buffer[..])
              else Wire() == Encoded(code, fixedKey, randomKey, old(Body()))
    {
      BuildHeader(code, randomKey);
      Encode(fixedKey);
    }

    method Decode(fixedKey: Byte) returns (ok: bool)
      requires Valid()
      modifies base.buffer
      ensures Valid() && Wire() == Opened(old(Wire()), fixedKey) && ok == Genuine(Wire())
    {
      var randomKey := base.buffer[RANDKEY_OFFSET];
      var payloadLength := base.DataSize();
      var blockLength := 1 + payloadLength;
      ghost var was := Wire();
      assert was[CHECKSUM_OFFSET..] == base.buffer[CHECKSUM_OFFSET..CHECKSUM_OFFSET + blockLength];
      DeobfuscateInPlace(base.buffer, CHECKSUM_OFFSET, blockLength, fixedKey, randomKey);
      assert Wire() == base.buffer[..CHECKSUM_OFFSET] + base.buffer[CHECKSUM_OFFSET..CHECKSUM_OFFSET + blockLength];
      assert base.buffer[..CHECKSUM_OFFSET] == was[..CHECKSUM_OFFSET];
      var stored := base.buffer[CHECKSUM_OFFSET];
      var computed := ComputeChecksum(base.buffer, HEADER_SIZE, payloadLength);
      assert Wire()[HEADER_SIZE..] == base.buffer[HEADER_SIZE..HEADER_SIZE + payloadLength];
      ok := stored == computed;
    }

    method SetHeader(header: seq<Byte>)
      requires Valid() && |header| == HEADER_SIZE
      modifies base.buffer
      ensures Valid() && base.buffer[..] == header + old(base.buffer[HEADER_SIZE..])
    {
      CopyInto(base.buffer, 0, header);
    }

    method Clear()
      requires Valid()
      modifies this, base
      ensures Valid() && !finalized && base.Contents() == [] && base.readIndex == HEADER_SIZE
    {
      base.Clear();
      base.CommitDirectSerialize(HEADER_SIZE);
      base.CommitDirectDeserialize(HEADER_SIZE);
      finalized := false;
    }
  }
}
