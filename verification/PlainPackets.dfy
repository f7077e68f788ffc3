/**
 The packet object of the twin server (packet_buffer.cpp): a serialization buffer behind a 2-byte length.
 */
module PlainPackets {
  import opened Bytes
  import opened PacketFormats
  import opened SerializationBuffers

  class PacketBuffer {
    const base: SerializationBuffer

    ghost predicate Valid()
      reads this, base
    {
      && base.Valid() && PLAIN_HEADER_SIZE <= base.readIndex
      && PLAIN_HEADER_SIZE <= base.buffer.Length <= PLAIN_HEADER_SIZE + MAX_PAYLOAD_SIZE
    }

    /** The get_packet_size bytes that go on the wire. */
    ghost function Wire(): (w: seq<Byte>)
      reads this, base, base.buffer
      requires Valid()
      ensures |w| == PLAIN_HEADER_SIZE + base.DataSize()
    {
      base.buffer[..PLAIN_HEADER_SIZE + base.DataSize()]
    }

    ghost function Body(): seq<Byte>
      reads this, base, base.buffer
      requires Valid()
    {
      Wire()[PLAIN_HEADER_SIZE..]
    }

    constructor (payloadCapacity: nat)
      ensures Valid() && fresh(base) && fresh(base.buffer)
      ensures base.buffer.Length == PLAIN_HEADER_SIZE + Min(payloadCapacity, MAX_PAYLOAD_SIZE)
      ensures base.readIndex == base.writeIndex == PLAIN_HEADER_SIZE
    {
      base := new SerializationBuffer(PLAIN_HEADER_SIZE + Min(payloadCapacity, MAX_PAYLOAD_SIZE));
      new;
      base.CommitDirectSerialize(PLAIN_HEADER_SIZE);
      base.CommitDirectDeserialize(PLAIN_HEADER_SIZE);
    }

    /** Building the header again changes nothing: the length is a function of the payload. */
    method BuildHeader()
      requires Valid()
      modifies base.buffer
      ensures Valid() && Body() == old(Body()) && Wire() == PlainEncoded(Body())
    {
      ghost var body := Body();
      assert base.buffer[PLAIN_HEADER_SIZE..PLAIN_HEADER_SIZE + base.DataSize()] == body;
      var length := LengthBytes(base.DataSize());
      CopyInto(base.buffer, 0, length);
      assert base.buffer[..PLAIN_HEADER_SIZE] == length;
      assert Wire() == length + body;
    }

    method SetHeader(header: seq<Byte>)
      requires Valid() && |header| == PLAIN_HEADER_SIZE
      modifies base.buffer
      ensures Valid() && base.buffer[..] == header + old(base.buffer[PLAIN_HEADER_SIZE..])
    {
      CopyInto(base.buffer, 0, header);
    }

    method Clear()
      requires Valid()
      modifies base
      ensures Valid() && base.Contents() == [] && base.readIndex == PLAIN_HEADER_SIZE
    {
      base.Clear();
      base.CommitDirectSerialize(PLAIN_HEADER_SIZE);
      base.CommitDirectDeserialize(PLAIN_HEADER_SIZE);
    }
  }
}
