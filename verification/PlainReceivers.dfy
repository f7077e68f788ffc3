/**
 The same for the twin server (server.cpp): frames with a 2-byte length in front and nothing to decode.
 */
module PlainReceivers {
  import opened Bytes
  import opened Frames
  import opened PacketFormats
  import opened ServerFrames
  import opened ReceiveSessions
  import opened Deliveries
  import opened SessionLoops
  import opened RingArithmetic
  import opened RingBuffers
  import opened PlainPackets

  /** One whole frame moves from the front of the ring into a new packet. */
  method TakeFrame(ring: RingBuffer, header: array<Byte>, payloadLength: nat) returns (packet: PacketBuffer)
    requires ring.Valid() && header.Length == PLAIN_HEADER_SIZE && header != ring.buffer
    requires PLAIN_HEADER_SIZE + payloadLength <= ring.UsedSize() && payloadLength <= MAX_PAYLOAD_SIZE
    requires header[..] == ring.Contents()[..PLAIN_HEADER_SIZE]
    modifies ring`readIndex
    ensures ring.Valid() && ring.FreeSize() > old(ring.FreeSize())
    ensures fresh(packet) && fresh(packet.base) && fresh(packet.base.buffer) && packet.Valid()
    ensures packet.Wire() == old(ring.Contents())[..PLAIN_HEADER_SIZE + payloadLength]
    ensures ring.Contents() == old(ring.Contents())[PLAIN_HEADER_SIZE + payloadLength..]
  {
    ghost var stream := ring.Contents();
    SplitFrame(stream, PLAIN_HEADER_SIZE, payloadLength);
    ring.CommitDirectRead(PLAIN_HEADER_SIZE);
    packet := new PacketBuffer(payloadLength);
    packet.SetHeader(header[..]);
    var ok := ring.Read(packet.base.buffer, PLAIN_HEADER_SIZE, payloadLength);
    packet.base.CommitDirectSerialize(payloadLength);
    assert packet.base.buffer[..PLAIN_HEADER_SIZE] == stream[..PLAIN_HEADER_SIZE];
  }

  /** What is at the front of the ring, and its length field if there is one. */
  method PeekHeader(ring: RingBuffer) returns (cut: Cut, header: array<Byte>)
    requires ring.Valid()
    ensures cut == PlainCut(ring.Contents())
    ensures fresh(header) && header.Length == PLAIN_HEADER_SIZE
    ensures cut.Frame? ==>
      && PLAIN_HEADER_SIZE <= cut.size <= ring.UsedSize() && cut.size <= PLAIN_HEADER_SIZE + MAX_PAYLOAD_SIZE
      && header[..] == ring.Contents()[..PLAIN_HEADER_SIZE]
  {
    header := new Byte[PLAIN_HEADER_SIZE];
    ghost var stream := ring.Contents();
    if ring.UsedSize() < PLAIN_HEADER_SIZE {
      return More, header;
    }
    var ok := ring.Peek(header, 0, PLAIN_HEADER_SIZE);
    assert header[..] == stream[..PLAIN_HEADER_SIZE];
    assert header[0] == header[..][0] == stream[0] && header[1] == header[..][1] == stream[1];
    var totalSize := PLAIN_HEADER_SIZE + LengthOf(header[0], header[1]);
    if ring.UsedSize() < totalSize {
      return More, header;
    }
    cut := Frame(totalSize);
  }

  /** One round of the frame loop.  The packets extracted before keep their bytes. */
  method ExtractOne(ring: RingBuffer, ghost packets: seq<PacketBuffer>, ghost frames: seq<seq<Byte>>)
    returns (ghost cut: Cut, packet: PacketBuffer?)
    requires ring.Valid() && |packets| <= |frames|
    requires forall k :: 0 <= k < |packets| ==> packets[k].Valid() && packets[k].Wire() == frames[k]
    modifies ring`readIndex
    ensures forall k :: 0 <= k < |packets| ==> packets[k].Valid() && packets[k].Wire() == frames[k]
    ensures ring.Valid() && cut == PlainCut(old(ring.Contents()))
    ensures cut.Frame? <==> packet != null
    ensures packet == null ==> ring.Contents() == old(ring.Contents())
    ensures packet != null ==>
      && packet.Valid() && 0 < cut.size <= |old(ring.Contents())|
      && packet.Wire() == old(ring.Contents())[..cut.size]
      && ring.Contents() == old(ring.Contents())[cut.size..]
  {
    var found, header := PeekHeader(ring);
    cut := found;
    packet := null;
    if found.Frame? {
      packet := TakeFrame(ring, header, found.size - PLAIN_HEADER_SIZE);
    }
  }

  /** The frame loop: it stops, with everything extracted that has fully arrived. */
  method ExtractFrames(ring: RingBuffer, ghost plain: Cutter) returns (packets: seq<PacketBuffer>)
    requires ring.Valid() && plain == Plain()
    modifies ring`readIndex
    ensures ring.Valid()
    ensures var p := Parse(plain, old(ring.Contents()));
      && |packets| == |p.frames| && !p.desync && ring.Contents() == p.rest
      && (forall k :: 0 <= k < |packets| ==> packets[k].Valid() && packets[k].Wire() == p.frames[k])
  {
    packets := [];
    ghost var whole := Parse(plain, ring.Contents());
    while true
      invariant ring.Valid() && |packets| <= |whole.frames|
      invariant forall k :: 0 <= k < |packets| ==> packets[k].Valid() && packets[k].Wire() == whole.frames[k]
      invariant Parse(plain, ring.Contents()) == Parsed(whole.frames[|packets|..], whole.rest, whole.desync)
      decreases |ring.Contents()|
    {
      ghost var stream := ring.Contents();
      var packet;
      ghost var cut;
      cut, packet := ExtractOne(ring, packets, whole.frames);
      assert plain(stream) == PlainCut(stream);
      if packet == null {
        break;
      }
      ParseHead(plain, stream, whole.frames, |packets|);
      packets := packets + [packet];
    }
  }

  /** Hands on packet after packet. */
  method DeliverAll(packets: seq<PacketBuffer>, ghost frames: seq<seq<Byte>>, ghost decode: Decoder)
    returns (payloads: seq<seq<Byte>>)
    requires |packets| == |frames| && decode == PlainDecoder()
    requires forall k :: 0 <= k < |packets| ==> packets[k].Valid() && packets[k].Wire() == frames[k]
    ensures Deliver(Decodings(frames, decode)) == Delivery(payloads, false)
  {
    payloads := [];
    ghost var ds := Decodings(frames, decode);
    for i := 0 to |packets|
      invariant |payloads| == i && forall k :: 0 <= k < i ==> ds[k] == Payload(payloads[k])
    {
      var packet := packets[i];
      var payload := packet.base.buffer[PLAIN_HEADER_SIZE..PLAIN_HEADER_SIZE + packet.base.DataSize()];
      assert payload == packet.Wire()[PLAIN_HEADER_SIZE..];
      assert ds[i] == decode(frames[i]);
      payloads := payloads + [payload];
    }
    AllDelivered(ds, payloads);
  }

  /** A worker handles a receive of n bytes that the kernel has placed behind the write index.  Everything extracted is
      handed on, and only a full ring disconnects. */
  method OnReceive(ring: RingBuffer, n: nat) returns (r: Outcome, seg: Segments)
    requires ring.Valid() && n <= ring.FreeSize()
    modifies ring`readIndex, ring`writeIndex
    ensures ring.Valid()
    ensures var stream := old(ring.Contents()) + Logical(old(ring.buffer[..]), old(ring.writeIndex), n);
      var p := Parse(Plain(), stream);
      && ring.Contents() == p.rest && !p.desync
      && Deliver(Decodings(p.frames, PlainDecoder())) == Delivery(r.payloads, false)
      && (r.posted <==> |stream| < ring.capacity)
      && (r.disconnect <==> |stream| == ring.capacity)
      && (r.posted ==> ring.PostedInto(seg) && seg.firstSize + seg.secondSize == ring.capacity - |stream|)
  {
    ring.CommitDirectWrite(n);
    ghost var stream := ring.Contents();
    var full := ring.FreeSize() == 0;
    seg := ring.SegmentsForReceive();
    ghost var plain, decode := Plain(), PlainDecoder();
    var packets := ExtractFrames(ring, plain);
    ParseExact(plain, stream);
    var payloads := DeliverAll(packets, Parse(plain, stream).frames, decode);
    r := Outcome(!full, payloads, full);
  }

  method FollowOne(ring: RingBuffer, posted: Segments, chunk: seq<Byte>, ghost plain: Cutter, ghost decode: Decoder,
                   ghost done: seq<seq<Byte>>, ghost s: Session, lists: seq<seq<seq<Byte>>>)
    returns (seg: Segments, lists': seq<seq<seq<Byte>>>, disconnected: bool, ghost t: Session)
    requires plain == Plain() && decode == PlainDecoder()
    requires InStep(ring, posted, s, false, false) && 0 < |chunk| <= posted.firstSize + posted.secondSize
    requires Follows(plain, decode, ring.capacity, done, s, lists, false)
    modifies ring`readIndex, ring`writeIndex, ring.buffer
    ensures InStep(ring, seg, t, false, disconnected) && !t.desync
    ensures Follows(plain, decode, ring.capacity, done + [chunk], t, lists', false)
  {
    FollowsOneMore(plain, decode, ring.capacity, done, s, lists, false, chunk);
    ring.Receive(posted, chunk);
    var outcome;
    outcome, seg := OnReceive(ring, |chunk|);
    t := Complete(plain, ring.capacity, s, chunk);
    lists', disconnected := lists + [outcome.payloads], outcome.disconnect;
  }

  /** A whole session with one worker: what it hands on, completion by completion, and what it keeps is what the
      session's run says, and it disconnects exactly when a completion fills the ring. */
  method HandleCompletions(ring: RingBuffer, chunks: seq<seq<Byte>>)
    returns (handled: nat, lists: seq<seq<seq<Byte>>>, disconnected: bool)
    requires ring.Valid() && ring.Contents() == [] && ring.capacity > 0
    modifies ring`readIndex, ring`writeIndex, ring.buffer
    ensures ring.Valid() && handled <= |chunks|
    ensures var s := Run(Plain(), ring.capacity, chunks[..handled]);
      && Feasible(Plain(), ring.capacity, chunks[..handled])
      && ring.Contents() == s.rest && lists == Lists(s.batches, PlainDecoder())
      && (disconnected <==> s.posted == 0)
      && (!disconnected && handled < |chunks| ==> !(0 < |chunks[handled]| <= s.posted))
  {
    ghost var plain, decode := Plain(), PlainDecoder();
    ghost var s := Run(plain, ring.capacity, []);
    handled, lists, disconnected := 0, [], false;
    var seg := ring.SegmentsForReceive();
    while handled < |chunks| && !disconnected && 0 < |chunks[handled]| <= seg.firstSize + seg.secondSize
      invariant handled <= |chunks| && InStep(ring, seg, s, false, disconnected) && !s.desync
      invariant Follows(plain, decode, ring.capacity, chunks[..handled], s, lists, false)
      decreases |chunks| - handled
    {
      assert chunks[..handled + 1] == chunks[..handled] + [chunks[handled]];
      seg, lists, disconnected, s :=
        FollowOne(ring, seg, chunks[handled], plain, decode, chunks[..handled], s, lists);
      handled := handled + 1;
    }
  }
}
