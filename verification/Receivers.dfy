/**
 What a worker does with a receive completion (net_server.cpp): commit the bytes, post the next receive, cut out the
 whole frames, decode and deliver them.  Group dispatch and the user callback are the `delivered` list.
 */
module Receivers {
  import opened Bytes
  import opened Sequences
  import opened Frames
  import opened PacketFormats
  import opened ServerFrames
  import opened ReceiveSessions
  import opened Deliveries
  import opened SessionLoops
  import opened RingArithmetic
  import opened RingBuffers
  import opened NetPackets

  /** One whole frame moves from the front of the ring into a new packet. */
  method TakeFrame(ring: RingBuffer, header: array<Byte>, payloadLength: nat) returns (packet: NetPacketBuffer)
    requires ring.Valid() && header.Length == HEADER_SIZE && header != ring.buffer
    requires HEADER_SIZE + payloadLength <= ring.UsedSize() && payloadLength <= MAX_PAYLOAD_SIZE
    requires header[..] == ring.Contents()[..HEADER_SIZE]
    modifies ring`readIndex
    ensures ring.Valid() && ring.FreeSize() > old(ring.FreeSize())
    ensures fresh(packet) && fresh(packet.base) && fresh(packet.base.buffer) && packet.Valid()
    ensures packet.Wire() == old(ring.Contents())[..HEADER_SIZE + payloadLength]
    ensures ring.Contents() == old(ring.Contents())[HEADER_SIZE + payloadLength..]
  {
    ghost var stream := ring.Contents();
    SplitFrame(stream, HEADER_SIZE, payloadLength);
    ring.CommitDirectRead(HEADER_SIZE);
    packet := new NetPacketBuffer(payloadLength);
    packet.SetHeader(header[..]);
    var ok := ring.Read(packet.base.buffer, HEADER_SIZE, payloadLength);
    packet.base.CommitDirectSerialize(payloadLength);
    assert packet.base.buffer[..HEADER_SIZE] == stream[..HEADER_SIZE];
  }

  /** What is at the front of the ring, and its header if there is one. */
  method PeekHeader(ring: RingBuffer, code: Byte, ghost net: Cutter) returns (cut: Cut, header: array<Byte>)
    requires ring.Valid() && Cuts(net, code)
    ensures cut == net(ring.Contents())
    ensures fresh(header) && header.Length == HEADER_SIZE
    ensures cut.Frame? ==>
      && HEADER_SIZE <= cut.size <= ring.UsedSize() && cut.size <= HEADER_SIZE + MAX_PAYLOAD_SIZE
      && header[..] == ring.Contents()[..HEADER_SIZE]
  {
    header := new Byte[HEADER_SIZE];
    ghost var stream := ring.Contents();
    assert net(stream) == NetCut(code, stream);
    if ring.UsedSize() < HEADER_SIZE {
      return More, header;
    }
    var ok := ring.Peek(header, 0, HEADER_SIZE);
    assert header[..] == stream[..HEADER_SIZE];
    assert forall k :: 0 <= k < HEADER_SIZE ==> header[k] == header[..][k] == stream[..HEADER_SIZE][k] == stream[k];
    if header[0] != code {
      return Wrong, header;
    }
    var totalSize := HEADER_SIZE + LengthOf(header[1], header[2]);
    if ring.UsedSize() < totalSize {
      return More, header;
    }
    cut := Frame(totalSize);
  }

  ghost predicate Separate(packets: seq<NetPacketBuffer>) {
    forall i, j :: 0 <= i < j < |packets| ==> packets[i].base.buffer != packets[j].base.buffer
  }

  /** One round of the frame loop.  The packets extracted before keep their bytes. */
  method ExtractOne(ring: RingBuffer, code: Byte, ghost net: Cutter, ghost packets: seq<NetPacketBuffer>,
                    ghost frames: seq<seq<Byte>>)
    returns (cut: Cut, packet: NetPacketBuffer?)
    requires ring.Valid() && Cuts(net, code) && |packets| <= |frames|
    requires forall k :: 0 <= k < |packets| ==> packets[k].Valid() && packets[k].Wire() == frames[k]
    modifies ring`readIndex
    ensures forall k :: 0 <= k < |packets| ==> packets[k].Valid() && packets[k].Wire() == frames[k]
    ensures ring.Valid() && cut == net(old(ring.Contents()))
    ensures cut.Frame? <==> packet != null
    ensures packet == null ==> ring.Contents() == old(ring.Contents())
    ensures packet != null ==>
      && fresh(packet) && fresh(packet.base) && fresh(packet.base.buffer) && packet.Valid()
      && 0 < cut.size <= |old(ring.Contents())|
      && packet.Wire() == old(ring.Contents())[..cut.size]
      && ring.Contents() == old(ring.Contents())[cut.size..]
      && forall k :: 0 <= k < |packets| ==> packets[k].base.buffer != packet.base.buffer
  {
    var header;
    cut, header := PeekHeader(ring, code, net);
    packet := null;
    if cut.Frame? {
      packet := TakeFrame(ring, header, cut.size - HEADER_SIZE);
    }
  }

  /** The frame loop: it stops, with everything extracted that has fully arrived.  The write index does not move, so a
      receive posted before stays where it is. */
  method ExtractFrames(ring: RingBuffer, code: Byte, ghost net: Cutter)
    returns (packets: seq<NetPacketBuffer>, desync: bool)
    requires ring.Valid() && Cuts(net, code)
    modifies ring`readIndex
    ensures ring.Valid() && Separate(packets)
    ensures forall k :: 0 <= k < |packets| ==> fresh(packets[k].base.buffer)
    ensures var p := Parse(net, old(ring.Contents()));
      && |packets| == |p.frames|
      && (forall k :: 0 <= k < |packets| ==> packets[k].Valid() && packets[k].Wire() == p.frames[k])
      && desync == p.desync && ring.Contents() == p.rest
  {
    packets, desync := [], false;
    ghost var whole := Parse(net, ring.Contents());
    while true
      invariant ring.Valid() && !desync && Separate(packets) && |packets| <= |whole.frames|
      invariant forall k :: 0 <= k < |packets| ==> fresh(packets[k].base.buffer)
      invariant forall k :: 0 <= k < |packets| ==> packets[k].Valid() && packets[k].Wire() == whole.frames[k]
      invariant Parse(net, ring.Contents()) == Parsed(whole.frames[|packets|..], whole.rest, whole.desync)
      decreases |ring.Contents()|
    {
      ghost var stream := ring.Contents();
      var cut, packet := ExtractOne(ring, code, net, packets, whole.frames);
      if packet == null {
        desync := cut.Wrong?;
        break;
      }
      ParseHead(net, stream, whole.frames, |packets|);
      packets := packets + [packet];
    }
  }

  // ---------------------------------------------------------------- delivery

  /** Decodes packet i; the later ones keep their bytes. */
  method DecodeOne(packets: seq<NetPacketBuffer>, i: nat, fixedKey: Byte, ghost frames: seq<seq<Byte>>,
                   ghost decode: Decoder)
    returns (ok: bool, payload: seq<Byte>)
    requires i < |packets| == |frames| && Separate(packets) && Decodes(decode, fixedKey)
    requires forall k :: i <= k < |packets| ==> packets[k].Valid() && packets[k].Wire() == frames[k]
    modifies packets[i].base.buffer
    ensures forall k :: i < k < |packets| ==> packets[k].Valid() && packets[k].Wire() == frames[k]
    ensures decode(frames[i]) == if ok then Payload(payload) else Corrupt
  {
    var packet, frame := packets[i], frames[i];
    assert decode(frame) == Decode(frame, fixedKey);
    ok := packet.Decode(fixedKey);
    payload := packet.base.buffer[HEADER_SIZE..HEADER_SIZE + packet.base.DataSize()];
    assert payload == packet.Wire()[HEADER_SIZE..];
  }

  /** Decodes and delivers packet after packet; a packet that fails its checksum ends it. */
  method DeliverAll(packets: seq<NetPacketBuffer>, fixedKey: Byte, ghost frames: seq<seq<Byte>>, ghost decode: Decoder)
    returns (payloads: seq<seq<Byte>>, corrupt: bool)
    requires Separate(packets) && |packets| == |frames| && Decodes(decode, fixedKey)
    requires forall k :: 0 <= k < |packets| ==> packets[k].Valid() && packets[k].Wire() == frames[k]
    modifies set p | p in packets :: p.base.buffer
    ensures Delivery(payloads, corrupt) == Deliver(Decodings(frames, decode))
  {
    payloads, corrupt := [], false;
    ghost var ds := Decodings(frames, decode);
    for i := 0 to |packets|
      invariant !corrupt && Deliver(ds[..i]) == Delivery(payloads, false)
      invariant forall k :: i <= k < |packets| ==> packets[k].Valid() && packets[k].Wire() == frames[k]
    {
      assert packets[i] in packets;
      var ok, payload := DecodeOne(packets, i, fixedKey, frames, decode);
      assert ds[..i + 1][..i] == ds[..i];
      if !ok {
        CorruptEnds(ds, i + 1);
        return payloads, true;
      }
      payloads := payloads + [payload];
    }
    assert ds[..|packets|] == ds;
  }

  // ---------------------------------------------------------------- a receive completion

  /** A worker handles a receive of n bytes that the kernel has placed behind the write index.  The next receive is
      posted before the frames are cut out, so a ring that these bytes fill to capacity is disconnected even when whole
      frames are waiting in it - and only then, or when the stream loses step or a packet fails its checksum. */
  method OnReceive(ring: RingBuffer, code: Byte, fixedKey: Byte, n: nat) returns (r: Outcome, seg: Segments)
    requires ring.Valid() && n <= ring.FreeSize()
    modifies ring`readIndex, ring`writeIndex
    ensures ring.Valid()
    ensures var stream := old(ring.Contents()) + Logical(old(ring.buffer[..]), old(ring.writeIndex), n);
      var p := Parse(Net(code), stream);
      && ring.Contents() == p.rest
      && var d := Deliver(Decodings(p.frames, DecoderOf(fixedKey)));
      && r.payloads == d.payloads
      && (r.posted <==> |stream| < ring.capacity)
      && (r.disconnect <==> |stream| == ring.capacity || d.corrupt || p.desync)
      && (r.posted ==> ring.PostedInto(seg) && seg.firstSize + seg.secondSize == ring.capacity - |stream|)
  {
    ring.CommitDirectWrite(n);
    ghost var stream := ring.Contents();
    var full := ring.FreeSize() == 0;
    seg := ring.SegmentsForReceive();
    ghost var net, decode := Net(code), DecoderOf(fixedKey);
    var packets, desync := ExtractFrames(ring, code, net);
    ParseExact(net, stream);
    var payloads, corrupt := DeliverAll(packets, fixedKey, Parse(net, stream).frames, decode);
    r := Outcome(!full, payloads, full || corrupt || desync);
  }

  /** The receive posted before, of the size the session says, brings a chunk, and a worker handles it. */
  method CompleteOne(ring: RingBuffer, posted: Segments, code: Byte, fixedKey: Byte, chunk: seq<Byte>, ghost s: Session)
    returns (outcome: Outcome, seg: Segments)
    requires ring.PostedInto(posted) && ring.Contents() == s.rest
    requires |chunk| <= posted.firstSize + posted.secondSize == s.posted
    modifies ring`readIndex, ring`writeIndex, ring.buffer
    ensures var t := Complete(Net(code), ring.capacity, s, chunk);
      var d := Deliver(Decodings(t.batches[|s.batches|], DecoderOf(fixedKey)));
      && ring.Valid() && ring.Contents() == t.rest
      && outcome.payloads == d.payloads
      && (outcome.disconnect <==> t.posted == 0 || t.desync || d.corrupt)
      && (!outcome.disconnect ==> ring.PostedInto(seg) && seg.firstSize + seg.secondSize == t.posted)
  {
    ring.Receive(posted, chunk);
    outcome, seg := OnReceive(ring, code, fixedKey, |chunk|);
  }

  method FollowOne(ring: RingBuffer, posted: Segments, code: Byte, fixedKey: Byte, chunk: seq<Byte>,
                   ghost net: Cutter, ghost decode: Decoder, ghost done: seq<seq<Byte>>, ghost s: Session,
                   lists: seq<seq<seq<Byte>>>, ghost corrupt: bool)
    returns (seg: Segments, lists': seq<seq<seq<Byte>>>, disconnected: bool, ghost t: Session, ghost corrupt': bool)
    requires net == Net(code) && decode == DecoderOf(fixedKey)
    requires InStep(ring, posted, s, corrupt, false) && 0 < |chunk| <= posted.firstSize + posted.secondSize
    requires Follows(net, decode, ring.capacity, done, s, lists, corrupt)
    modifies ring`readIndex, ring`writeIndex, ring.buffer
    ensures InStep(ring, seg, t, corrupt', disconnected)
    ensures Follows(net, decode, ring.capacity, done + [chunk], t, lists', corrupt')
  {
    FollowsOneMore(net, decode, ring.capacity, done, s, lists, corrupt, chunk);
    var outcome;
    outcome, seg := CompleteOne(ring, posted, code, fixedKey, chunk, s);
    t := Complete(net, ring.capacity, s, chunk);
    corrupt' := corrupt || Deliver(Decodings(t.batches[|s.batches|], decode)).corrupt;
    lists', disconnected := lists + [outcome.payloads], outcome.disconnect;
  }

  /**
   A whole session with one worker: each chunk is what the network brings in a completion.  It goes on until it is
   disconnected, and stops early only at a chunk that the posted receive cannot bring.  What it hands on, completion by
   completion, and what it keeps is what the session's run says; it disconnects exactly when a completion fills the
   ring, the stream loses step or a packet is corrupt.
  */
  method HandleCompletions(ring: RingBuffer, code: Byte, fixedKey: Byte, chunks: seq<seq<Byte>>)
    returns (handled: nat, lists: seq<seq<seq<Byte>>>, disconnected: bool)
    requires ring.Valid() && ring.Contents() == [] && ring.capacity > 0
    modifies ring`readIndex, ring`writeIndex, ring.buffer
    ensures ring.Valid() && handled <= |chunks|
    ensures var net, decode := Net(code), DecoderOf(fixedKey);
      var s := Run(net, ring.capacity, chunks[..handled]);
      && Feasible(net, ring.capacity, chunks[..handled])
      && ring.Contents() == s.rest && lists == Lists(s.batches, decode)
      && (disconnected <==> s.posted == 0 || s.desync || SomeCorrupt(s.batches, decode))
      && (!disconnected && handled < |chunks| ==> !(0 < |chunks[handled]| <= s.posted))
  {
    ghost var net, decode := Net(code), DecoderOf(fixedKey);
    ghost var s, corrupt := Run(net, ring.capacity, []), false;
    handled, lists, disconnected := 0, [], false;
    var seg := ring.SegmentsForReceive();
    while handled < |chunks| && !disconnected && 0 < |chunks[handled]| <= seg.firstSize + seg.secondSize
      invariant handled <= |chunks| && InStep(ring, seg, s, corrupt, disconnected)
      invariant Follows(net, decode, ring.capacity, chunks[..handled], s, lists, corrupt)
      decreases |chunks| - handled
    {
      assert chunks[..handled + 1] == chunks[..handled] + [chunks[handled]];
      seg, lists, disconnected, s, corrupt :=
        FollowOne(ring, seg, code, fixedKey, chunks[handled], net, decode, chunks[..handled], s, lists, corrupt);
      handled := handled + 1;
    }
  }
}
