/**
 What the receive loops of the two servers share: the outcome of a completion, and what their loops keep.
 */
module SessionLoops {
  import opened Bytes
  import opened Sequences
  import opened Frames
  import opened ReceiveSessions
  import opened Deliveries
  import opened RingBuffers

  /** What a completion leads to, besides the state of the ring. */
  datatype Outcome = Outcome(posted: bool, payloads: seq<seq<Byte>>, disconnect: bool)

  ghost predicate SomeCorrupt(batches: seq<seq<seq<Byte>>>, decode: Decoder) {
    exists i :: 0 <= i < |batches| && Deliver(Decodings(batches[i], decode)).corrupt
  }

  /** One more completion, in terms of the session's run. */
  lemma OneMoreCompletion(net: Cutter, decode: Decoder, capacity: nat, done: seq<seq<Byte>>, chunk: seq<Byte>)
    ensures var s, t := Run(net, capacity, done), Run(net, capacity, done + [chunk]);
      var p := Parse(net, s.rest + chunk);
      && t == Session(p.rest, capacity - |s.rest + chunk|, s.batches + [p.frames], p.desync)
      && Lists(t.batches, decode) == Lists(s.batches, decode) + [Deliver(Decodings(p.frames, decode)).payloads]
      && (SomeCorrupt(t.batches, decode)
          <==> SomeCorrupt(s.batches, decode) || Deliver(Decodings(p.frames, decode)).corrupt)
  {
    RunSnoc(net, capacity, done, chunk);
    var s, t := Run(net, capacity, done), Run(net, capacity, done + [chunk]);
    ListsSnoc(s.batches, Parse(net, s.rest + chunk).frames, decode);
    var n := |s.batches|;
    assert t.batches[n] == Parse(net, s.rest + chunk).frames;
    assert forall i :: 0 <= i < n ==> t.batches[i] == s.batches[i];
  }

  /** Where the session is after these completions, what it handed on, and whether a packet was corrupt. */
  ghost predicate Follows(net: Cutter, decode: Decoder, capacity: nat, done: seq<seq<Byte>>, s: Session,
                          lists: seq<seq<seq<Byte>>>, corrupt: bool)
  {
    && Feasible(net, capacity, done) && s == Run(net, capacity, done)
    && lists == Lists(s.batches, decode) && (corrupt <==> SomeCorrupt(s.batches, decode))
  }

  lemma FollowsOneMore(net: Cutter, decode: Decoder, capacity: nat, done: seq<seq<Byte>>, s: Session,
                       lists: seq<seq<seq<Byte>>>, corrupt: bool, chunk: seq<Byte>)
    requires Follows(net, decode, capacity, done, s, lists, corrupt) && 0 < |chunk| <= s.posted
    ensures var t := Complete(net, capacity, s, chunk);
      var d := Deliver(Decodings(t.batches[|s.batches|], decode));
      Follows(net, decode, capacity, done + [chunk], t, lists + [d.payloads], corrupt || d.corrupt)
  {
    RunSnoc(net, capacity, done, chunk);
    OneMoreCompletion(net, decode, capacity, done, chunk);
  }

  /** The loop's state: what the ring holds and what is posted are what the session's run says. */
  ghost predicate InStep(ring: RingBuffer, seg: Segments, s: Session, corrupt: bool, disconnected: bool)
    reads ring, ring.buffer
  {
    && ring.Valid() && ring.Contents() == s.rest
    && (disconnected <==> s.posted == 0 || s.desync || corrupt)
    && (disconnected || (ring.PostedInto(seg) && seg.firstSize + seg.secondSize == s.posted))
  }
}
