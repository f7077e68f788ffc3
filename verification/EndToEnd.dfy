/**
 From send_packet on one side to on_recv on the other, in both protocols: the packets a session of the engine has
 enqueued, through the send queue, partial completions and the socket, any completions on the receiving side, its ring
 and frame loop, decoding, and the workers that hand the payloads on.
 */
module EndToEnd {
  import opened Bytes
  import opened Sequences
  import opened PacketFormats
  import opened Frames
  import opened ReceiveSessions
  import opened Deliveries
  import opened ServerFrames
  import opened SessionLoops
  import EngineModel
  import EngineTheorems

  // ---------------------------------------------------------------- the obfuscated protocol

  function NetReceiver(code: Byte, fixedKey: Byte, capacity: nat): Receiver {
    Receiver(Net(code), DecoderOf(fixedKey), capacity)
  }

  function Payloads(ps: seq<Outgoing>): (r: seq<seq<Byte>>)
    ensures |r| == |ps|
  {
    seq(|ps|, (k: nat) requires k < |ps| => ps[k].payload)
  }

  /** Encoded packets are recognised by the receive loop and decode to what they were made from. */
  lemma NetCarries(code: Byte, fixedKey: Byte, capacity: nat, ps: seq<Outgoing>)
    requires Sendable(ps) && capacity > 0
    ensures Carries(NetReceiver(code, fixedKey, capacity), Wires(code, fixedKey, ps), Payloads(ps))
  {
    var w := Wires(code, fixedKey, ps);
    NetStable(code);
    forall k | 0 <= k < |w|
      ensures Framed(Net(code), w[k]) && DecoderOf(fixedKey)(w[k]) == Payload(ps[k].payload)
    {
      NetFramed(code, fixedKey, ps[k].randomKey, ps[k].payload);
      DecodeEncode(code, fixedKey, ps[k].randomKey, ps[k].payload);
    }
  }

  /** What Receivers.HandleCompletions makes of a sent stream: together its lists are exactly the payloads whose frames
      have ended by its last completion, in order; nothing is out of step or corrupt, so only a full ring
      disconnects. */
  lemma SentIsDelivered(code: Byte, fixedKey: Byte, capacity: nat, ps: seq<Outgoing>, chunks: seq<seq<Byte>>)
    requires Sendable(ps) && capacity > 0 && Concat(chunks) <= Concat(Wires(code, fixedKey, ps))
    ensures var s := Run(Net(code), capacity, chunks);
      var lists := Lists(s.batches, DecoderOf(fixedKey));
      var m := |Concat(lists)|;
      && m <= |ps| && Concat(lists) == Payloads(ps)[..m]
      && (forall k: nat :: k < |ps| ==> (k < m <==> EndOf(Wires(code, fixedKey, ps), k) <= |Concat(chunks)|))
      && !s.desync && !SomeCorrupt(s.batches, DecoderOf(fixedKey))
  {
    NetCarries(code, fixedKey, capacity, ps);
    SessionYields(NetReceiver(code, fixedKey, capacity), Wires(code, fixedKey, ps), Payloads(ps), chunks);
  }

  /** Whatever front part of a sent stream arrives, in whatever completions, and however the workers interleave. */
  lemma WireRoundTrip(code: Byte, fixedKey: Byte, capacity: nat, ps: seq<Outgoing>, run: seq<Event>)
    requires Sendable(ps) && capacity > 0
    requires var r := NetReceiver(code, fixedKey, capacity);
      Concat(Exec(r, run).chunks) <= Concat(Wires(code, fixedKey, ps))
    ensures Delivers(NetReceiver(code, fixedKey, capacity), Wires(code, fixedKey, ps), Payloads(ps), run)
  {
    NetCarries(code, fixedKey, capacity, ps);
    DeliversWhatArrived(NetReceiver(code, fixedKey, capacity), Wires(code, fixedKey, ps), Payloads(ps), run);
  }

  /** End to end: of the packets that a slot of any run of the sending engine has enqueued, the receiver hands on those
      that its socket has taken whole and the network has brought, as WireRoundTrip says. */
  lemma SentIsHandedOn(n: nat, others: seq<bool>, engine: seq<EngineModel.Label>, i: nat,
                       code: Byte, fixedKey: Byte, capacity: nat, ps: seq<Outgoing>, run: seq<Event>)
    requires Sendable(ps) && capacity > 0
    requires var s := EngineModel.Exec(EngineModel.Init(n, others), engine);
      && i < |s.slots| && s.slots[i].queue.enqueued == Wires(code, fixedKey, ps)
      && Concat(Exec(NetReceiver(code, fixedKey, capacity), run).chunks) <= s.slots[i].queue.wire
    ensures Delivers(NetReceiver(code, fixedKey, capacity), Wires(code, fixedKey, ps), Payloads(ps), run)
  {
    EngineTheorems.StreamConserved(n, others, engine);
    WireRoundTrip(code, fixedKey, capacity, ps, run);
  }

  /** A payload whose frame is longer than the receive ring is never handed on, whatever the completions, and the
      session does not outlive it, though the format allows payloads eight times as long. */
  lemma LongPayloadNeverArrives(code: Byte, fixedKey: Byte, p: Outgoing, run: seq<Event>)
    requires RECV_BUFFER_CAPACITY - HEADER_SIZE < |p.payload| <= MAX_PAYLOAD_SIZE
    requires var r := NetReceiver(code, fixedKey, RECV_BUFFER_CAPACITY);
      Concat(Exec(r, run).chunks) <= Concat(Wires(code, fixedKey, [p]))
    ensures var r := NetReceiver(code, fixedKey, RECV_BUFFER_CAPACITY);
      var s := Exec(r, run);
      && Concat(ListsOf(r, s)) == []
      && (Ended(r.cut, r.capacity, Wires(code, fixedKey, [p]), s.chunks) ==> SessionOf(r, s.chunks).posted == 0)
  {
    NetCarries(code, fixedKey, RECV_BUFFER_CAPACITY, [p]);
    EncodedShape(code, fixedKey, p.randomKey, p.payload);
    LongFrameNeverHandedOn(NetReceiver(code, fixedKey, RECV_BUFFER_CAPACITY), Wires(code, fixedKey, [p]), Payloads([p]),
                           run, 0);
  }

  lemma PairCarries(code: Byte, fixedKey: Byte, capacity: nat, p: Outgoing, q: Outgoing)
    requires |p.payload| <= MAX_PAYLOAD_SIZE && |q.payload| <= MAX_PAYLOAD_SIZE && capacity > 0
    ensures var ws := Wires(code, fixedKey, [p, q]);
      && Carries(NetReceiver(code, fixedKey, capacity), ws, [p.payload, q.payload])
      && |ws[0]| == HEADER_SIZE + |p.payload| && |ws[1]| == HEADER_SIZE + |q.payload|
  {
    NetCarries(code, fixedKey, capacity, [p, q]);
    assert Payloads([p, q]) == [p.payload, q.payload];
    EncodedShape(code, fixedKey, p.randomKey, p.payload);
    EncodedShape(code, fixedKey, q.randomKey, q.payload);
  }

  /** Two packets that fit the ring together can reach on_recv in reverse. */
  lemma OrderCanReverse(code: Byte, fixedKey: Byte, capacity: nat, p: Outgoing, q: Outgoing)
    requires |p.payload| <= MAX_PAYLOAD_SIZE && |q.payload| <= MAX_PAYLOAD_SIZE
    requires 2 * HEADER_SIZE + |p.payload| + |q.payload| <= capacity
    ensures var r := NetReceiver(code, fixedKey, capacity);
      exists run :: Concat(Exec(r, run).chunks) == Concat(Wires(code, fixedKey, [p, q])) && Quiet(Exec(r, run))
                    && Values(Exec(r, run).log) == [q.payload, p.payload]
  {
    PairCarries(code, fixedKey, capacity, p, q);
    OrderFails(NetReceiver(code, fixedKey, capacity), Wires(code, fixedKey, [p, q]), p.payload, q.payload);
  }

  // ---------------------------------------------------------------- the plain protocol

  function PlainReceiver(capacity: nat): Receiver {
    Receiver(Plain(), PlainDecoder(), capacity)
  }

  ghost predicate PlainSendable(payloads: seq<seq<Byte>>) {
    forall k :: 0 <= k < |payloads| ==> |payloads[k]| <= MAX_PAYLOAD_SIZE
  }

  lemma PlainCarries(capacity: nat, payloads: seq<seq<Byte>>)
    requires PlainSendable(payloads) && capacity > 0
    ensures Carries(PlainReceiver(capacity), PlainWires(payloads), payloads)
  {
    var w := PlainWires(payloads);
    PlainStable();
    forall k | 0 <= k < |w| ensures Framed(Plain(), w[k]) && PlainDecoder()(w[k]) == Payload(payloads[k]) {
      PlainFramed(payloads[k]);
      PlainRoundTrip(payloads[k]);
    }
  }

  /** The same for the twin server: its frames carry their payload in clear behind a 2-byte length. */
  lemma PlainWireRoundTrip(capacity: nat, payloads: seq<seq<Byte>>, run: seq<Event>)
    requires PlainSendable(payloads) && capacity > 0
    requires Concat(Exec(PlainReceiver(capacity), run).chunks) <= Concat(PlainWires(payloads))
    ensures Delivers(PlainReceiver(capacity), PlainWires(payloads), payloads, run)
  {
    PlainCarries(capacity, payloads);
    DeliversWhatArrived(PlainReceiver(capacity), PlainWires(payloads), payloads, run);
  }

  lemma PlainSentIsHandedOn(n: nat, others: seq<bool>, engine: seq<EngineModel.Label>, i: nat,
                            capacity: nat, payloads: seq<seq<Byte>>, run: seq<Event>)
    requires PlainSendable(payloads) && capacity > 0
    requires var s := EngineModel.Exec(EngineModel.Init(n, others), engine);
      && i < |s.slots| && s.slots[i].queue.enqueued == PlainWires(payloads)
      && Concat(Exec(PlainReceiver(capacity), run).chunks) <= s.slots[i].queue.wire
    ensures Delivers(PlainReceiver(capacity), PlainWires(payloads), payloads, run)
  {
    EngineTheorems.StreamConserved(n, others, engine);
    PlainWireRoundTrip(capacity, payloads, run);
  }

  lemma PlainLongPayloadNeverArrives(payload: seq<Byte>, run: seq<Event>)
    requires RECV_BUFFER_CAPACITY - PLAIN_HEADER_SIZE < |payload| <= MAX_PAYLOAD_SIZE
    requires Concat(Exec(PlainReceiver(RECV_BUFFER_CAPACITY), run).chunks) <= Concat(PlainWires([payload]))
    ensures var r := PlainReceiver(RECV_BUFFER_CAPACITY);
      var s := Exec(r, run);
      && Concat(ListsOf(r, s)) == []
      && (Ended(r.cut, r.capacity, PlainWires([payload]), s.chunks) ==> SessionOf(r, s.chunks).posted == 0)
  {
    PlainCarries(RECV_BUFFER_CAPACITY, [payload]);
    PlainRoundTrip(payload);
    LongFrameNeverHandedOn(PlainReceiver(RECV_BUFFER_CAPACITY), PlainWires([payload]), [payload], run, 0);
  }
}
