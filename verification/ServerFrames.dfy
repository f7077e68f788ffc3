/**
 How the receive loops of the two servers recognise and open their frames, and what their senders put on the wire.
 */
module ServerFrames {
  import opened Bytes
  import opened Sequences
  import opened Frames
  import opened Deliveries
  import opened PacketFormats

  // ---------------------------------------------------------------- the obfuscated protocol

  function FrameSize(s: seq<Byte>): nat
    requires |s| >= HEADER_SIZE
  {
    HEADER_SIZE + LengthOf(s[1], s[2])
  }

  /** The checks of the receive loop of the obfuscated protocol, in their order. */
  function NetCut(code: Byte, s: seq<Byte>): Cut {
    if |s| < HEADER_SIZE then More
    else if s[0] != code then Wrong
    else if |s| < FrameSize(s) then More
    else Frame(FrameSize(s))
  }

  function Net(code: Byte): Cutter {
    (s: seq<Byte>) => NetCut(code, s)
  }

  /** `net` is the cutter of this code. */
  ghost predicate Cuts(net: Cutter, code: Byte) {
    forall s: seq<Byte> {:trigger NetCut(code, s)} :: net(s) == NetCut(code, s)
  }

  lemma NetHeaderStays(code: Byte, s: seq<Byte>, t: seq<Byte>)
    requires |s| >= HEADER_SIZE
    ensures (s + t)[0] == s[0] && FrameSize(s + t) == FrameSize(s)
  {
    assert (s + t)[0] == s[0] && (s + t)[1] == s[1] && (s + t)[2] == s[2];
  }

  lemma NetStable(code: Byte)
    ensures Stable(Net(code))
  {
    forall s: seq<Byte>, t: seq<Byte>
      ensures Ready(Net(code), s) ==> Net(code)(s + t) == Net(code)(s)
      ensures Net(code)(s).Wrong? ==> Net(code)(s + t).Wrong?
    {
      if |s| >= HEADER_SIZE {
        NetHeaderStays(code, s, t);
      }
    }
  }

  /** An encoded packet is recognised exactly when it has fully arrived. */
  lemma NetFramed(code: Byte, fixedKey: Byte, randomKey: Byte, payload: seq<Byte>)
    requires |payload| <= MAX_PAYLOAD_SIZE
    ensures Framed(Net(code), Encoded(code, fixedKey, randomKey, payload))
  {
    var w := Encoded(code, fixedKey, randomKey, payload);
    EncodedShape(code, fixedKey, randomKey, payload);
    assert FrameSize(w) == |w|;
    forall t: seq<Byte> ensures Net(code)(w + t) == Frame(|w|) {
      NetHeaderStays(code, w, t);
    }
    forall s: seq<Byte> | s < w ensures Net(code)(s).More? {
      if |s| >= HEADER_SIZE {
        NetHeaderStays(code, s, w[|s|..]);
        assert s + w[|s|..] == w;
      }
    }
  }

  /** A packet as its sender makes it: a payload and the random key drawn for it. */
  datatype Outgoing = Outgoing(payload: seq<Byte>, randomKey: Byte)

  ghost predicate Sendable(ps: seq<Outgoing>) {
    forall k :: 0 <= k < |ps| ==> |ps[k].payload| <= MAX_PAYLOAD_SIZE
  }

  function Wires(code: Byte, fixedKey: Byte, ps: seq<Outgoing>): (w: seq<seq<Byte>>)
    ensures |w| == |ps|
  {
    seq(|ps|, (k: nat) requires k < |ps| => Encoded(code, fixedKey, ps[k].randomKey, ps[k].payload))
  }

  function Decode(frame: seq<Byte>, fixedKey: Byte): Decoded
    requires |frame| >= HEADER_SIZE
  {
    var plain := Opened(frame, fixedKey);
    if Genuine(plain) then Payload(plain[HEADER_SIZE..]) else Corrupt
  }

  /** `decode` is decoding under this key. */
  ghost predicate Decodes(decode: Decoder, fixedKey: Byte) {
    forall f: seq<Byte> {:trigger Decode(f, fixedKey)} :: |f| >= HEADER_SIZE ==> decode(f) == Decode(f, fixedKey)
  }

  /** Decoding as a function on all byte strings. */
  function DecoderOf(fixedKey: Byte): Decoder {
    (f: seq<Byte>) => if |f| >= HEADER_SIZE then Decode(f, fixedKey) else Corrupt
  }

  // ---------------------------------------------------------------- the plain protocol

  function PlainSize(s: seq<Byte>): nat
    requires |s| >= PLAIN_HEADER_SIZE
  {
    PLAIN_HEADER_SIZE + LengthOf(s[0], s[1])
  }

  function PlainCut(s: seq<Byte>): Cut {
    if |s| < PLAIN_HEADER_SIZE then More
    else if |s| < PlainSize(s) then More
    else Frame(PlainSize(s))
  }

  function Plain(): Cutter {
    (s: seq<Byte>) => PlainCut(s)
  }

  lemma PlainHeaderStays(s: seq<Byte>, t: seq<Byte>)
    requires |s| >= PLAIN_HEADER_SIZE
    ensures PlainSize(s + t) == PlainSize(s)
  {
    assert (s + t)[0] == s[0] && (s + t)[1] == s[1];
  }

  lemma PlainStable()
    ensures Stable(Plain())
  {
    forall s: seq<Byte>, t: seq<Byte>
      ensures Ready(Plain(), s) ==> Plain()(s + t) == Plain()(s)
      ensures !Plain()(s).Wrong?
    {
      if |s| >= PLAIN_HEADER_SIZE {
        PlainHeaderStays(s, t);
      }
    }
  }

  lemma PlainFramed(payload: seq<Byte>)
    requires |payload| <= MAX_PAYLOAD_SIZE
    ensures Framed(Plain(), PlainEncoded(payload))
  {
    var w := PlainEncoded(payload);
    PlainRoundTrip(payload);
    assert PlainSize(w) == |w|;
    forall t: seq<Byte> ensures Plain()(w + t) == Frame(|w|) {
      PlainHeaderStays(w, t);
    }
    forall s: seq<Byte> | s < w ensures Plain()(s).More? {
      if |s| >= PLAIN_HEADER_SIZE {
        PlainHeaderStays(s, w[|s|..]);
        assert s + w[|s|..] == w;
      }
    }
  }

  /** There is nothing to decode: the payload is what follows the length. */
  function PlainDecoder(): Decoder {
    (f: seq<Byte>) => if |f| >= PLAIN_HEADER_SIZE then Payload(f[PLAIN_HEADER_SIZE..]) else Corrupt
  }

  function PlainWires(payloads: seq<seq<Byte>>): (w: seq<seq<Byte>>)
    ensures |w| == |payloads|
  {
    seq(|payloads|, (k: nat) requires k < |payloads| => PlainEncoded(payloads[k]))
  }
}
