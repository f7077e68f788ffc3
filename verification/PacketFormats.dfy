/**
 The two wire formats as byte sequences: Code(1) Len(2) RandKey(1) CheckSum(1) Payload with checksum and payload
 obfuscated (net_packet_buffer.hpp), and Len(2) Payload (packet_buffer.hpp).
 */
module PacketFormats {
  import opened Bytes
  import opened Obfuscator

  const HEADER_SIZE: nat := 5
  const LEN_OFFSET: nat := 1
  const RANDKEY_OFFSET: nat := 3
  const CHECKSUM_OFFSET: nat := 4
  const MAX_PAYLOAD_SIZE: nat := 0xFFFF

  const PLAIN_HEADER_SIZE: nat := 2

  /** The low byte of the payload byte sum. */
  function Checksum(s: seq<Byte>): Byte {
    if s == [] then 0 else Checksum(s[..|s| - 1]) + s[|s| - 1]
  }

  /** A packet between build_header and encode. */
  function Raw(code: Byte, randomKey: Byte, payload: seq<Byte>): seq<Byte> {
    [code] + LengthBytes(|payload|) + [randomKey] + [Checksum(payload)] + payload
  }

  /** What encode makes of such a packet: checksum and payload are obfuscated in one block. */
  function Sealed(raw: seq<Byte>, fixedKey: Byte): seq<Byte>
    requires |raw| >= HEADER_SIZE
  {
    raw[..CHECKSUM_OFFSET] + Obfuscate(raw[CHECKSUM_OFFSET..], fixedKey, raw[RANDKEY_OFFSET])
  }

  /** A payload on the wire. */
  function Encoded(code: Byte, fixedKey: Byte, randomKey: Byte, payload: seq<Byte>): seq<Byte> {
    Sealed(Raw(code, randomKey, payload), fixedKey)
  }

  /** What decode makes of a received packet. */
  function Opened(frame: seq<Byte>, fixedKey: Byte): seq<Byte>
    requires |frame| >= HEADER_SIZE
  {
    frame[..CHECKSUM_OFFSET] + Deobfuscate(frame[CHECKSUM_OFFSET..], fixedKey, frame[RANDKEY_OFFSET])
  }

  /** decode's success test. */
  predicate Genuine(plain: seq<Byte>)
    requires |plain| >= HEADER_SIZE
  {
    plain[CHECKSUM_OFFSET] == Checksum(plain[HEADER_SIZE..])
  }

  lemma RawShape(code: Byte, randomKey: Byte, payload: seq<Byte>)
    ensures var raw := Raw(code, randomKey, payload);
      && |raw| == HEADER_SIZE + |payload|
      && raw[0] == code && raw[1..3] == LengthBytes(|payload|) && raw[RANDKEY_OFFSET] == randomKey
      && raw[CHECKSUM_OFFSET] == Checksum(payload) && raw[HEADER_SIZE..] == payload
  {
  }

  /** The cleartext header of a frame tells its code, its payload's length and its key. */
  lemma EncodedShape(code: Byte, fixedKey: Byte, randomKey: Byte, payload: seq<Byte>)
    requires |payload| <= MAX_PAYLOAD_SIZE
    ensures var frame := Encoded(code, fixedKey, randomKey, payload);
      && |frame| == HEADER_SIZE + |payload|
      && frame[0] == code && LengthOf(frame[1], frame[2]) == |payload| && frame[RANDKEY_OFFSET] == randomKey
  {
    RawShape(code, randomKey, payload);
    var raw, frame := Raw(code, randomKey, payload), Encoded(code, fixedKey, randomKey, payload);
    assert frame[1] == raw[1] == raw[1..3][0] && frame[2] == raw[2] == raw[1..3][1];
    LengthRoundTrip(|payload|);
  }

  /** Decoding undoes encoding, for every payload and every pair of keys. */
  lemma DecodeEncode(code: Byte, fixedKey: Byte, randomKey: Byte, payload: seq<Byte>)
    ensures var frame := Encoded(code, fixedKey, randomKey, payload);
      && |frame| == HEADER_SIZE + |payload|
      && Genuine(Opened(frame, fixedKey))
      && Opened(frame, fixedKey)[HEADER_SIZE..] == payload
  {
    RawShape(code, randomKey, payload);
    var raw, frame := Raw(code, randomKey, payload), Encoded(code, fixedKey, randomKey, payload);
    var block := raw[CHECKSUM_OFFSET..];
    CipherRoundTrip(block, fixedKey, randomKey);
    assert frame[CHECKSUM_OFFSET..] == Obfuscate(block, fixedKey, randomKey);
    assert frame[RANDKEY_OFFSET] == randomKey;
    assert Opened(frame, fixedKey) == raw[..CHECKSUM_OFFSET] + block == raw;
  }

  /** The 2-byte format. */
  function PlainEncoded(payload: seq<Byte>): seq<Byte> {
    LengthBytes(|payload|) + payload
  }

  lemma PlainRoundTrip(payload: seq<Byte>)
    requires |payload| <= MAX_PAYLOAD_SIZE
    ensures var frame := PlainEncoded(payload);
      && |frame| == PLAIN_HEADER_SIZE + |payload|
      && LengthOf(frame[0], frame[1]) == |payload|
      && frame[PLAIN_HEADER_SIZE..] == payload
  {
    LengthRoundTrip(|payload|);
  }
}
