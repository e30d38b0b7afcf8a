/** The framed audio packet: a 12-byte header of three U32 words (sequence,
    timestamp in seconds, payload length in bytes) followed by the payload,
    and the check every receiver in the test harness applies to it. The three
    receivers (the local one of the standalone test, the unit-test
    PacketReceiver and the component tester) run the same checks in the same
    order, except that the standalone test's receiver has no sample scan; the
    scan never rejects, so the shared `Check` gives all three the same
    verdicts, and the three classes only keep their own counters. */
module PacketFormat {
  import opened Wire

  const HeaderSize: nat := 12
  const MaxDataSize: nat := 10000
  /** The sample scan looks at no more than this many leading samples. */
  const SamplesScanned: nat := 10

  datatype Header = Header(sequence: U32, timestamp: U32, dataSize: U32)

  /** The bytes a sender writes: header words, then the payload. */
  function EncodePacket(sequence: U32, timestamp: U32, payload: seq<Byte>): (pkt: seq<Byte>)
    requires |payload| < Modulus32
    ensures |pkt| == HeaderSize + |payload|
    ensures pkt[HeaderSize..] == payload
  {
    EncodeU32(sequence) + EncodeU32(timestamp) + EncodeU32(|payload|) + payload
  }

  /** The three header words a receiver reads from the first 12 bytes. */
  function DecodeHeader(pkt: seq<Byte>): Header
    requires |pkt| >= HeaderSize
  {
    Header(DecodeU32(pkt[0..4]), DecodeU32(pkt[4..8]), DecodeU32(pkt[8..12]))
  }

  /** A receiver reads back exactly the header the sender wrote. */
  lemma DecodeEncodePacket(sequence: U32, timestamp: U32, payload: seq<Byte>)
    requires |payload| < Modulus32
    ensures DecodeHeader(EncodePacket(sequence, timestamp, payload)) == Header(sequence, timestamp, |payload|)
  {
    var pkt := EncodePacket(sequence, timestamp, payload);
    assert pkt[0..4] == EncodeU32(sequence);
    assert pkt[4..8] == EncodeU32(timestamp);
    assert pkt[8..12] == EncodeU32(|payload|);
    DecodeEncodeU32(sequence);
    DecodeEncodeU32(timestamp);
    DecodeEncodeU32(|payload|);
  }

  /** Conversely, every buffer whose length word matches its length is the
      encoding of its own header and payload. */
  lemma EncodeDecodePacket(pkt: seq<Byte>)
    requires |pkt| >= HeaderSize && DecodeHeader(pkt).dataSize == |pkt| - HeaderSize
    ensures EncodePacket(DecodeHeader(pkt).sequence, DecodeHeader(pkt).timestamp, pkt[HeaderSize..]) == pkt
  {
    EncodeDecodeU32(pkt[0..4]);
    EncodeDecodeU32(pkt[4..8]);
    EncodeDecodeU32(pkt[8..12]);
    assert pkt == pkt[0..4] + pkt[4..8] + pkt[8..12] + pkt[HeaderSize..];
  }

  /** The outcome of validating one buffer, one case per early return. */
  datatype Verdict =
    | TooSmall
    | SequenceError(got: U32)
    | SizeMismatch
    | BadTimestamp
    | BadDataSize
    | BadSample
    | Accepted(sequence: U32)

  /** The scan of the first samples for values outside the range of a
      `short`, which walks samples `i` up to `count`. */
  predicate SamplesInRange(pkt: seq<Byte>, i: nat, count: nat)
    requires HeaderSize + 2 * count <= |pkt|
    decreases count - i
  {
    if i >= count then true
    else
      var s := DecodeI16(pkt[HeaderSize + 2 * i], pkt[HeaderSize + 2 * i + 1]) as int;
      if s < -32768 || s > 32767 then false else SamplesInRange(pkt, i + 1, count)
  }

  /** A decoded `short` is always in the range of a `short`, so the sample
      scan never rejects. */
  lemma {:induction false} SamplesAlwaysInRange(pkt: seq<Byte>, i: nat, count: nat)
    requires HeaderSize + 2 * count <= |pkt|
    ensures SamplesInRange(pkt, i, count)
    decreases count - i
  {
    if i < count {
      SamplesAlwaysInRange(pkt, i + 1, count);
    }
  }

  function Min(a: nat, b: nat): nat { if a <= b then a else b }

  /** The reference meaning of an acceptable packet, in unbounded arithmetic:
      a complete header, the expected sequence number, a length word that
      accounts for every byte, and a payload of 1 to 10000 bytes. */
  predicate Acceptable(expected: U32, pkt: seq<Byte>)
  {
    |pkt| >= HeaderSize &&
    DecodeHeader(pkt).sequence == expected &&
    |pkt| == HeaderSize + DecodeHeader(pkt).dataSize &&
    1 <= DecodeHeader(pkt).dataSize <= MaxDataSize
  }

  /** The checks of a receiver, in the order the receivers run them. The
      expected total size is computed in U32 and may wrap; the timestamp and
      sample checks are kept although they can never fail. */
  function Check(expected: U32, pkt: seq<Byte>): (v: Verdict)
    ensures v.Accepted? <==> Acceptable(expected, pkt)
    ensures v.Accepted? ==> v.sequence == expected
    ensures v == TooSmall <==> |pkt| < HeaderSize
    ensures v.SequenceError? <==> |pkt| >= HeaderSize && DecodeHeader(pkt).sequence != expected
    ensures v.SequenceError? ==> v.got == DecodeHeader(pkt).sequence
    ensures !v.BadTimestamp? && !v.BadSample?
  {
    if |pkt| < HeaderSize then TooSmall
    else
      var h := DecodeHeader(pkt);
      if h.sequence != expected then SequenceError(h.sequence)
      else if |pkt| != Add32(HeaderSize, h.dataSize) then SizeMismatch
      else if h.timestamp > MaxU32 then BadTimestamp
      else if h.dataSize == 0 || h.dataSize > MaxDataSize then BadDataSize
      else
        var count := Min(h.dataSize / 2, SamplesScanned);
        SamplesAlwaysInRange(pkt, 0, count);
        if !SamplesInRange(pkt, 0, count) then BadSample
        else Accepted(h.sequence)
  }

  /** The expected sequence number after a validation: a sequence error
      resynchronises to the sequence received plus one, an accepted packet
      advances it by one, and every other rejection leaves it alone. */
  function NextExpected(expected: U32, v: Verdict): U32
  {
    match v
    case SequenceError(got) => Add32(got, 1)
    case Accepted(sequence) => Add32(sequence, 1)
    case _ => expected
  }

  /** A packet framed with the expected sequence number and a payload of
      1 to 10000 bytes is accepted whatever its timestamp, and the receiver
      then expects the sender's next sequence number. */
  lemma FramedPacketAccepted(expected: U32, timestamp: U32, payload: seq<Byte>)
    requires 1 <= |payload| <= MaxDataSize
    ensures Check(expected, EncodePacket(expected, timestamp, payload)) == Accepted(expected)
    ensures NextExpected(expected, Check(expected, EncodePacket(expected, timestamp, payload))) == Add32(expected, 1)
  {
    DecodeEncodePacket(expected, timestamp, payload);
  }

  /** A well-framed packet that skips ahead is rejected, and the receiver
      resynchronises so that the sender's next packet is accepted. */
  lemma FramedPacketResyncs(expected: U32, sequence: U32, timestamp: U32, payload: seq<Byte>,
                            timestamp': U32, payload': seq<Byte>)
    requires sequence != expected
    requires 1 <= |payload'| <= MaxDataSize && |payload| < Modulus32
    ensures Check(expected, EncodePacket(sequence, timestamp, payload)) == SequenceError(sequence)
    ensures var next := NextExpected(expected, Check(expected, EncodePacket(sequence, timestamp, payload)));
            next == Add32(sequence, 1) &&
            Check(next, EncodePacket(Add32(sequence, 1), timestamp', payload')).Accepted?
  {
    DecodeEncodePacket(sequence, timestamp, payload);
    FramedPacketAccepted(Add32(sequence, 1), timestamp', payload');
  }

  /** Acceptance does not depend on the timestamp word or on the payload
      bytes: two buffers of the same length with the same sequence and
      length words get the same verdict. */
  lemma AcceptanceIgnoresTimestampAndSamples(expected: U32, p: seq<Byte>, q: seq<Byte>)
    requires |p| == |q| >= HeaderSize
    requires p[0..4] == q[0..4] && p[8..12] == q[8..12]
    ensures Check(expected, p) == Check(expected, q)
  {
  }

  /** The worked example of the wire format: a 256-byte payload framed with
      sequence 7 at second 1000 is 268 bytes whose header words read back as
      (7, 1000, 256), stored least significant byte first. */
  lemma SequenceSevenExample(payload: seq<Byte>)
    requires |payload| == 256
    ensures |EncodePacket(7, 1000, payload)| == 268
    ensures EncodePacket(7, 1000, payload)[..HeaderSize] == [7, 0, 0, 0, 0xE8, 3, 0, 0, 0, 1, 0, 0]
    ensures DecodeHeader(EncodePacket(7, 1000, payload)) == Header(7, 1000, 256)
  {
    DecodeEncodePacket(7, 1000, payload);
  }
}
