/** The standalone transmission test: a mock of the sound card's transmit
    path that frames payloads into one reusable buffer, and a local receiver
    that validates packets and counts the outcomes. */
module SimpleTest {
  import opened Wire
  import opened PacketFormat

  /** Payload capacity of the transmission buffer: 1024 samples of 2 bytes. */
  const MaxAudioSize: nat := 2048
  const TotalSize: nat := HeaderSize + MaxAudioSize
  /** Length of the self-test payload: 128 samples of 2 bytes. */
  const TestDataSize: nat := 256

  class MockUSBSoundCard {
    var transmissionActive: bool
    var packetSequence: U32
    /** The transmission buffer's storage, allocated once. */
    const buffer: array<Byte>
    /** The transmission buffer's size field. */
    var size: nat

    ghost predicate Valid()
      reads this
    {
      buffer.Length == TotalSize && size <= TotalSize
    }

    /** The bytes the transmission buffer currently describes. */
    function Packet(): seq<Byte>
      reads this, buffer
      requires Valid()
    {
      buffer[..size]
    }

    constructor ()
      ensures Valid() && fresh(buffer)
      ensures !transmissionActive && packetSequence == 0 && size == TotalSize
    {
      transmissionActive := false;
      packetSequence := 0;
      buffer := new Byte[TotalSize];
      size := TotalSize;
    }

    method StartTransmission()
      modifies this`transmissionActive
      ensures transmissionActive
    {
      transmissionActive := true;
    }

    method StopTransmission()
      modifies this`transmissionActive
      ensures !transmissionActive
    {
      transmissionActive := false;
    }

    /** Frames the 256-byte self-test payload (a sine tone, taken here as
        given bytes) at second `now`. */
    method SendTestPacket(testData: seq<Byte>, now: U32) returns (ok: bool)
      requires Valid()
      requires |testData| == TestDataSize
      modifies this`packetSequence, this`size, buffer
      ensures Valid()
      ensures ok == transmissionActive
      ensures !ok ==> packetSequence == old(packetSequence) && size == old(size) && unchanged(buffer)
      ensures ok ==> packetSequence == Add32(old(packetSequence), 1) &&
                     Packet() == EncodePacket(old(packetSequence), now, testData) &&
                     buffer[size..] == old(buffer[..])[size..]
    {
      if !transmissionActive {
        return false;
      }
      ok := TransmitAudioPacket(testData, now);
    }

    /** Writes the header words and copies the payload into the buffer, then
        sets the buffer's size to header plus payload. There is no capacity
        check, so the payload must fit the buffer. */
    method TransmitAudioPacket(audioData: seq<Byte>, now: U32) returns (ok: bool)
      requires Valid()
      requires transmissionActive ==> |audioData| <= MaxAudioSize
      modifies this`packetSequence, this`size, buffer
      ensures Valid()
      ensures ok == transmissionActive
      ensures !ok ==> packetSequence == old(packetSequence) && size == old(size) && unchanged(buffer)
      ensures ok ==> packetSequence == Add32(old(packetSequence), 1) &&
                     Packet() == EncodePacket(old(packetSequence), now, audioData) &&
                     buffer[size..] == old(buffer[..])[size..]
    {
      if !transmissionActive {
        return false;
      }
      var sequence := packetSequence;
      packetSequence := Add32(packetSequence, 1);
      Store(0, EncodeU32(sequence));
      Store(4, EncodeU32(now));
      Store(8, EncodeU32(|audioData|));
      Store(HeaderSize, audioData);
      size := HeaderSize + |audioData|;
      ghost var pkt := EncodePacket(sequence, now, audioData);
      assert forall k :: 0 <= k < size ==> buffer[k] == pkt[k];
      assert buffer[..size] == pkt;
      assert forall k :: size <= k < buffer.Length ==> buffer[k] == old(buffer[k]);
      return true;
    }

    /** Copies `bytes` into the buffer at `offset`, leaving the rest alone. */
    method Store(offset: nat, bytes: seq<Byte>)
      requires offset + |bytes| <= buffer.Length
      modifies buffer
      ensures forall k :: 0 <= k < buffer.Length ==>
                buffer[k] == if offset <= k < offset + |bytes| then bytes[k - offset] else old(buffer[k])
    {
      var i := 0;
      while i < |bytes|
        invariant 0 <= i <= |bytes|
        invariant forall k :: 0 <= k < buffer.Length ==>
                    buffer[k] == if offset <= k < offset + i then bytes[k - offset] else old(buffer[k])
      {
        buffer[offset + i] := bytes[i];
        i := i + 1;
      }
    }
  }

  /** The standalone test's receiver: the shared check, an expected
      sequence register and valid/invalid counters. Its total counter is
      never updated. */
  class PacketReceiver {
    var expectedSequence: U32
    var totalPackets: nat
    var validPackets: nat
    var invalidPackets: nat

    constructor ()
      ensures expectedSequence == 0 && totalPackets == 0 && validPackets == 0 && invalidPackets == 0
    {
      expectedSequence, totalPackets, validPackets, invalidPackets := 0, 0, 0, 0;
    }

    method ValidateAudioPacket(pkt: seq<Byte>) returns (ok: bool)
      modifies this
      ensures ok == Check(old(expectedSequence), pkt).Accepted?
      ensures ok <==> Acceptable(old(expectedSequence), pkt)
      ensures expectedSequence == NextExpected(old(expectedSequence), Check(old(expectedSequence), pkt))
      ensures validPackets == old(validPackets) + (if ok then 1 else 0)
      ensures invalidPackets == old(invalidPackets) + (if ok then 0 else 1)
      ensures totalPackets == old(totalPackets)
    {
      var verdict := Check(expectedSequence, pkt);
      expectedSequence := NextExpected(expectedSequence, verdict);
      ok := verdict.Accepted?;
      if ok {
        validPackets := validPackets + 1;
      } else {
        invalidPackets := invalidPackets + 1;
      }
    }
  }

  /** The sender-to-receiver round trip: each payload is framed with the
      mock sender and the buffer handed to a fresh receiver. Every packet is
      accepted, and after each one the receiver expects the sender's next
      sequence number. The standalone test builds a receiver in its
      transmission test but never passes it a packet. */
  method TransmitThenValidate(payloads: seq<seq<Byte>>, stamps: seq<U32>)
    returns (valid: nat, invalid: nat, expected: U32, sent: U32)
    requires |stamps| == |payloads|
    requires forall i :: 0 <= i < |payloads| ==> 1 <= |payloads[i]| <= MaxAudioSize
    ensures valid == |payloads| && invalid == 0
    ensures expected == sent
  {
    var card := new MockUSBSoundCard();
    var receiver := new PacketReceiver();
    card.StartTransmission();
    var i := 0;
    while i < |payloads|
      invariant 0 <= i <= |payloads|
      invariant card.Valid() && card.transmissionActive
      invariant receiver.expectedSequence == card.packetSequence
      invariant receiver.validPackets == i && receiver.invalidPackets == 0
    {
      var sequence := card.packetSequence;
      var ok := card.TransmitAudioPacket(payloads[i], stamps[i]);
      FramedPacketAccepted(sequence, stamps[i], payloads[i]);
      var accepted := receiver.ValidateAudioPacket(card.Packet());
      i := i + 1;
    }
    valid, invalid := receiver.validPackets, receiver.invalidPackets;
    expected, sent := receiver.expectedSequence, card.packetSequence;
  }
}
