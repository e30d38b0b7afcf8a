/** The component tester's side of the output ports: it keeps a copy of
    every buffer and com packet the component sends, validates each, and
    keeps test statistics. */
module Tester {
  import opened Wire
  import opened PacketFormat

  datatype TestStats = TestStats(totalBufferPackets: nat, totalComPackets: nat,
                                 validBufferPackets: nat, validComPackets: nat,
                                 invalidPackets: nat, sequenceErrors: nat)

  /** A com packet passes the tester's check exactly when it is not empty. */
  predicate ValidateTransmittedComPacket(com: seq<Byte>): (ok: bool)
    ensures ok <==> com != []
  {
    |com| != 0
  }

  class USBSoundCardTester {
    var receivedBuffers: seq<seq<Byte>>
    var receivedComPackets: seq<seq<Byte>>
    var expectedSequence: U32
    var testStats: TestStats

    /** Every packet received on either port was judged valid or invalid
        exactly once, and a sequence error is only ever counted for a packet
        judged invalid. */
    ghost predicate Valid()
      reads this
    {
      testStats.totalBufferPackets == |receivedBuffers| &&
      testStats.totalComPackets == |receivedComPackets| &&
      testStats.validBufferPackets <= testStats.totalBufferPackets &&
      testStats.validComPackets <= testStats.totalComPackets &&
      testStats.totalBufferPackets + testStats.totalComPackets ==
        testStats.validBufferPackets + testStats.validComPackets + testStats.invalidPackets &&
      testStats.sequenceErrors <= testStats.invalidPackets
    }

    constructor ()
      ensures Valid()
      ensures receivedBuffers == [] && receivedComPackets == [] && expectedSequence == 0
      ensures testStats == TestStats(0, 0, 0, 0, 0, 0)
    {
      receivedBuffers, receivedComPackets := [], [];
      expectedSequence := 0;
      testStats := TestStats(0, 0, 0, 0, 0, 0);
    }

    /** The buffer output port: keeps a copy and counts it as valid or
        invalid. */
    method BufferOut(buffer: seq<Byte>)
      requires Valid()
      modifies this
      ensures Valid()
      ensures receivedBuffers == old(receivedBuffers) + [buffer]
      ensures receivedComPackets == old(receivedComPackets)
      ensures var v := Check(old(expectedSequence), buffer);
              expectedSequence == NextExpected(old(expectedSequence), v) &&
              testStats == old(testStats).(
                totalBufferPackets := old(testStats.totalBufferPackets) + 1,
                validBufferPackets := old(testStats.validBufferPackets) + (if v.Accepted? then 1 else 0),
                invalidPackets := old(testStats.invalidPackets) + (if v.Accepted? then 0 else 1),
                sequenceErrors := old(testStats.sequenceErrors) + (if v.SequenceError? then 1 else 0))
    {
      var copy := buffer;
      receivedBuffers := receivedBuffers + [copy];
      testStats := testStats.(totalBufferPackets := testStats.totalBufferPackets + 1);
      var ok := ValidateTransmittedPacket(copy);
      if ok {
        testStats := testStats.(validBufferPackets := testStats.validBufferPackets + 1);
      } else {
        testStats := testStats.(invalidPackets := testStats.invalidPackets + 1);
      }
    }

    /** The com output port: keeps a copy and counts it as valid when it is
        not empty. */
    method PacketOut(com: seq<Byte>)
      requires Valid()
      modifies this
      ensures Valid()
      ensures receivedComPackets == old(receivedComPackets) + [com]
      ensures receivedBuffers == old(receivedBuffers) && expectedSequence == old(expectedSequence)
      ensures testStats == old(testStats).(
                totalComPackets := old(testStats.totalComPackets) + 1,
                validComPackets := old(testStats.validComPackets) + (if |com| > 0 then 1 else 0),
                invalidPackets := old(testStats.invalidPackets) + (if |com| > 0 then 0 else 1))
    {
      receivedComPackets := receivedComPackets + [com];
      testStats := testStats.(totalComPackets := testStats.totalComPackets + 1);
      if ValidateTransmittedComPacket(com) {
        testStats := testStats.(validComPackets := testStats.validComPackets + 1);
      } else {
        testStats := testStats.(invalidPackets := testStats.invalidPackets + 1);
      }
    }

    /** The shared check against the expected sequence number; a mismatch is
        counted as a sequence error and resynchronises. */
    method ValidateTransmittedPacket(buffer: seq<Byte>) returns (ok: bool)
      modifies this`expectedSequence, this`testStats
      ensures ok == Check(old(expectedSequence), buffer).Accepted?
      ensures ok <==> Acceptable(old(expectedSequence), buffer)
      ensures expectedSequence == NextExpected(old(expectedSequence), Check(old(expectedSequence), buffer))
      ensures testStats == old(testStats).(sequenceErrors := old(testStats.sequenceErrors) +
                             (if Check(old(expectedSequence), buffer).SequenceError? then 1 else 0))
    {
      var verdict := Check(expectedSequence, buffer);
      if verdict.SequenceError? {
        testStats := testStats.(sequenceErrors := testStats.sequenceErrors + 1);
      }
      expectedSequence := NextExpected(expectedSequence, verdict);
      ok := verdict.Accepted?;
    }
  }
}
