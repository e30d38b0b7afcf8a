/** The unit-test packet receiver: it keeps a copy of every buffer and com
    packet it receives, validates buffers with the shared check, and keeps
    statistics. */
module UnitReceiver {
  import opened Wire
  import opened PacketFormat

  datatype PacketStats = PacketStats(totalPackets: nat, validPackets: nat, invalidPackets: nat,
                                     totalBytes: nat, sequenceErrors: nat)

  const ZeroStats := PacketStats(0, 0, 0, 0, 0)

  /** The number of bytes in a list of buffers. */
  function TotalLength(packets: seq<seq<Byte>>): nat
  {
    if packets == [] then 0 else TotalLength(packets[..|packets| - 1]) + |packets[|packets| - 1]|
  }

  class PacketReceiver {
    var receivedBuffers: seq<seq<Byte>>
    var receivedCom: seq<seq<Byte>>
    var stats: PacketStats
    var expectedSequence: U32

    /** Every received packet is counted once and its bytes once, and every
        received buffer was judged valid or invalid. */
    ghost predicate Valid()
      reads this
    {
      stats.totalPackets == |receivedBuffers| + |receivedCom| &&
      stats.validPackets + stats.invalidPackets == |receivedBuffers| &&
      stats.totalBytes == TotalLength(receivedBuffers) + TotalLength(receivedCom)
    }

    /** Sequence errors are only counted for packets judged invalid; this
        holds while buffers arrive only through `ReceiveBuffer`, since
        `ValidateAudioPacket` is callable on its own and counts errors too. */
    ghost predicate ErrorsWithinInvalid()
      reads this
    {
      stats.sequenceErrors <= stats.invalidPackets
    }

    constructor ()
      ensures Valid() && ErrorsWithinInvalid()
      ensures receivedBuffers == [] && receivedCom == [] && stats == ZeroStats && expectedSequence == 0
    {
      receivedBuffers, receivedCom := [], [];
      stats := ZeroStats;
      expectedSequence := 0;
    }

    /** Keeps a copy of the buffer, counts it and its bytes, and counts it
        as valid or invalid. */
    method ReceiveBuffer(buffer: seq<Byte>)
      requires Valid()
      modifies this
      ensures Valid()
      ensures old(ErrorsWithinInvalid()) ==> ErrorsWithinInvalid()
      ensures receivedBuffers == old(receivedBuffers) + [buffer] && receivedCom == old(receivedCom)
      ensures var v := Check(old(expectedSequence), buffer);
              expectedSequence == NextExpected(old(expectedSequence), v) &&
              stats == old(stats).(totalPackets := old(stats.totalPackets) + 1,
                                   totalBytes := old(stats.totalBytes) + |buffer|,
                                   validPackets := old(stats.validPackets) + (if v.Accepted? then 1 else 0),
                                   invalidPackets := old(stats.invalidPackets) + (if v.Accepted? then 0 else 1),
                                   sequenceErrors := old(stats.sequenceErrors) + (if v.SequenceError? then 1 else 0))
    {
      var copy := buffer;
      receivedBuffers := receivedBuffers + [copy];
      assert receivedBuffers[..|receivedBuffers| - 1] == old(receivedBuffers);
      stats := stats.(totalPackets := stats.totalPackets + 1, totalBytes := stats.totalBytes + |buffer|);
      var ok := ValidateAudioPacket(copy);
      if ok {
        stats := stats.(validPackets := stats.validPackets + 1);
      } else {
        stats := stats.(invalidPackets := stats.invalidPackets + 1);
      }
    }

    /** Keeps a copy of the com packet and counts it and its bytes; com
        packets are not validated. */
    method ReceiveCom(com: seq<Byte>)
      requires Valid()
      modifies this
      ensures Valid()
      ensures old(ErrorsWithinInvalid()) ==> ErrorsWithinInvalid()
      ensures receivedCom == old(receivedCom) + [com] && receivedBuffers == old(receivedBuffers)
      ensures expectedSequence == old(expectedSequence)
      ensures stats == old(stats).(totalPackets := old(stats.totalPackets) + 1,
                                   totalBytes := old(stats.totalBytes) + |com|)
    {
      receivedCom := receivedCom + [com];
      assert receivedCom[..|receivedCom| - 1] == old(receivedCom);
      stats := stats.(totalPackets := stats.totalPackets + 1, totalBytes := stats.totalBytes + |com|);
    }

    method GetReceivedBuffers() returns (buffers: seq<seq<Byte>>)
      ensures buffers == receivedBuffers
    {
      buffers := receivedBuffers;
    }

    method GetReceivedCom() returns (coms: seq<seq<Byte>>)
      ensures coms == receivedCom
    {
      coms := receivedCom;
    }

    /** Empties both lists, zeroes every statistic and expects sequence 0. */
    method ClearReceived()
      modifies this
      ensures Valid() && ErrorsWithinInvalid()
      ensures receivedBuffers == [] && receivedCom == [] && stats == ZeroStats && expectedSequence == 0
    {
      receivedBuffers := [];
      receivedCom := [];
      stats := ZeroStats;
      expectedSequence := 0;
    }

    /** Runs the shared check against the expected sequence number, counts a
        sequence error and resynchronises on a mismatch, and advances the
        expected sequence number on success. */
    method ValidateAudioPacket(buffer: seq<Byte>) returns (ok: bool)
      modifies this`expectedSequence, this`stats
      ensures ok == Check(old(expectedSequence), buffer).Accepted?
      ensures ok <==> Acceptable(old(expectedSequence), buffer)
      ensures expectedSequence == NextExpected(old(expectedSequence), Check(old(expectedSequence), buffer))
      ensures stats == old(stats).(sequenceErrors := old(stats.sequenceErrors) +
                                     (if Check(old(expectedSequence), buffer).SequenceError? then 1 else 0))
    {
      var verdict := Check(expectedSequence, buffer);
      if verdict.SequenceError? {
        stats := stats.(sequenceErrors := stats.sequenceErrors + 1);
      }
      expectedSequence := NextExpected(expectedSequence, verdict);
      ok := verdict.Accepted?;
    }

    /** The statistics, which account for every kept buffer and com packet. */
    method GetStats() returns (s: PacketStats)
      requires Valid()
      ensures s == stats
      ensures s.totalPackets == |receivedBuffers| + |receivedCom|
      ensures s.validPackets + s.invalidPackets == |receivedBuffers|
      ensures s.totalBytes == TotalLength(receivedBuffers) + TotalLength(receivedCom)
    {
      s := stats;
    }
  }
}
