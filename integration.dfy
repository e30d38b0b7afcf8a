/** The scenarios the integration test drives through the unit-test
    receiver, with the outcomes it expects. */
module Integration {
  import opened Wire
  import opened PacketFormat
  import opened UnitReceiver

  /** The packet-format scenario: well-formed packets with sequences 0, 1
      and 5 (payloads of 256, 512 and 128 bytes) give two valid packets, one
      invalid packet and one sequence error. */
  method PacketFormatScenario(first: seq<Byte>, second: seq<Byte>, third: seq<Byte>)
    returns (stats: PacketStats)
    requires |first| == 256 && |second| == 512 && |third| == 128
    ensures stats == PacketStats(3, 2, 1, 268 + 524 + 140, 1)
  {
    var receiver := new PacketReceiver();
    FramedPacketAccepted(0, 1234567890, first);
    receiver.ReceiveBuffer(EncodePacket(0, 1234567890, first));
    FramedPacketAccepted(1, 1234567891, second);
    receiver.ReceiveBuffer(EncodePacket(1, 1234567891, second));
    DecodeEncodePacket(5, 1234567892, third);
    receiver.ReceiveBuffer(EncodePacket(5, 1234567892, third));
    stats := receiver.GetStats();
  }

  /** The transmission scenario, for any number of packets: n well-formed
      256-byte packets with sequences 0 to n - 1 are all valid, with no
      sequence error. */
  method InOrderScenario(payload: seq<Byte>, stamps: seq<U32>) returns (stats: PacketStats)
    requires |payload| == 256
    requires |stamps| <= Modulus32
    ensures stats == PacketStats(|stamps|, |stamps|, 0, 268 * |stamps|, 0)
  {
    var receiver := new PacketReceiver();
    var i := 0;
    while i < |stamps|
      invariant 0 <= i <= |stamps|
      invariant receiver.Valid()
      invariant receiver.receivedCom == []
      invariant receiver.expectedSequence == i % Modulus32
      invariant receiver.stats == PacketStats(i, i, 0, 268 * i, 0)
    {
      FramedPacketAccepted(i, stamps[i], payload);
      receiver.ReceiveBuffer(EncodePacket(i, stamps[i], payload));
      i := i + 1;
    }
    stats := receiver.GetStats();
  }
}
