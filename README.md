# USB sound card: capture controller, packet framer and packet validators

This project models the audio part of an F´ flight-software deployment in Dafny and proves properties of the model. It covers the `USBSoundCard` component and the packet format its test harness frames and checks:

- **Capture controller** (`sound_card.dfy`, module `SoundCard`). The `USBSoundCard` class is the idle/capturing state machine.
  - START_CAPTURE opens a device. It tries four candidate names in a fixed order, then runs five configuration steps.
  - STOP_CAPTURE closes the device.
  - The periodic `run` tick reads one block of up to 1024 samples. It sums their squares, tracks the sample of largest magnitude, reports the level and a frame counter, and raises a "level high" warning at most once per second.
  - Every ALSA result is an input, because ALSA is a foreign library. The `Alsa` record gives the open result per candidate and one result per configuration step. `ReadResult` gives the result of one read.
  - The floating-point RMS scaling is the function argument `rmsLevel(sum, frames)`.
  - Events and telemetry are appended to an `outputs` list. Command responses are return values.
- **Packet format** (`wire.dfy`, `packet_format.dfy`). A packet is a 12-byte header of three U32 words, then the payload. The words are the sequence number, the timestamp in seconds and the payload length. The words are stored in native byte order, which the model fixes as little-endian.
  - `Check` is the one validation that all three receivers run, in their order:
    1. at least 12 bytes;
    2. the expected sequence number (a mismatch resynchronises to the received number plus one);
    3. total size equal to 12 plus the length word, computed in U32;
    4. a length of 1 to 10000 bytes.
  - The timestamp check and the sample-range check are kept in `Check` and proved never to fail.
- **Framer** (`simple_test.dfy`, module `SimpleTest`). `MockUSBSoundCard` from the standalone test owns a transmission flag, a post-incremented U32 sequence counter and one 12 + 2048 byte buffer. It rewrites that buffer in place on each send. The module also holds that test's local `PacketReceiver`.
- **Receivers** (`packet_receiver.dfy`, `tester.dfy`, `integration.dfy`). The unit-test `PacketReceiver`, the tester's output-port handlers, and the two integration-test scenarios.

Points where the code decides what the model does:

- A configuration step that fails after a successful open closes the device but does not clear the handle field. So "not capturing" does not imply "no handle"; `SoundCard.USBSoundCard.Valid` only states the converse.
- The mock's START_TRANSMISSION and STOP_TRANSMISSION set the flag unconditionally, so a repeated command is not rejected.
- `transmitAudioPacket` copies the payload without checking the buffer's capacity. The model therefore requires the payload to fit (2048 bytes) whenever transmission is active.

## Model

| member | source | states |
|---|---|---|
| `Wire.Add32` | Components/USBSoundCard/test/simple_test.cpp:104 | U32 addition: the exact sum when it fits in 32 bits, otherwise the sum minus 2^32 |
| `Wire.DecodeEncodeU32` | Components/USBSoundCard/test/simple_test.cpp:102-106 | a header word written as four bytes reads back as the same word |
| `Wire.EncodeDecodeU32` | Components/USBSoundCard/test/ut/unit/PacketReceiver.cpp:104-108 | every four-byte pattern a receiver reads as a word is exactly the layout of that word |
| `PacketFormat.EncodePacket` | Components/USBSoundCard/test/simple_test.cpp:101-114 | a framed packet is 12 + payload-length bytes long and its bytes from offset 12 are the payload |
| `PacketFormat.DecodeEncodePacket` | Components/USBSoundCard/test/ut/unit/PacketReceiver.cpp:103-108 | a receiver reads back the sequence, timestamp and payload length the sender wrote |
| `PacketFormat.EncodeDecodePacket` | Components/USBSoundCard/test/ut/unit/PacketReceiver.cpp:118-123 | a buffer whose length word matches its size is the encoding of its own header and payload |
| `PacketFormat.Check` | Components/USBSoundCard/test/ut/unit/PacketReceiver.cpp:95-160 | accepted iff at least 12 bytes, the expected sequence, size exactly 12 + length word and length in [1, 10000], in unbounded arithmetic, so the U32 wrap of 12 + length never causes an acceptance; a sequence error iff the header is complete and the sequence differs, and it carries the received sequence; too small iff under 12 bytes; the timestamp and sample rejections never occur |
| `PacketFormat.SamplesAlwaysInRange` | Components/USBSoundCard/test/ut/unit/PacketReceiver.cpp:137-151 | the scan of the first (at most 10) samples never finds a value outside the range of a `short` |
| `PacketFormat.FramedPacketAccepted` | Components/USBSoundCard/test/simple_test.cpp:159-191 | a packet framed with the expected sequence and a 1–10000 byte payload is accepted at any timestamp, and the expected sequence then advances by one mod 2^32 |
| `PacketFormat.FramedPacketResyncs` | Components/USBSoundCard/test/simple_test.cpp:159-165 | a packet with another sequence is a sequence error, the receiver then expects that sequence + 1, and the sender's next packet is accepted |
| `PacketFormat.AcceptanceIgnoresTimestampAndSamples` | Components/USBSoundCard/test/ut/unit/PacketReceiver.cpp:125-150 | two buffers of equal size with equal sequence and length words get the same verdict, whatever their timestamps and payload bytes |
| `PacketFormat.SequenceSevenExample` | Components/USBSoundCard/test/simple_test.cpp:100-114 | sequence 7, second 1000 and a 256-byte payload frame to 268 bytes whose header bytes are 7, 1000, 256 stored little-endian |
| `SoundCard.FirstOpenedFrom` | Components/USBSoundCard/USBSoundCard.cpp:93-108 | the chosen candidate opens, every earlier candidate failed to open, and no result means that no candidate opened |
| `SoundCard.InitOutcome` | Components/USBSoundCard/USBSoundCard.cpp:110-163 | initialisation succeeds iff some candidate opens and all five configuration steps succeed; on success the handle is open on the first candidate that opened; a configuration failure leaves a closed, non-null handle |
| `SoundCard.SumSquaresBounds` | Components/USBSoundCard/USBSoundCard.cpp:194-197 | the sum of squares is between 0 and 2^30 per sample, so a 1024-frame block cannot overflow a 64-bit `long` |
| `SoundCard.AccumulateLevel` | Components/USBSoundCard/USBSoundCard.cpp:194-201 | the loop's sum is the sum of squares of the frames read; the kept sample has the largest magnitude and is the earliest of that magnitude (0 for no frames) |
| `SoundCard.WarningSecondsIncrease` | Components/USBSoundCard/USBSoundCard.cpp:219-228 | over any run of ticks, level-high warnings come at strictly increasing seconds, all later than the previous warning: at most one per second and none at second 0 |
| `SoundCard.USBSoundCard.constructor` | Components/USBSoundCard/USBSoundCard.cpp:17-27 | starts idle with no handle, frame counter 0, a 1024-sample buffer, and its own last-warned second at 0 (a shared static in the source; see Left out) |
| `SoundCard.USBSoundCard.Dispose` | Components/USBSoundCard/USBSoundCard.cpp:29-34 | a capturing component releases its handle on destruction; an idle one leaves it |
| `SoundCard.USBSoundCard.StartCapture` | Components/USBSoundCard/USBSoundCard.cpp:40-57 | while capturing: already-started warning, execution error, and neither the state nor the handle changes. While idle: capturing becomes the initialisation's success and the handle its outcome. Success emits capture-started and connected=true and responds OK; failure emits device-disconnected and connected=false and responds with an execution error |
| `SoundCard.USBSoundCard.StopCapture` | Components/USBSoundCard/USBSoundCard.cpp:59-70 | idle: execution error and nothing changes; capturing: handle null, idle, capture-stopped and connected=false emitted, response OK |
| `SoundCard.USBSoundCard.Run` | Components/USBSoundCard/USBSoundCard.cpp:76-81 | a tick changes nothing unless capturing, and otherwise processes one read |
| `SoundCard.USBSoundCard.InitializeAudioDevice` | Components/USBSoundCard/USBSoundCard.cpp:87-164 | returns true iff a candidate opens and all configuration steps succeed; the handle is left as the fixed-order fallback and configuration determine |
| `SoundCard.USBSoundCard.StopAudioCapture` | Components/USBSoundCard/USBSoundCard.cpp:166-171 | afterwards the handle is null; with a null handle nothing changes (idempotent) |
| `SoundCard.USBSoundCard.ProcessAudioData` | Components/USBSoundCard/USBSoundCard.cpp:173-230 | a null handle, a failed read or an empty read leaves the counter, the warning time and the outputs unchanged. N > 0 frames emit the level computed from the sum of squares of those frames, bump the frame counter by one mod 2^32 and emit it, and warn exactly when the level exceeds 200 and the second is later than the last warning, which then becomes this second |
| `SoundCard.USBSoundCard.ReadInto` | Components/USBSoundCard/USBSoundCard.cpp:179 | the frames read occupy the front of the sample buffer and the rest is untouched |
| `SimpleTest.MockUSBSoundCard.constructor` | Components/USBSoundCard/test/simple_test.cpp:45-54 | transmission inactive, sequence 0, a 12 + 2048 byte buffer whose size is its full capacity |
| `SimpleTest.MockUSBSoundCard.StartTransmission` | Components/USBSoundCard/test/simple_test.cpp:60-63 | the flag is set whatever it was (idempotent) |
| `SimpleTest.MockUSBSoundCard.StopTransmission` | Components/USBSoundCard/test/simple_test.cpp:65-68 | the flag is cleared whatever it was (idempotent) |
| `SimpleTest.MockUSBSoundCard.SendTestPacket` | Components/USBSoundCard/test/simple_test.cpp:70-88 | inactive: false, counter and buffer unchanged; active: the 256-byte test payload is framed with the old counter, which advances by one mod 2^32, and the bytes after the new size are untouched |
| `SimpleTest.MockUSBSoundCard.TransmitAudioPacket` | Components/USBSoundCard/test/simple_test.cpp:91-127 | inactive: false, counter, size and buffer unchanged. Active: true, and the buffer's first 12 + dataSize bytes are exactly the encoding of the old counter, the timestamp, dataSize and the payload. The buffer size becomes 12 + dataSize, the bytes after it are untouched, and the counter advances by one mod 2^32 |
| `SimpleTest.MockUSBSoundCard.Store` | Components/USBSoundCard/test/simple_test.cpp:104-110 | the bytes land at the given offset and every other byte of the buffer is unchanged |
| `SimpleTest.PacketReceiver.constructor` | Components/USBSoundCard/test/simple_test.cpp:139-140 | expected sequence and all counters start at 0 |
| `SimpleTest.PacketReceiver.ValidateAudioPacket` | Components/USBSoundCard/test/simple_test.cpp:142-200 | returns the check's acceptance. The expected sequence resyncs to received + 1 on a mismatch, advances on success and is otherwise kept. Exactly one of valid/invalid is incremented, and the total is never updated |
| `SimpleTest.TransmitThenValidate` | Components/USBSoundCard/test/simple_test.cpp:159-191 | every packet the mock frames (1–2048 byte payloads) is accepted by a fresh receiver; none is invalid, and the receiver ends up expecting exactly the sender's next sequence number |
| `UnitReceiver.PacketReceiver.constructor` | Components/USBSoundCard/test/ut/unit/PacketReceiver.cpp:16-25 | expected sequence 0, all statistics 0, no packets kept |
| `UnitReceiver.PacketReceiver.ReceiveBuffer` | Components/USBSoundCard/test/ut/unit/PacketReceiver.cpp:38-59 | appends one identical copy and counts one packet and its bytes. It counts it as valid or invalid per the check, and adds a sequence error exactly for a mismatch. It keeps the statistics invariant and sequence errors ≤ invalid packets |
| `UnitReceiver.PacketReceiver.ReceiveCom` | Components/USBSoundCard/test/ut/unit/PacketReceiver.cpp:61-67 | appends the com packet and adds only to the total packets and total bytes |
| `UnitReceiver.PacketReceiver.GetReceivedBuffers` | Components/USBSoundCard/test/ut/unit/PacketReceiver.cpp:69-71 | returns the list of kept buffers |
| `UnitReceiver.PacketReceiver.GetReceivedCom` | Components/USBSoundCard/test/ut/unit/PacketReceiver.cpp:73-75 | returns the list of kept com packets |
| `UnitReceiver.PacketReceiver.ClearReceived` | Components/USBSoundCard/test/ut/unit/PacketReceiver.cpp:77-93 | both lists empty, every statistic 0, expected sequence 0 |
| `UnitReceiver.PacketReceiver.ValidateAudioPacket` | Components/USBSoundCard/test/ut/unit/PacketReceiver.cpp:95-160 | returns the check's acceptance; a mismatch counts a sequence error and resyncs to received + 1; success advances the expected sequence; other rejections keep it |
| `UnitReceiver.PacketReceiver.GetStats` | Components/USBSoundCard/test/ut/unit/PacketReceiver.cpp:162-164 | returns the current statistics; every kept buffer and com packet is counted once with its bytes, and every kept buffer is counted valid or invalid |
| `Tester.ValidateTransmittedComPacket` | Components/USBSoundCard/test/ut/unit/USBSoundCardTester.cpp:317-325 | a com packet passes iff it is not empty |
| `Tester.USBSoundCardTester.constructor` | Components/USBSoundCard/test/ut/unit/USBSoundCardTester.cpp:18-46 | expected sequence 0, all six counters 0, both lists empty |
| `Tester.USBSoundCardTester.BufferOut` | Components/USBSoundCard/test/ut/unit/USBSoundCardTester.cpp:191-211 | appends one copy, counts one buffer packet and exactly one of valid/invalid. It keeps total buffer + total com = valid buffer + valid com + invalid, and sequence errors ≤ invalid |
| `Tester.USBSoundCardTester.PacketOut` | Components/USBSoundCard/test/ut/unit/USBSoundCardTester.cpp:213-225 | appends the com packet, counts it, and counts it valid iff it is not empty, keeping the same invariant |
| `Tester.USBSoundCardTester.ValidateTransmittedPacket` | Components/USBSoundCard/test/ut/unit/USBSoundCardTester.cpp:250-315 | the same check order, resync on mismatch and advance on success as the receiver; a mismatch counts a sequence error |
| `Integration.PacketFormatScenario` | Components/USBSoundCard/test/ut/integration/IntegrationTest.cpp:95-186 | packets with sequences 0, 1, 5 give 3 packets, 2 valid, 1 invalid, 1 sequence error, 932 bytes |
| `Integration.InOrderScenario` | Components/USBSoundCard/test/ut/integration/IntegrationTest.cpp:19-93 | n well-formed 256-byte packets with sequences 0..n-1 give n valid, 0 invalid, 0 sequence errors, 268·n bytes |

## Left out

- ALSA. Each call is replaced by its result, given as an input. `snd_pcm_recover` and the sample-rate read-back have no modelled effect.
- A failed `snd_pcm_open` is assumed to leave the handle field as it was. `StartCapture` and `InitializeAudioDevice` state that the handle is unchanged after every open fails, and that statement rests on this assumption. The capture flag and `Valid` do not depend on it, because capture stays off.
- SoundCard.USBSoundCard.lastWarningTime: in the source the throttle's last-warned second is a function-local `static` in `processAudioData` (USBSoundCard.cpp:220). All instances share it, and it starts at 0 once per program run. The model gives each instance its own copy, which its constructor sets to 0. Two instances therefore throttle independently in the model.
- Floating point. The RMS square root and its scaling to 0–255 are the function argument `rmsLevel`. The sine-wave test payloads are given bytes.
- Logging. `printf`/`cout` output, the every-tenth-call debug print (the only use of the largest-magnitude sample) and `printStats` are left out. Command opcodes and sequence tokens are left out too; responses are return values.
- The real component's START_TRANSMISSION, STOP_TRANSMISSION and SEND_TEST_PACKET handlers and its `transmitAudioPacket`, `sendTestPacket`, `calculateAudioLevel` and `initializeTransmissionBuffer` are declared in `USBSoundCard.hpp`, but `USBSoundCard.cpp` defines no body for them, so they are not part of this model. The transmit path modelled is the standalone test's mock. The component's transmission fields, which its constructor leaves uninitialised, are left out for the same reason.
- The `try`/`catch` around the mock's framing. Nothing in the block throws, so the catch path is not modelled.
- Memory management. Buffer allocation and `delete[]`, including the loop in `clearReceived` that frees the kept buffers, are left out. Copies of buffers are value sequences.
- SoundCard.AccumulateLevel: `processAudioData`'s `long sum` is taken to be 64 bits (LP64). Where `long` is 32 bits, the accumulation overflows for loud blocks, which the model does not capture: the model's sum is unbounded.
- Statistic counters (valid, invalid, total, bytes, sequence errors) are unbounded naturals. Their 32-bit wrap after 2^32 packets or bytes is not modelled. The sequence counter, the expected sequence, the frame counter and the 12 + length size check do wrap.
- The tester's component under test, mock time and test buffer, its port wiring and its placeholder tests. The network command-ingestion (APRS) server and parser are not part of this model.
