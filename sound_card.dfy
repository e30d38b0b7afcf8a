/** The USB sound-card capture component: a two-state (idle, capturing)
    controller driven by the START_CAPTURE and STOP_CAPTURE commands and by
    a periodic tick that reads one block of samples, reports its level and
    a frame counter, and throttles a "level high" warning to one per second.

    The ALSA library is foreign: every result it would return is an input
    here (an `Alsa` record for opening and configuring the device, a
    `ReadResult` for one read), and the floating-point RMS scaling is the
    function argument `rmsLevel`. */
module SoundCard {
  import opened Wire

  /** Capacity of the sample buffer, in frames of one mono sample. */
  const BufferSize: nat := 1024
  /** A level above this raises the level-high warning. */
  const LevelHighThreshold: nat := 200
  /** Capture devices, in the order they are tried. */
  const DeviceNames: seq<string> := ["hw:1,0", "plughw:CARD=Device,DEV=0", "hw:CARD=Device,DEV=0", "default"]

  datatype Option<T> = None | Some(value: T)

  /** The PCM handle field: null, or a handle on a named device that is
      open or has been closed without the field being cleared. */
  datatype Pcm = Null | Handle(name: string, isOpen: bool)

  datatype CmdResponse = Ok | ExecutionError

  /** Events and telemetry the component emits, in order. */
  datatype Output =
    | CaptureAlreadyStarted
    | CaptureStarted
    | CaptureStopped
    | DeviceDisconnected
    | DeviceConnected(connected: bool)
    | AudioInputLevel(level: U32)
    | FramesProcessed(count: U32)
    | AudioLevelHigh

  /** What the ALSA calls of one device initialisation return: whether
      opening candidate i succeeds (`opens[i]`; a missing entry fails), then
      the outcome of each configuration step. */
  datatype Alsa = Alsa(opens: seq<bool>, setFormat: bool, setRate: bool,
                       setChannels: bool, hwParams: bool, prepare: bool)

  /** What one read of up to `BufferSize` frames returns. */
  datatype ReadResult = ReadError | Frames(samples: seq<I16>)

  predicate Opens(alsa: Alsa, i: nat)
  {
    i < |alsa.opens| && alsa.opens[i]
  }

  /** The first candidate, from `i` on, that opens. */
  function FirstOpenedFrom(alsa: Alsa, i: nat): (r: Option<nat>)
    requires i <= |DeviceNames|
    ensures r.Some? ==> i <= r.value < |DeviceNames| && Opens(alsa, r.value) &&
                        forall j :: i <= j < r.value ==> !Opens(alsa, j)
    ensures r.None? ==> forall j :: i <= j < |DeviceNames| ==> !Opens(alsa, j)
    decreases |DeviceNames| - i
  {
    if i == |DeviceNames| then None
    else if Opens(alsa, i) then Some(i)
    else FirstOpenedFrom(alsa, i + 1)
  }

  /** The candidate the initialisation settles on: the first that opens. */
  function FirstOpened(alsa: Alsa): Option<nat>
  {
    FirstOpenedFrom(alsa, 0)
  }

  /** All five configuration steps succeed. */
  predicate Configures(alsa: Alsa)
  {
    alsa.setFormat && alsa.setRate && alsa.setChannels && alsa.hwParams && alsa.prepare
  }

  predicate InitSucceeds(alsa: Alsa)
  {
    FirstOpened(alsa).Some? && Configures(alsa)
  }

  /** The handle field after an initialisation that started from `before`:
      untouched when no candidate opens, otherwise a handle on the first
      candidate that opened, left open only if configuration succeeded. */
  function DeviceAfterInit(before: Pcm, alsa: Alsa): Pcm
  {
    match FirstOpened(alsa)
    case None => before
    case Some(k) => Handle(DeviceNames[k], Configures(alsa))
  }

  /** Initialisation succeeds exactly when some candidate opens and every
      configuration step succeeds; it then holds an open handle on the first
      candidate that opened. A configuration failure leaves a closed handle
      in the field rather than null. */
  lemma InitOutcome(before: Pcm, alsa: Alsa)
    ensures InitSucceeds(alsa) <==>
            (exists i :: 0 <= i < |DeviceNames| && Opens(alsa, i)) && Configures(alsa)
    ensures InitSucceeds(alsa) ==>
            DeviceAfterInit(before, alsa).Handle? && DeviceAfterInit(before, alsa).isOpen &&
            DeviceAfterInit(before, alsa).name == DeviceNames[FirstOpened(alsa).value]
    ensures FirstOpened(alsa).Some? && !Configures(alsa) ==>
            DeviceAfterInit(before, alsa).Handle? && !DeviceAfterInit(before, alsa).isOpen
  {
    if exists i :: 0 <= i < |DeviceNames| && Opens(alsa, i) {
      var i :| 0 <= i < |DeviceNames| && Opens(alsa, i);
      assert FirstOpened(alsa).Some?;
    }
  }

  function Abs(x: int): nat { if x < 0 then -x else x }

  /** Sum of the squares of the samples. */
  function SumSquares(s: seq<I16>): int
  {
    if s == [] then 0 else SumSquares(s[..|s| - 1]) + (s[|s| - 1] as int) * (s[|s| - 1] as int)
  }

  lemma SquareBound(x: I16)
    ensures 0 <= (x as int) * (x as int) <= 0x4000_0000
  {
    var a := Abs(x as int);
    assert (x as int) * (x as int) == a * a;
    assert a * a <= a * 0x8000 <= 0x8000 * 0x8000;
  }

  /** The sum of squares is at most 2^30 per sample, so a 1024-frame block
      cannot overflow a 64-bit `long`. */
  lemma {:induction false} SumSquaresBounds(s: seq<I16>)
    ensures 0 <= SumSquares(s) <= |s| * 0x4000_0000
  {
    if s != [] {
      var prefix, x := s[..|s| - 1], s[|s| - 1];
      SumSquaresBounds(prefix);
      SquareBound(x);
      assert SumSquares(s) == SumSquares(prefix) + (x as int) * (x as int);
    }
  }

  /** The sum of squares and the sample of largest magnitude over the first
      `frames` samples of the buffer; among samples of equal magnitude the
      earliest is kept. */
  method AccumulateLevel(buffer: array<I16>, frames: nat) returns (sum: int, maxSample: I16)
    requires frames <= buffer.Length
    ensures sum == SumSquares(buffer[..frames])
    ensures 0 <= sum <= frames * 0x4000_0000
    ensures frames == 0 ==> maxSample == 0
    ensures frames > 0 ==> exists k :: 0 <= k < frames && buffer[k] == maxSample &&
                              (forall j :: 0 <= j < k ==> Abs(buffer[j]) < Abs(maxSample))
    ensures forall j :: 0 <= j < frames ==> Abs(buffer[j]) <= Abs(maxSample)
  {
    sum, maxSample := 0, 0;
    ghost var k := 0;
    var i := 0;
    while i < frames
      invariant 0 <= i <= frames
      invariant sum == SumSquares(buffer[..i])
      invariant i == 0 ==> maxSample == 0 && k == 0
      invariant i > 0 ==> 0 <= k < i && buffer[k] == maxSample &&
                          (forall j :: 0 <= j < k ==> Abs(buffer[j]) < Abs(maxSample))
      invariant forall j :: 0 <= j < i ==> Abs(buffer[j]) <= Abs(maxSample)
    {
      assert buffer[..i + 1][..i] == buffer[..i];
      sum := sum + (buffer[i] as int) * (buffer[i] as int);
      if Abs(buffer[i]) > Abs(maxSample) {
        maxSample := buffer[i];
        k := i;
      }
      i := i + 1;
    }
    assert buffer[..frames] == buffer[..i];
    SumSquaresBounds(buffer[..frames]);
  }

  /** Whether a tick at second `now` with level `level` raises the
      level-high warning, given the second of the previous warning. */
  predicate WarnsLevelHigh(level: U32, now: U32, lastWarning: U32)
  {
    level > LevelHighThreshold && now > lastWarning
  }

  /** The seconds at which warnings are raised over a run of ticks, each a
      (level, current second) pair, starting from last-warned second `last`. */
  function WarningSeconds(last: U32, ticks: seq<(U32, U32)>): seq<U32>
    decreases |ticks|
  {
    if ticks == [] then []
    else if WarnsLevelHigh(ticks[0].0, ticks[0].1, last)
    then [ticks[0].1] + WarningSeconds(ticks[0].1, ticks[1..])
    else WarningSeconds(last, ticks[1..])
  }

  /** Warnings come at strictly increasing seconds, all later than the
      previous warning: at most one per second, and none at second 0. */
  lemma {:induction false} WarningSecondsIncrease(last: U32, ticks: seq<(U32, U32)>)
    ensures forall i :: 0 <= i < |WarningSeconds(last, ticks)| ==> WarningSeconds(last, ticks)[i] > last
    ensures forall i, j :: 0 <= i < j < |WarningSeconds(last, ticks)| ==>
              WarningSeconds(last, ticks)[i] < WarningSeconds(last, ticks)[j]
    ensures |WarningSeconds(last, ticks)| <= |ticks|
    decreases |ticks|
  {
    if ticks != [] {
      if WarnsLevelHigh(ticks[0].0, ticks[0].1, last) {
        WarningSecondsIncrease(ticks[0].1, ticks[1..]);
      } else {
        WarningSecondsIncrease(last, ticks[1..]);
      }
    }
  }

  class USBSoundCard {
    var audioCapturing: bool
    var audioDevice: Pcm
    const audioBuffer: array<I16>
    var framesProcessed: U32
    /** Second of the last level-high warning (a function-local static in
        the component, a field here). */
    var lastWarningTime: U32
    /** Events and telemetry emitted so far. */
    var outputs: seq<Output>

    /** Capturing implies an open device handle. The converse does not hold:
        a failed configuration closes the handle without clearing it. */
    ghost predicate Valid()
      reads this
    {
      audioBuffer.Length == BufferSize &&
      (audioCapturing ==> audioDevice.Handle? && audioDevice.isOpen)
    }

    constructor ()
      ensures Valid() && fresh(audioBuffer)
      ensures !audioCapturing && audioDevice == Null
      ensures framesProcessed == 0 && lastWarningTime == 0 && outputs == []
    {
      audioCapturing := false;
      audioDevice := Null;
      audioBuffer := new I16[BufferSize];
      framesProcessed := 0;
      lastWarningTime := 0;
      outputs := [];
    }

    /** Destruction: a capturing component releases its device. */
    method Dispose()
      modifies this
      ensures old(audioCapturing) ==> audioDevice == Null
      ensures !old(audioCapturing) ==> audioDevice == old(audioDevice)
      ensures audioCapturing == old(audioCapturing) && outputs == old(outputs)
      ensures framesProcessed == old(framesProcessed) && lastWarningTime == old(lastWarningTime)
    {
      if audioCapturing {
        StopAudioCapture();
      }
    }

    method StartCapture(alsa: Alsa) returns (response: CmdResponse)
      requires Valid()
      modifies this
      ensures Valid()
      ensures framesProcessed == old(framesProcessed) && lastWarningTime == old(lastWarningTime)
      ensures old(audioCapturing) ==>
                response == ExecutionError && audioCapturing && audioDevice == old(audioDevice) &&
                outputs == old(outputs) + [CaptureAlreadyStarted]
      ensures !old(audioCapturing) ==>
                audioCapturing == InitSucceeds(alsa) &&
                audioDevice == DeviceAfterInit(old(audioDevice), alsa) &&
                response == (if InitSucceeds(alsa) then Ok else ExecutionError) &&
                outputs == old(outputs) + (if InitSucceeds(alsa) then [CaptureStarted, DeviceConnected(true)]
                                           else [DeviceDisconnected, DeviceConnected(false)])
    {
      if audioCapturing {
        outputs := outputs + [CaptureAlreadyStarted];
        return ExecutionError;
      }
      var ok := InitializeAudioDevice(alsa);
      if ok {
        audioCapturing := true;
        outputs := outputs + [CaptureStarted, DeviceConnected(true)];
        response := Ok;
      } else {
        outputs := outputs + [DeviceDisconnected, DeviceConnected(false)];
        response := ExecutionError;
      }
    }

    method StopCapture() returns (response: CmdResponse)
      requires Valid()
      modifies this
      ensures Valid()
      ensures !old(audioCapturing) ==> response == ExecutionError && unchanged(this)
      ensures old(audioCapturing) ==>
                response == Ok && !audioCapturing && audioDevice == Null &&
                outputs == old(outputs) + [CaptureStopped, DeviceConnected(false)] &&
                framesProcessed == old(framesProcessed) && lastWarningTime == old(lastWarningTime)
    {
      if !audioCapturing {
        return ExecutionError;
      }
      StopAudioCapture();
      audioCapturing := false;
      outputs := outputs + [CaptureStopped, DeviceConnected(false)];
      response := Ok;
    }

    /** The periodic tick: processes one block only while capturing. */
    method Run(read: ReadResult, rmsLevel: (int, nat) -> U32, now: U32)
      requires Valid()
      requires read.Frames? ==> |read.samples| <= BufferSize
      modifies this, audioBuffer
      ensures Valid()
      ensures !old(audioCapturing) ==> unchanged(this) && unchanged(audioBuffer)
      ensures old(audioCapturing) ==> Processed(read, rmsLevel, now)
    {
      if audioCapturing {
        ProcessAudioData(read, rmsLevel, now);
      }
    }

    /** Tries the candidate devices in order, stops at the first that opens,
        then configures it; any configuration failure closes the device. */
    method InitializeAudioDevice(alsa: Alsa) returns (ok: bool)
      modifies this`audioDevice
      ensures ok == InitSucceeds(alsa)
      ensures audioDevice == DeviceAfterInit(old(audioDevice), alsa)
    {
      var openOk := false;
      var i := 0;
      while i < |DeviceNames|
        invariant 0 <= i <= |DeviceNames|
        invariant !openOk && audioDevice == old(audioDevice)
        invariant FirstOpened(alsa) == FirstOpenedFrom(alsa, i)
      {
        openOk := Opens(alsa, i);
        if openOk {
          audioDevice := Handle(DeviceNames[i], true);
          break;
        }
        i := i + 1;
      }
      if !openOk {
        return false;
      }
      if !alsa.setFormat {
        audioDevice := audioDevice.(isOpen := false);
        return false;
      }
      if !alsa.setRate {
        audioDevice := audioDevice.(isOpen := false);
        return false;
      }
      if !alsa.setChannels {
        audioDevice := audioDevice.(isOpen := false);
        return false;
      }
      if !alsa.hwParams {
        audioDevice := audioDevice.(isOpen := false);
        return false;
      }
      if !alsa.prepare {
        audioDevice := audioDevice.(isOpen := false);
        return false;
      }
      return true;
    }

    /** Closes the device if there is one; idempotent. */
    method StopAudioCapture()
      modifies this`audioDevice
      ensures audioDevice == Null
      ensures old(audioDevice) == Null ==> unchanged(this)
    {
      if audioDevice != Null {
        audioDevice := Null;
      }
    }

    /** The effect of processing one read, relating this state to the state
        before the call. */
    twostate predicate Processed(read: ReadResult, rmsLevel: (int, nat) -> U32, now: U32)
      reads this
    {
      audioCapturing == old(audioCapturing) && audioDevice == old(audioDevice) &&
      if old(audioDevice) == Null || read.ReadError? || |read.samples| == 0 then
        framesProcessed == old(framesProcessed) && lastWarningTime == old(lastWarningTime) &&
        outputs == old(outputs)
      else
        var level := rmsLevel(SumSquares(read.samples), |read.samples|);
        var warn := WarnsLevelHigh(level, now, old(lastWarningTime));
        framesProcessed == Add32(old(framesProcessed), 1) &&
        lastWarningTime == (if warn then now else old(lastWarningTime)) &&
        outputs == old(outputs) + [AudioInputLevel(level), FramesProcessed(framesProcessed)] +
                   (if warn then [AudioLevelHigh] else [])
    }

    /** Reads one block; a failed read is recovered and skipped, an empty read
        is skipped, and a non-empty one reports level and frame count and may
        raise the throttled warning. */
    method ProcessAudioData(read: ReadResult, rmsLevel: (int, nat) -> U32, now: U32)
      requires Valid()
      requires read.Frames? ==> |read.samples| <= BufferSize
      modifies this, audioBuffer
      ensures Valid()
      ensures Processed(read, rmsLevel, now)
      ensures old(audioDevice) == Null || read.ReadError? ==> unchanged(audioBuffer)
      ensures old(audioDevice) != Null && read.Frames? ==> audioBuffer[..|read.samples|] == read.samples
    {
      if audioDevice == Null {
        return;
      }
      if read.ReadError? {
        return;
      }
      var frames := |read.samples|;
      ReadInto(read.samples);
      if frames == 0 {
        return;
      }
      var sum, maxSample := AccumulateLevel(audioBuffer, frames);
      var level := rmsLevel(sum, frames);
      outputs := outputs + [AudioInputLevel(level)];
      framesProcessed := Add32(framesProcessed, 1);
      outputs := outputs + [FramesProcessed(framesProcessed)];
      if level > LevelHighThreshold {
        if now > lastWarningTime {
          outputs := outputs + [AudioLevelHigh];
          lastWarningTime := now;
        }
      }
    }

    /** The samples a successful read stores at the front of the buffer. */
    method ReadInto(samples: seq<I16>)
      requires |samples| <= audioBuffer.Length
      modifies audioBuffer
      ensures audioBuffer[..|samples|] == samples
      ensures audioBuffer[|samples|..] == old(audioBuffer[|samples|..])
    {
      var i := 0;
      while i < |samples|
        invariant 0 <= i <= |samples|
        invariant audioBuffer[..i] == samples[..i]
        invariant audioBuffer[|samples|..] == old(audioBuffer[|samples|..])
      {
        audioBuffer[i] := samples[i];
        i := i + 1;
      }
    }
  }
}
