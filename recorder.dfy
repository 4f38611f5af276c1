/**
 * The audio recorder of the modular revision (src/audio/recorder.py): picks a
 * sample rate from the default input device, starts a mono low-latency input
 * stream whose callback enqueues frames while recording, and on stop drains the
 * queue and writes the concatenated samples to `temp_audio.wav`.
 */
module Recorder {
  import opened Wrappers
  import opened Host
  import opened Text
  import opened Capture

  const TargetSampleRate: int := 16000
  /** How far the device's default rate may be from the target before it is used instead. */
  const RateTolerance: int := 100
  /** The part of the device error that the startup error handler looks for. */
  const DeviceErrorTag: string := "无法访问音频设备"
  const DeviceErrorMessage: string := DeviceErrorTag + "，请检查系统权限设置"

  /** The answer of the device query: an exception, or the default input's rate in Hz. */
  datatype DeviceQuery = QueryFailed(reason: string) | DefaultInput(defaultSampleRate: int)

  function Abs(x: int): nat
  {
    if x < 0 then -x else x
  }

  /**
   * The target rate is kept unless the device's default is more than the
   * tolerance away from it, in which case the device default is used.
   */
  function ChooseSampleRate(deviceDefault: int): (rate: int)
    ensures rate == TargetSampleRate || rate == deviceDefault
    ensures Abs(rate - deviceDefault) <= RateTolerance
    ensures Abs(deviceDefault - TargetSampleRate) <= RateTolerance ==> rate == TargetSampleRate
  {
    if Abs(deviceDefault - TargetSampleRate) > RateTolerance then deviceDefault else TargetSampleRate
  }

  /** The device check run while constructing the recorder: a rate, or the device error. */
  function CheckAudioDevices(query: DeviceQuery): (r: Result<int, string>)
    ensures r.Failure? <==> query.QueryFailed?
    ensures r.Failure? ==> Contains(r.error, DeviceErrorTag)
    ensures r.Success? ==> Abs(r.value - query.defaultSampleRate) <= RateTolerance
    ensures r.Success? ==> r.value == TargetSampleRate || r.value == query.defaultSampleRate
    ensures r.Success? ==> r.value == ChooseSampleRate(query.defaultSampleRate)
  {
    match query
    case QueryFailed(_) => Failure(DeviceErrorMessage)
    case DefaultInput(rate) => Success(ChooseSampleRate(rate))
  }

  /**
   * Starting acts only on an idle session. The flag is set before the stream is
   * opened and reset when opening or starting it fails, so a failed start leaves
   * the session idle and reports the stream's error.
   */
  function Start(s: Session, stream: StreamOutcome): (r: Started)
    ensures s.recording ==> r == Started(s, None)
    ensures !s.recording ==> r.after.queue == s.queue
    ensures !s.recording ==> (r.after.recording <==> stream.StreamStarted?)
    ensures r.error.Some? <==> !s.recording && stream.StreamFailed?
    ensures r.error.Some? ==> r.error.value == stream.message
    ensures Settled(s) ==> Settled(r.after)
  {
    if s.recording then Started(s, None)
    else
      match stream
      case StreamStarted => Started(s.(recording := true), None)
      case StreamFailed(message) => Started(s, Some(message))
  }

  /** The session part of `Start`, as the press step of a run of events. */
  function StartSession(s: Session, stream: StreamOutcome): Session
  {
    Start(s, stream).after
  }

  /** Any sequence of presses, frames and releases keeps the recorder's session settled. */
  lemma RecorderRunStaysSettled(s: Session, events: seq<Event>)
    requires Settled(s)
    ensures Settled(Run(StartSession, s, events))
  {
    RunStaysSettled(StartSession, s, events);
  }

  /**
   * A successful start on an idle session, then frames, then a stop: the capture
   * is those frames concatenated in arrival order, or nothing when none arrived.
   */
  lemma RecordedSessionCapture(s: Session, frames: seq<Frame>)
    requires Settled(s) && !s.recording
    ensures Stop(Feed(Start(s, StreamStarted).after, frames)).after == Session(false, [])
    ensures Stop(Feed(Start(s, StreamStarted).after, frames)).capture
            == if frames == [] then None else Some(Flatten(frames))
  {
    assert Start(s, StreamStarted).after == Session(true, []);
    CaptureIsDeliveredFrames(frames);
  }

  /**
   * A start whose stream fails leaves the recorder idle: frames that follow are
   * dropped and the release that follows returns nothing.
   */
  lemma {:induction false} FailedStartCapturesNothing(s: Session, message: string, frames: seq<Frame>)
    requires Settled(s) && !s.recording
    ensures Start(s, StreamFailed(message)) == Started(s, Some(message))
    ensures Stop(Feed(Start(s, StreamFailed(message)).after, frames)) == Stopped(s, None)
  {
    FeedWhileIdle(s, frames);
  }

  class AudioRecorder {
    var recording: bool
    var audioQueue: seq<Frame>
    const sampleRate: int
    const tempDir: string

    function State(): Session
      reads this
    {
      Session(recording, audioQueue)
    }

    ghost predicate Valid()
      reads this
    {
      Settled(State())
    }

    constructor (sampleRate: int, tempDir: string)
      ensures Valid() && State() == Session(false, [])
      ensures this.sampleRate == sampleRate && this.tempDir == tempDir
    {
      recording := false;
      audioQueue := [];
      this.sampleRate := sampleRate;
      this.tempDir := tempDir;
    }

    /**
     * Opens a mono, low-latency stream at the recorder's rate unless already
     * recording; `request` is the stream asked for and `error` what is re-raised.
     */
    method StartRecording(stream: StreamOutcome) returns (request: Option<StreamConfig>, error: Option<string>)
      requires Valid()
      modifies this
      ensures Valid()
      ensures State() == Start(old(State()), stream).after
      ensures error == Start(old(State()), stream).error
      ensures request == if old(recording) then None else Some(StreamConfig(1, sampleRate, true))
    {
      request, error := None, None;
      if !recording {
        recording := true;
        request := Some(StreamConfig(1, sampleRate, true));
        match stream
        case StreamStarted =>
        case StreamFailed(message) =>
          recording := false;
          error := Some(message);
      }
    }

    /** The stream callback: enqueues a copy of the frame only while recording. */
    method AudioCallback(frame: Frame)
      requires Valid()
      modifies this
      ensures Valid()
      ensures State() == Deliver(old(State()), frame)
    {
      if recording {
        audioQueue := audioQueue + [frame];
      }
    }

    /**
     * Stops: nothing happens and nothing is returned when idle; otherwise the flag
     * is cleared, the queue drained, and the concatenated frames returned as the
     * WAV file written at the recorder's rate, or nothing when no frame arrived.
     */
    method StopRecording() returns (wav: Option<WavFile>)
      requires Valid()
      modifies this
      ensures Valid()
      ensures State() == Stop(old(State())).after
      ensures wav.None? <==> Stop(old(State())).capture.None?
      ensures wav.Some? ==> wav.value == TempWav(tempDir, Stop(old(State())).capture.value, sampleRate)
    {
      if !recording {
        return None;
      }
      recording := false;
      var audioData: seq<Frame> := [];
      while audioQueue != []
        invariant !recording
        invariant audioData + audioQueue == old(audioQueue)
        decreases |audioQueue|
      {
        audioData := audioData + [audioQueue[0]];
        audioQueue := audioQueue[1..];
      }
      assert audioData == old(audioQueue);
      if audioData == [] {
        return None;
      }
      var audio := Flatten(audioData);
      wav := Some(TempWav(tempDir, audio, sampleRate));
    }
  }

  /** Constructs a recorder; a failing device check raises the device error. */
  method NewAudioRecorder(query: DeviceQuery, tempDir: string) returns (r: Result<AudioRecorder, string>)
    ensures r.Failure? <==> query.QueryFailed?
    ensures r.Failure? ==> r.error == DeviceErrorMessage
    ensures r.Success? ==> fresh(r.value) && r.value.Valid() && r.value.State() == Session(false, [])
    ensures r.Success? ==> r.value.sampleRate == ChooseSampleRate(query.defaultSampleRate)
    ensures r.Success? ==> r.value.tempDir == tempDir
  {
    match CheckAudioDevices(query)
    case Failure(message) =>
      r := Failure(message);
    case Success(rate) =>
      var recorder := new AudioRecorder(rate, tempDir);
      r := Success(recorder);
  }
}
