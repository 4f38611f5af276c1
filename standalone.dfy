/**
 * The older single-file revision of the tool (main.py): one object holds the
 * recording flag, the frame queue and the Option-key flag, opens a mono stream at
 * a fixed 16000 Hz, and on release drains the queue, transcribes the capture
 * through a speech-to-text API and pastes the result. The API is a parameter: any
 * function from the written WAV file to a reply or an error.
 */
module Standalone {
  import opened Wrappers
  import opened Host
  import opened Text
  import opened Capture

  const FixedSampleRate: int := 16000
  /** Prefix of the text returned in place of a transcription when the API call fails. */
  const FailurePrefix: string := "转录失败: "

  /** What the transcription API call produced: a reply body, or an exception's message. */
  datatype ApiResponse = Response(body: string) | ApiError(message: string)

  /**
   * The text `transcribe_audio` returns: the reply with surrounding whitespace
   * stripped, or, instead of raising, the failure prefix and the error message.
   */
  function TranscribeAudio(reply: ApiResponse): (text: string)
    ensures reply.ApiError? ==> FailurePrefix <= text && text[|FailurePrefix|..] == reply.message
    ensures reply.ApiError? ==> text != ""
    ensures reply.Response? ==> text == Strip(reply.body) && Contains(reply.body, text)
    ensures reply.Response? ==> (text == "" <==> AllSpace(reply.body))
    ensures text != "" && reply.Response? ==> !IsSpace(text[0]) && !IsSpace(text[|text| - 1])
  {
    match reply
    case Response(body) =>
      StripWithin(body);
      StripEmptyIff(body);
      Strip(body)
    case ApiError(message) =>
      FailurePrefix + message
  }

  /**
   * Starting acts only on an idle session and sets the flag before opening the
   * stream; when opening fails the error propagates but the flag stays set.
   */
  function Start(s: Session, stream: StreamOutcome): (r: Started)
    ensures r.after.recording && r.after.queue == s.queue
    ensures s.recording ==> r == Started(s, None)
    ensures r.error.Some? <==> !s.recording && stream.StreamFailed?
    ensures r.error.Some? ==> r.error.value == stream.message
    ensures Settled(s) ==> Settled(r.after)
  {
    if s.recording then Started(s, None)
    else
      match stream
      case StreamStarted => Started(s.(recording := true), None)
      case StreamFailed(message) => Started(s.(recording := true), Some(message))
  }

  /** The session part of `Start`, as the press step of a run of events. */
  function StartSession(s: Session, stream: StreamOutcome): Session
  {
    Start(s, stream).after
  }

  /** Any sequence of presses, frames and releases keeps this revision's session settled too. */
  lemma StandaloneRunStaysSettled(s: Session, events: seq<Event>)
    requires Settled(s)
    ensures Settled(Run(StartSession, s, events))
  {
    RunStaysSettled(StartSession, s, events);
  }

  /**
   * After a start whose stream fails, the flag stays set, so every further press
   * before a release is a no-op: opening the stream is not retried.
   */
  lemma {:induction false} FailedStartIsNotRetried(s: Session, message: string, presses: seq<StreamOutcome>)
    requires Settled(s) && !s.recording
    ensures Start(s, StreamFailed(message)) == Started(Session(true, []), Some(message))
    ensures Run(StartSession, Session(true, []), PressesOf(presses)) == Session(true, [])
  {
    PressesWhileRecording(Session(true, []), presses);
  }

  /** A press event for each stream outcome, in order. */
  function PressesOf(presses: seq<StreamOutcome>): (events: seq<Event>)
    ensures |events| == |presses|
    ensures forall i :: 0 <= i < |presses| ==> events[i] == Press(presses[i])
  {
    if presses == [] then [] else [Press(presses[0])] + PressesOf(presses[1..])
  }

  lemma {:induction false} PressesWhileRecording(s: Session, presses: seq<StreamOutcome>)
    requires s.recording
    ensures Run(StartSession, s, PressesOf(presses)) == s
    decreases |presses|
  {
    if presses != [] {
      assert PressesOf(presses)[1..] == PressesOf(presses[1..]);
      PressesWhileRecording(s, presses[1..]);
    }
  }

  /** The startup error handler: accessibility guidance or a generic log, exiting with 1 either way. */
  function HandleStartupError(message: string): (exit: Exit)
    ensures exit.status == 1
    ensures exit.guidance == AccessibilityGuidance <==> Contains(message, AccessibilityTag)
    ensures exit.guidance != MicrophoneGuidance
  {
    if Contains(message, AccessibilityTag) then Exit(AccessibilityGuidance, 1) else Exit(GenericLog, 1)
  }

  class VoiceInputTool {
    var recording: bool
    var audioQueue: seq<Frame>
    var optionPressed: bool
    const sampleRate: int
    const tempDir: string

    function State(): Session
      reads this
    {
      Session(recording, audioQueue)
    }

    ghost predicate Valid()
      reads this
    {
      Settled(State()) && sampleRate == FixedSampleRate
    }

    constructor (tempDir: string)
      ensures Valid() && State() == Session(false, []) && !optionPressed
      ensures this.tempDir == tempDir
    {
      recording := false;
      audioQueue := [];
      optionPressed := false;
      sampleRate := FixedSampleRate;
      this.tempDir := tempDir;
    }

    /**
     * Opens a mono stream at 16000 Hz unless already recording; `request` is the
     * stream asked for and `error` what propagates when it cannot be opened.
     */
    method StartRecording(stream: StreamOutcome) returns (request: Option<StreamConfig>, error: Option<string>)
      requires Valid()
      modifies this
      ensures Valid() && optionPressed == old(optionPressed)
      ensures State() == Start(old(State()), stream).after
      ensures error == Start(old(State()), stream).error
      ensures request == if old(recording) then None else Some(StreamConfig(1, FixedSampleRate, false))
    {
      request, error := None, None;
      if !recording {
        recording := true;
        request := Some(StreamConfig(1, sampleRate, false));
        match stream
        case StreamStarted =>
        case StreamFailed(message) =>
          error := Some(message);
      }
    }

    /** The stream callback: enqueues a copy of the frame only while recording. */
    method AudioCallback(frame: Frame)
      requires Valid()
      modifies this
      ensures Valid() && optionPressed == old(optionPressed)
      ensures State() == Deliver(old(State()), frame)
    {
      if recording {
        audioQueue := audioQueue + [frame];
      }
    }

    /**
     * Stops: nothing happens when idle. Otherwise the flag is cleared and the
     * queue drained; an empty drain ends there, and a capture is written at
     * 16000 Hz, transcribed, and its text pasted when it is not empty.
     */
    method StopRecording(api: WavFile -> ApiResponse, injector: InjectorOutcome) returns (effects: seq<Effect>)
      requires Valid()
      modifies this
      ensures Valid() && optionPressed == old(optionPressed)
      ensures State() == Stop(old(State())).after
      ensures !old(recording) || old(audioQueue) == [] ==> effects == []
      ensures old(recording) && old(audioQueue) != [] ==>
                var wav := TempWav(tempDir, Flatten(old(audioQueue)), FixedSampleRate);
                var text := TranscribeAudio(api(wav));
                effects == [Transcribed(wav)] + (if text == "" then [] else Paste(text, injector))
    {
      effects := [];
      if recording {
        recording := false;
        var audioData: seq<Frame> := [];
        while audioQueue != []
          invariant !recording && optionPressed == old(optionPressed)
          invariant audioData + audioQueue == old(audioQueue)
          decreases |audioQueue|
        {
          audioData := audioData + [audioQueue[0]];
          audioQueue := audioQueue[1..];
        }
        assert audioData == old(audioQueue);
        if audioData != [] {
          var audio := Flatten(audioData);
          var wav := TempWav(tempDir, audio, sampleRate);
          assert wav == TempWav(tempDir, Flatten(old(audioQueue)), FixedSampleRate);
          var text := TranscribeAudio(api(wav));
          effects := [Transcribed(wav)] + (if text == "" then [] else Paste(text, injector));
        }
      }
    }

    /** A press of left Option sets the flag and starts recording; other keys are ignored. */
    method OnPress(key: Key, stream: StreamOutcome) returns (request: Option<StreamConfig>, error: Option<string>)
      requires Valid()
      modifies this
      ensures Valid()
      ensures key != AltL ==> request == None && error == None
      ensures key != AltL ==> State() == old(State()) && optionPressed == old(optionPressed)
      ensures key == AltL ==> optionPressed
      ensures key == AltL ==> State() == Start(old(State()), stream).after
      ensures key == AltL ==> error == Start(old(State()), stream).error
      ensures key == AltL ==> request == if old(recording) then None else Some(StreamConfig(1, FixedSampleRate, false))
    {
      request, error := None, None;
      if key == AltL {
        optionPressed := true;
        request, error := StartRecording(stream);
      }
    }

    /**
     * A release of left Option clears the flag and stops recording; other keys are
     * ignored. A release with no active recording session never calls the API.
     */
    method OnRelease(key: Key, api: WavFile -> ApiResponse, injector: InjectorOutcome) returns (effects: seq<Effect>)
      requires Valid()
      modifies this
      ensures Valid()
      ensures key != AltL ==> effects == []
      ensures key != AltL ==> State() == old(State()) && optionPressed == old(optionPressed)
      ensures key == AltL ==> !optionPressed && State() == Stop(old(State())).after
      ensures key == AltL ==> (effects != [] <==> old(recording) && old(audioQueue) != [])
      ensures key == AltL && old(recording) && old(audioQueue) != [] ==>
                var wav := TempWav(tempDir, Flatten(old(audioQueue)), FixedSampleRate);
                var text := TranscribeAudio(api(wav));
                effects == [Transcribed(wav)] + (if text == "" then [] else Paste(text, injector))
      ensures !old(recording) ==> effects == []
    {
      effects := [];
      if key == AltL {
        optionPressed := false;
        effects := StopRecording(api, injector);
      }
    }
  }
}
