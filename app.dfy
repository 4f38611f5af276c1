/**
 * The entry point of the modular revision (src/main.py): wires the keyboard
 * manager's callbacks to the recorder, sends a finished recording to the
 * transcriber and types the text it returns, and sorts startup errors into the
 * guidance printed before exiting. The transcriber is a parameter: any function
 * from the written WAV file to text (a `None` reply is the empty text, both
 * being falsy to the `if text:` test).
 */
module App {
  import opened Wrappers
  import opened Host
  import opened Text
  import opened Capture
  import Recorder
  import Listener

  /**
   * The startup error handler: accessibility guidance when the listener's
   * permission message is present (checked first), else microphone guidance when
   * the device error is present, else a generic log; every branch exits with 1.
   */
  function HandleStartupError(message: string): (exit: Exit)
    ensures exit.status == 1
    ensures exit.guidance == AccessibilityGuidance <==> Contains(message, AccessibilityTag)
    ensures exit.guidance == MicrophoneGuidance
            <==> !Contains(message, AccessibilityTag) && Contains(message, Recorder.DeviceErrorTag)
    ensures exit.guidance == GenericLog
            <==> !Contains(message, AccessibilityTag) && !Contains(message, Recorder.DeviceErrorTag)
  {
    if Contains(message, AccessibilityTag) then Exit(AccessibilityGuidance, 1)
    else if Contains(message, Recorder.DeviceErrorTag) then Exit(MicrophoneGuidance, 1)
    else Exit(GenericLog, 1)
  }

  /** A failing device query at startup ends in the microphone guidance and exit status 1. */
  lemma DeviceFailureGetsMicrophoneGuidance(query: Recorder.DeviceQuery)
    requires query.QueryFailed?
    ensures HandleStartupError(Recorder.CheckAudioDevices(query).error) == Exit(MicrophoneGuidance, 1)
  {
    var message := Recorder.CheckAudioDevices(query).error;
    if Contains(message, AccessibilityTag) {
      ContainsNeedsRoom(message, AccessibilityTag);
    }
  }

  class VoiceInputTool {
    const recorder: Recorder.AudioRecorder
    const keyboard: Listener.KeyboardManager

    ghost predicate Valid()
      reads this, recorder
    {
      recorder.Valid()
    }

    constructor (recorder: Recorder.AudioRecorder)
      requires recorder.Valid()
      ensures Valid() && this.recorder == recorder
      ensures fresh(keyboard) && !keyboard.optionPressed
    {
      this.recorder := recorder;
      keyboard := new Listener.KeyboardManager();
    }

    /** Record-start: delegates to the recorder and keeps no state of its own. */
    method StartRecording(stream: StreamOutcome) returns (request: Option<StreamConfig>, error: Option<string>)
      requires Valid()
      modifies recorder
      ensures Valid()
      ensures recorder.State() == Recorder.Start(old(recorder.State()), stream).after
      ensures error == Recorder.Start(old(recorder.State()), stream).error
      ensures request == if old(recorder.recording) then None else Some(StreamConfig(1, recorder.sampleRate, true))
    {
      request, error := recorder.StartRecording(stream);
    }

    /**
     * Record-stop: the transcriber is called only when the recorder returned a
     * file, and the text is typed only when it is not empty.
     */
    method StopRecording(transcribe: WavFile -> string, injector: InjectorOutcome) returns (effects: seq<Effect>)
      requires Valid()
      modifies recorder
      ensures Valid()
      ensures recorder.State() == Stop(old(recorder.State())).after
      ensures !old(recorder.recording) ==> effects == []
      ensures Stop(old(recorder.State())).capture.None? ==> effects == []
      ensures Stop(old(recorder.State())).capture.Some? ==>
                var wav := TempWav(recorder.tempDir, Stop(old(recorder.State())).capture.value, recorder.sampleRate);
                effects == [Transcribed(wav)] + (if transcribe(wav) == "" then [] else Paste(transcribe(wav), injector))
      ensures forall e :: e in effects && e.ClipboardSet? ==> e.text != ""
    {
      effects := [];
      var audioPath := recorder.StopRecording();
      if audioPath.Some? {
        var text := transcribe(audioPath.value);
        effects := [Transcribed(audioPath.value)];
        if text != "" {
          var typed := keyboard.TypeText(text, injector);
          effects := effects + typed;
        }
      }
    }

    /** A key press, dispatched through the keyboard manager to record-start. */
    method OnPress(key: Key, stream: StreamOutcome) returns (request: Option<StreamConfig>, error: Option<string>)
      requires Valid()
      modifies recorder, keyboard
      ensures Valid()
      ensures key != AltL ==> request == None && error == None
      ensures key != AltL ==> recorder.State() == old(recorder.State()) && keyboard.optionPressed == old(keyboard.optionPressed)
      ensures key == AltL ==> keyboard.optionPressed
      ensures key == AltL ==> recorder.State() == Recorder.Start(old(recorder.State()), stream).after
      ensures key == AltL ==> error == Recorder.Start(old(recorder.State()), stream).error
      ensures key == AltL ==> request == if old(recorder.recording) then None else Some(StreamConfig(1, recorder.sampleRate, true))
      ensures old(recorder.recording) ==> recorder.State() == old(recorder.State()) && request == None && error == None
    {
      request, error := None, None;
      var startFired := keyboard.OnPress(key);
      if startFired {
        request, error := StartRecording(stream);
      }
    }

    /**
     * A key release, dispatched through the keyboard manager to record-stop. A
     * release with no active recording session never calls the transcriber.
     */
    method OnRelease(key: Key, transcribe: WavFile -> string, injector: InjectorOutcome) returns (effects: seq<Effect>)
      requires Valid()
      modifies recorder, keyboard
      ensures Valid()
      ensures key != AltL ==> effects == []
      ensures key != AltL ==> recorder.State() == old(recorder.State()) && keyboard.optionPressed == old(keyboard.optionPressed)
      ensures key == AltL ==> !keyboard.optionPressed && recorder.State() == Stop(old(recorder.State())).after
      ensures key == AltL ==> (effects != [] <==> Stop(old(recorder.State())).capture.Some?)
      ensures key == AltL && Stop(old(recorder.State())).capture.Some? ==>
                var wav := TempWav(recorder.tempDir, Stop(old(recorder.State())).capture.value, recorder.sampleRate);
                effects == [Transcribed(wav)] + (if transcribe(wav) == "" then [] else Paste(transcribe(wav), injector))
      ensures forall e :: e in effects && e.ClipboardSet? ==> e.text != ""
      ensures !old(recorder.recording) ==> effects == []
    {
      effects := [];
      var stopFired := keyboard.OnRelease(key);
      if stopFired {
        effects := StopRecording(transcribe, injector);
      }
    }
  }

  /** Constructs the tool; the recorder's device error propagates to the caller. */
  method NewVoiceInputTool(query: Recorder.DeviceQuery, tempDir: string) returns (r: Result<VoiceInputTool, string>)
    ensures r.Failure? <==> query.QueryFailed?
    ensures r.Failure? ==> r.error == Recorder.DeviceErrorMessage
    ensures r.Success? ==> fresh(r.value) && fresh(r.value.recorder) && r.value.Valid()
    ensures r.Success? ==> r.value.recorder.State() == Session(false, []) && !r.value.keyboard.optionPressed
  {
    var made := Recorder.NewAudioRecorder(query, tempDir);
    match made
    case Failure(message) =>
      r := Failure(message);
    case Success(recorder) =>
      var tool := new VoiceInputTool(recorder);
      r := Success(tool);
  }
}
