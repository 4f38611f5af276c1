# Whisper-Input push-to-talk core, modelled in Dafny

Whisper-Input is a macOS push-to-talk dictation tool. Holding the left Option key
records the microphone. Releasing it stops the recording, sends the audio to a
speech-to-text service and pastes the returned text at the cursor. This project
models the part of the tool that can be reasoned about:

- the recording session: a `recording` flag, a queue of audio frames filled by the
  stream callback, and the stop step that drains the queue and concatenates it;
- the key dispatch that drives it (left Option press and release);
- the glue that transcribes a non-empty capture and types non-empty text;
- the classification of startup errors.

The repository holds two revisions of this code, and both are modelled:

- the modular one: `src/audio/recorder.py`, `src/keyboard/listener.py` and
  `src/main.py`, in modules `Recorder`, `Listener` and `App`;
- the older single file `main.py`, in module `Standalone`.

The recording session they share is modelled as values in module `Capture`:

- `Session` holds the flag and the queued frames;
- `Deliver` is the callback;
- `Feed` is a run of callbacks;
- `Stop` drains the queue;
- `Run` is a sequence of press, frame and release events.

Both revisions keep one invariant, `Settled`: an idle session holds no frames and
receives none. Each class's `State()` gives its session value, and each method's
contract ties the new state to these functions.

The revisions differ when the audio stream fails to open or start:

- `Recorder.Start` resets the flag and re-raises the error;
- `Standalone.Start` sets the flag before opening the stream and never resets it.

`Standalone.FailedStartIsNotRetried` proves the consequence. Until a release, every
later press is a no-op, so opening the stream is never retried.
In the running program both revisions raise the error out of `on_press`, which ends
the keyboard listener, so the difference is the state left behind, visible only to
a caller that catches the error.

Modelling choices:

- Audio is integers, one `seq<int>` per frame.
- Sample rates are integer Hz.
- The device, the stream, the transcriber and the clipboard are parameters:
  - a `DeviceQuery` is the outcome of querying the default input device;
  - a `StreamOutcome` is the outcome of opening and starting a stream;
  - a transcriber is a function from the written `WavFile` to text (modular
    revision) or to an `ApiResponse` (single-file revision);
  - an `InjectorOutcome` says how far the clipboard paste got.
- Callbacks of the keyboard manager are reported as `fired` flags, and `App`
  dispatches on them as the wiring in `src/main.py` does.
- What a user sees is a log of `Effect`s: `Transcribed(file)`,
  `ClipboardSet(text)` and `PasteShortcut`.
- Python's `needle in haystack` is `Text.Contains`, and `str.strip()` is
  `Text.Strip` over the characters `str.isspace()` accepts.
- A transcriber's `None` reply is the empty string. The `if text:` test treats
  both the same way.

## Model

| member | source | states |
|---|---|---|
| `Text.Contains` | src/main.py:53-56 | Python's `needle in haystack`; `ContainsIff` proves it holds exactly when the needle occurs at some position of the haystack |
| `Text.ContainsIff` | src/main.py:53-56 | the substring test used to classify errors holds exactly when the needle occurs at some position of the message |
| `Text.ContainsNeedsRoom` | src/main.py:53-56 | a message shorter than a tag never contains it |
| `Text.Strip` | main.py:148 | Python's `str.strip()`; `StripIsTrimmedSlice` proves it is the slice left after removing the whitespace run at each end, with no whitespace at either end |
| `Text.StripEmptyIff` | main.py:148 | the stripped reply is empty exactly when the reply is all whitespace |
| `Text.StripWithin` | main.py:148 | the stripped reply is a substring of the reply and has no whitespace at either end |
| `Text.StripIsTrimmedSlice` | main.py:148 | stripping removes exactly the leading and trailing whitespace runs and keeps the slice between them |
| `Host.JoinPath` | src/audio/recorder.py:87 | the path is the file name alone for an empty directory; otherwise the directory, then a single `/` separator only when the directory does not already end in one, then the file name: the file sits directly inside the directory |
| `Host.TempWav` | src/audio/recorder.py:87-88 | a capture is written, with its samples unchanged, at the given rate, to a path that is the temp directory, one `/` separator and temp_audio.wav |
| `Host.Paste` | main.py:155-166 | the clipboard is set before Cmd+V is sent, Cmd+V is never sent without it, and a failure only cuts the sequence short |
| `Capture.Flatten` | src/audio/recorder.py:83 | `np.concatenate` of the frames; `FlattenPlacesFrames` and `FlattenLength` prove it holds every sample of every frame in arrival order and nothing else |
| `Capture.FlattenLength` | src/audio/recorder.py:83-84 | the concatenated capture has as many samples as the frames together |
| `Capture.FlattenPlacesFrames` | src/audio/recorder.py:83 | concatenation keeps arrival order: sample j of frame i follows all samples of earlier frames |
| `Capture.FlattenUniform` | src/audio/recorder.py:83-84 | n frames of k samples each concatenate to exactly n*k samples |
| `Capture.Deliver` | src/audio/recorder.py:42-46 | the callback appends only while recording, never rewrites queued frames, and keeps an idle session empty |
| `Capture.Stop` | src/audio/recorder.py:62-91 | stop is a no-op returning nothing when idle; otherwise it leaves the session idle and empty and returns a capture exactly when a frame was queued: the queued frames concatenated, of their total length |
| `Capture.FeedWhileRecording` | src/audio/recorder.py:45-46 | while recording, each delivered frame is appended in order |
| `Capture.FeedWhileIdle` | src/audio/recorder.py:45-46 | while idle, delivered frames change nothing |
| `Capture.CaptureIsDeliveredFrames` | src/audio/recorder.py:75-83 | a started session that receives frames and is stopped returns them concatenated in order, or nothing when none came |
| `Capture.LateFramesIgnored` | src/audio/recorder.py:64-68 | after a stop, late callbacks append nothing |
| `Capture.RunStaysSettled` | src/audio/recorder.py:34-76 | any run of presses, frames and releases keeps an idle session empty, given a start that does |
| `Recorder.ChooseSampleRate` | src/audio/recorder.py:26-28 | the rate is 16000 or the device default, never more than 100 Hz from the default, and 16000 whenever the default is within 100 Hz of it |
| `Recorder.CheckAudioDevices` | src/audio/recorder.py:18-32 | a failing device query gives an error containing the device-error tag; otherwise exactly the rate `ChooseSampleRate` picks for the device default |
| `Recorder.Start` | src/audio/recorder.py:34-60 | start is a no-op while recording; from idle the session records exactly when the stream started, and a stream failure leaves it idle and is re-raised |
| `Recorder.RecorderRunStaysSettled` | src/audio/recorder.py:34-76 | every run of events keeps the recorder's idle session empty |
| `Recorder.RecordedSessionCapture` | src/audio/recorder.py:34-91 | start, frames, stop returns exactly the frames concatenated in order, or nothing for no frames |
| `Recorder.FailedStartCapturesNothing` | src/audio/recorder.py:57-60 | after a failed start, frames are dropped and the release returns nothing |
| `Recorder.AudioRecorder.constructor` | src/audio/recorder.py:10-13 | a new recorder is idle with an empty queue |
| `Recorder.AudioRecorder.StartRecording` | src/audio/recorder.py:34-60 | opens a mono low-latency stream at the recorder's rate only when idle; new state and error as `Start` |
| `Recorder.AudioRecorder.AudioCallback` | src/audio/recorder.py:42-46 | new state as `Deliver`: a frame is enqueued only while recording |
| `Recorder.AudioRecorder.StopRecording` | src/audio/recorder.py:62-91 | drains the queue with a loop; new state and result as `Stop`, the capture written by `Host.TempWav` at the recorder's rate |
| `Recorder.NewAudioRecorder` | src/audio/recorder.py:10-16 | construction fails with the device error exactly when the device query fails; otherwise an idle recorder at the chosen rate |
| `Listener.KeyboardManager.constructor` | src/keyboard/listener.py:6-10 | the Option flag starts cleared |
| `Listener.KeyboardManager.TypeText` | src/keyboard/listener.py:12-26 | empty text touches nothing; other text is copied and pasted, and failures are swallowed |
| `Listener.KeyboardManager.OnPress` | src/keyboard/listener.py:28-33 | left Option sets the flag and fires record-start on every press; any other key changes nothing and fires nothing |
| `Listener.KeyboardManager.OnRelease` | src/keyboard/listener.py:35-40 | left Option clears the flag and fires record-stop; any other key changes nothing and fires nothing |
| `App.HandleStartupError` | src/main.py:47-61 | accessibility guidance when the listener's permission message is present (checked first), else microphone guidance for the device error, else a generic log; always exit status 1 |
| `App.DeviceFailureGetsMicrophoneGuidance` | src/main.py:56-58 | a failing device query at startup ends in the microphone guidance and exit status 1 |
| `App.VoiceInputTool.constructor` | src/main.py:21-27 | the tool owns the given recorder and a fresh keyboard manager with the flag cleared |
| `App.VoiceInputTool.StartRecording` | src/main.py:29-31 | record-start only delegates to the recorder |
| `App.VoiceInputTool.StopRecording` | src/main.py:33-39 | the transcriber is called only on a capture, and only non-empty text is pasted |
| `App.VoiceInputTool.OnPress` | src/main.py:24-31 | a left Option press reaches record-start and opens a mono low-latency stream at the recorder's rate when idle; a press while recording changes nothing |
| `App.VoiceInputTool.OnRelease` | src/main.py:24-39 | a left Option release reaches record-stop: a capture is transcribed once and only non-empty text pasted; a release with no active session never transcribes |
| `App.NewVoiceInputTool` | src/main.py:21-23 | constructing the tool fails with the device error exactly when the device query fails |
| `Standalone.TranscribeAudio` | main.py:137-153 | exactly `Strip` of the reply, Python's `str.strip()`, empty exactly for an all-whitespace reply; on an API error a non-empty failure text instead of an exception |
| `Standalone.Start` | main.py:72-91 | start is a no-op while recording; from idle the flag is set, and stays set when the stream fails |
| `Standalone.StandaloneRunStaysSettled` | main.py:72-105 | every run of events keeps this revision's idle session empty |
| `Standalone.FailedStartIsNotRetried` | main.py:74-90 | after a failed start, later presses never retry opening the stream |
| `Standalone.HandleStartupError` | main.py:200-206 | accessibility guidance exactly when the listener's permission message is present, else a generic log; always exit status 1 |
| `Standalone.VoiceInputTool.constructor` | main.py:63-70 | the tool starts idle, with an empty queue, the flag cleared and rate 16000 |
| `Standalone.VoiceInputTool.StartRecording` | main.py:72-91 | opens a mono stream at 16000 Hz only when idle; new state and error as `Start` |
| `Standalone.VoiceInputTool.AudioCallback` | main.py:79-83 | new state as `Deliver`: a frame is enqueued only while recording |
| `Standalone.VoiceInputTool.StopRecording` | main.py:93-135 | drains the queue with a loop; nothing is transcribed for an empty drain, a capture is transcribed and non-empty text pasted |
| `Standalone.VoiceInputTool.OnPress` | main.py:168-173 | only left Option sets the flag and starts recording, opening a mono 16000 Hz stream when idle |
| `Standalone.VoiceInputTool.OnRelease` | main.py:175-180 | only left Option clears the flag and stops: a capture is transcribed once and non-empty text pasted; a release with no active session never calls the API |

## Left out

- Audio device I/O is not modelled: device queries, `sd.InputStream`, and stream `stop`/`close` and their failures. The device query and stream start are parameters.
- The status warnings the stream callback logs are not modelled.
- WAV encoding is not modelled: a written file is a `WavFile` value.
- Temp-directory creation, `cleanup`/`__del__`, and deleting the temp file after transcription (main.py:121-126) are not modelled.
- Threading between the audio callback and the key listener is not modelled, and neither is `queue.Queue` thread safety. The callback is a sequential method that may run at any point between the other operations, including after a stop.
- The float `default_samplerate` and its `int()` truncation are not modelled. Rates are integer Hz.
- `Listener.KeyboardManager.start_listening` and the pynput `Listener` are not modelled. Neither is pynput's rule that an exception raised in a callback ends the listener and is re-raised by `join`, which leads to the startup error handler. In the model, `OnPress` returns the stream error instead.
- In main.py a release after a failed start would stop a stream that was never opened. That path is not modelled, because the start's exception already ends the listener.
- `Host.Paste`: Cmd+V is one `PasteShortcut` effect, not separate key-down and key-up events for Cmd and V.
- The transcribers (src/transcription/whisper.py, src/transcription/senseVoiceSmall.py) are not modelled, nor is their timeout decorator. The same goes for the LLM wrappers (src/llm/symbol.py, src/llm/translate.py) and the Groq client in main.py. src/main.py imports a `WhisperTranscriber` that src/transcription/whisper.py does not define, so the transcriber is an abstract parameter.
- Logging is not modelled (src/utils/logger.py, `setup_logger`), nor is the text of the permission-guidance printers. Only which guidance is chosen is modelled.
- The code has no dwell-time threshold, no translate-mode modifier, no debounce of repeated presses and no placeholder text at the cursor. It starts recording on every left Option press, and only the recorder's idle check makes repeated presses harmless.
