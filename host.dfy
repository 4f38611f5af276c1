/**
 * What the push-to-talk tool observes from, and does to, its host: keys reported
 * by the keyboard listener, the outcome of opening an audio input stream, the WAV
 * file handed to a transcriber, clipboard and paste actions, and the process exit.
 */
module Host {

  /** A key reported by the keyboard listener; only the left Option key matters. */
  datatype Key = AltL | OtherKey(name: string)

  /** The parameters an input stream is opened with. */
  datatype StreamConfig = StreamConfig(channels: nat, sampleRate: int, lowLatency: bool)

  /** What the audio device did when asked to open and start a stream. */
  datatype StreamOutcome = StreamStarted | StreamFailed(message: string)

  /** A recording written to disk: where, which samples, at which rate. */
  datatype WavFile = WavFile(path: string, samples: seq<int>, sampleRate: int)

  /** How far the clipboard-and-paste injection got before failing, if it failed. */
  datatype InjectorOutcome = Delivered | CopyFailed | ShortcutFailed

  /** Observable actions, in the order they happen. */
  datatype Effect =
    | Transcribed(file: WavFile)
    | ClipboardSet(text: string)
    | PasteShortcut

  /** The part of the keyboard listener's error that signals missing accessibility permission. */
  const AccessibilityTag: string := "Input event monitoring will not be possible"

  /** Which guidance a startup failure prints before the process exits. */
  datatype Guidance = AccessibilityGuidance | MicrophoneGuidance | GenericLog

  datatype Exit = Exit(guidance: Guidance, status: int)

  /** `os.path.join(directory, name)` for a relative file name on a POSIX system. */
  function JoinPath(directory: string, name: string): (path: string)
    ensures |name| <= |path| && path[|path| - |name|..] == name
    ensures directory <= path
    ensures |directory| + |name| <= |path| <= |directory| + 1 + |name|
    ensures directory != [] ==> path[|path| - |name| - 1] == '/'
    ensures directory == [] ==> path == name
    ensures directory != [] && directory[|directory| - 1] == '/' ==> |path| == |directory| + |name|
  {
    if directory == [] then name
    else if directory[|directory| - 1] == '/' then directory + name
    else directory + "/" + name
  }

  /** The name of the file a finished recording is written to. */
  const TempFileName: string := "temp_audio.wav"

  /** The recording written as `temp_audio.wav` in `tempDir` at `sampleRate`. */
  function TempWav(tempDir: string, samples: seq<int>, sampleRate: int): (f: WavFile)
    ensures f.samples == samples && f.sampleRate == sampleRate
    ensures tempDir <= f.path
    ensures |TempFileName| <= |f.path| && f.path[|f.path| - |TempFileName|..] == TempFileName
    ensures |tempDir| + |TempFileName| <= |f.path| <= |tempDir| + 1 + |TempFileName|
    ensures tempDir != [] ==> f.path[|f.path| - |TempFileName| - 1] == '/'
  {
    WavFile(JoinPath(tempDir, TempFileName), samples, sampleRate)
  }

  /**
   * Copying `text` to the clipboard and then pressing Cmd+V. A failure is logged
   * and swallowed, so the effects are whatever happened before it.
   */
  function Paste(text: string, injector: InjectorOutcome): (effects: seq<Effect>)
    ensures PasteShortcut in effects ==> effects == [ClipboardSet(text), PasteShortcut]
    ensures effects == [] || effects[0] == ClipboardSet(text)
    ensures effects == [] <==> injector == CopyFailed
    ensures injector == Delivered ==> effects == [ClipboardSet(text), PasteShortcut]
    ensures injector == ShortcutFailed ==> effects == [ClipboardSet(text)]
    ensures effects <= [ClipboardSet(text), PasteShortcut]
  {
    match injector
    case Delivered => [ClipboardSet(text), PasteShortcut]
    case CopyFailed => []
    case ShortcutFailed => [ClipboardSet(text)]
  }
}
