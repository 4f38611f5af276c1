/**
 * The recording session shared by both revisions of the tool, as values: a
 * `recording` flag and the queue of audio frames the stream callback has put,
 * the callback that enqueues a frame, and the stop step that drains the queue
 * and concatenates what it drained. Only starting a session differs between
 * the revisions; each defines its own start.
 */
module Capture {
  import opened Wrappers
  import opened Host

  /** One block of mono samples delivered by the audio callback. */
  type Frame = seq<int>

  /** `np.concatenate` of a list of frames. */
  function Flatten(frames: seq<Frame>): seq<int>
  {
    if frames == [] then [] else frames[0] + Flatten(frames[1..])
  }

  /** The sum of the frame lengths. */
  function TotalLength(frames: seq<Frame>): nat
  {
    if frames == [] then 0 else |frames[0]| + TotalLength(frames[1..])
  }

  lemma {:induction false} FlattenLength(frames: seq<Frame>)
    ensures |Flatten(frames)| == TotalLength(frames)
  {
    if frames != [] {
      FlattenLength(frames[1..]);
    }
  }

  lemma {:induction false} FlattenAppend(a: seq<Frame>, b: seq<Frame>)
    ensures Flatten(a + b) == Flatten(a) + Flatten(b)
  {
    if a == [] {
      assert a + b == b;
    } else {
      assert (a + b)[1..] == a[1..] + b;
      FlattenAppend(a[1..], b);
    }
  }

  /**
   * Concatenation keeps arrival order: sample `j` of frame `i` sits right after
   * all the samples of the frames before it.
   */
  lemma FlattenPlacesFrames(frames: seq<Frame>, i: nat, j: nat)
    requires i < |frames| && j < |frames[i]|
    ensures TotalLength(frames[..i]) + j < |Flatten(frames)|
    ensures Flatten(frames)[TotalLength(frames[..i]) + j] == frames[i][j]
  {
    assert frames == frames[..i] + ([frames[i]] + frames[i + 1..]);
    FlattenAppend(frames[..i], [frames[i]] + frames[i + 1..]);
    assert Flatten([frames[i]] + frames[i + 1..]) == frames[i] + Flatten(frames[i + 1..]) by {
      assert ([frames[i]] + frames[i + 1..])[1..] == frames[i + 1..];
    }
    FlattenLength(frames[..i]);
  }

  /** `n` deliveries of `k` samples each concatenate to exactly `n * k` samples. */
  lemma {:induction false} FlattenUniform(frames: seq<Frame>, k: nat)
    requires forall i :: 0 <= i < |frames| ==> |frames[i]| == k
    ensures |Flatten(frames)| == |frames| * k
  {
    if frames != [] {
      FlattenUniform(frames[1..], k);
    }
  }

  /** The session: the `recording` flag and the frames waiting in `audio_queue`. */
  datatype Session = Session(recording: bool, queue: seq<Frame>)

  /** The session invariant: an idle session holds no frames. */
  predicate Settled(s: Session)
  {
    !s.recording ==> s.queue == []
  }

  /** The session after a start request, and the error re-raised if the stream failed. */
  datatype Started = Started(after: Session, error: Option<string>)

  /** The stream callback: a copy of the frame is enqueued only while recording. */
  function Deliver(s: Session, frame: Frame): (r: Session)
    ensures !s.recording ==> r == s
    ensures s.recording ==> r.queue == s.queue + [frame]
    ensures r.recording == s.recording && |s.queue| <= |r.queue| && r.queue[..|s.queue|] == s.queue
    ensures Settled(s) ==> Settled(r)
  {
    if s.recording then s.(queue := s.queue + [frame]) else s
  }

  /** The callback invoked once per frame, in order. */
  function Feed(s: Session, frames: seq<Frame>): Session
    decreases |frames|
  {
    if frames == [] then s else Feed(Deliver(s, frames[0]), frames[1..])
  }

  /** What stopping leaves behind, and the concatenated capture if there is one. */
  datatype Stopped = Stopped(after: Session, capture: Option<seq<int>>)

  /**
   * Stopping: a no-op returning nothing on an idle session; otherwise the flag is
   * cleared, the queue drained completely, and the drained frames concatenated,
   * or nothing returned when no frame had arrived.
   */
  function Stop(s: Session): (r: Stopped)
    ensures !s.recording ==> r == Stopped(s, None)
    ensures s.recording ==> r.after == Session(false, [])
    ensures !r.after.recording && (Settled(s) ==> r.after == Session(false, []))
    ensures r.capture.Some? <==> s.recording && s.queue != []
    ensures r.capture.Some? ==> r.capture.value == Flatten(s.queue)
    ensures r.capture.Some? ==> |r.capture.value| == TotalLength(s.queue)
  {
    if !s.recording then Stopped(s, None)
    else if s.queue == [] then Stopped(Session(false, []), None)
    else FlattenLength(s.queue); Stopped(Session(false, []), Some(Flatten(s.queue)))
  }

  /** While recording, each delivered frame is appended, in order. */
  lemma {:induction false} FeedWhileRecording(s: Session, frames: seq<Frame>)
    requires s.recording
    ensures Feed(s, frames) == Session(true, s.queue + frames)
    decreases |frames|
  {
    if frames != [] {
      FeedWhileRecording(Deliver(s, frames[0]), frames[1..]);
      assert s.queue + [frames[0]] + frames[1..] == s.queue + frames;
    }
  }

  /** While idle, delivered frames are dropped and the session does not change. */
  lemma {:induction false} FeedWhileIdle(s: Session, frames: seq<Frame>)
    requires !s.recording
    ensures Feed(s, frames) == s
    decreases |frames|
  {
    if frames != [] {
      FeedWhileIdle(Deliver(s, frames[0]), frames[1..]);
    }
  }

  /**
   * A freshly started session that receives `frames` and is then stopped returns
   * exactly those frames concatenated in arrival order, or nothing when no frame
   * arrived, and ends idle and empty.
   */
  lemma CaptureIsDeliveredFrames(frames: seq<Frame>)
    ensures Stop(Feed(Session(true, []), frames)).after == Session(false, [])
    ensures Stop(Feed(Session(true, []), frames)).capture
            == if frames == [] then None else Some(Flatten(frames))
  {
    FeedWhileRecording(Session(true, []), frames);
    assert [] + frames == frames;
  }

  /** Once a settled session is stopped, late callbacks append nothing. */
  lemma {:induction false} LateFramesIgnored(s: Session, frames: seq<Frame>)
    requires Settled(s)
    ensures Feed(Stop(s).after, frames) == Session(false, [])
  {
    FeedWhileIdle(Stop(s).after, frames);
  }

  /** One event of a session: a key press that opens a stream, a frame, a key release. */
  datatype Event = Press(stream: StreamOutcome) | Audio(frame: Frame) | Release

  /** Runs a sequence of events, given how a revision starts a session. */
  function Run(start: (Session, StreamOutcome) -> Session, s: Session, events: seq<Event>): Session
    decreases |events|
  {
    if events == [] then s
    else
      var next := match events[0]
        case Press(stream) => start(s, stream)
        case Audio(frame) => Deliver(s, frame)
        case Release => Stop(s).after;
      Run(start, next, events[1..])
  }

  /** If starting keeps a session settled, every run of events does too. */
  lemma {:induction false} RunStaysSettled(start: (Session, StreamOutcome) -> Session, s: Session, events: seq<Event>)
    requires forall t: Session, o: StreamOutcome :: Settled(t) ==> Settled(start(t, o))
    requires Settled(s)
    ensures Settled(Run(start, s, events))
    decreases |events|
  {
    if events != [] {
      var next := match events[0]
        case Press(stream) => start(s, stream)
        case Audio(frame) => Deliver(s, frame)
        case Release => Stop(s).after;
      RunStaysSettled(start, next, events[1..]);
    }
  }
}
