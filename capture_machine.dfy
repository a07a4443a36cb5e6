/**
 * The capture session controller as a single-threaded reducer: an abstract
 * snapshot of the hook's refs and state cells, the events that drive it, and
 * the transition function `Step`. The class in AudioCapture is proved to
 * perform exactly these transitions; the lemmas here state what they mean.
 */
module CaptureMachine {
  import opened Wrappers
  import opened Media

  datatype CaptureState = Stopped | RequestingPermissions | Recording | Error

  const NoAudioTrackMessage := "Audio recording permission denied or no audio track available"
  const CaptureFailedMessage := "Error starting desktop audio capture"
  const ArtifactType := "audio/wav"

  /**
   * What the hook holds: its three state cells, whether the recorder and
   * stream refs are non-null, the chunk buffer, and whether the component is
   * still mounted (teardown unmounts it).
   */
  datatype Snapshot = Snapshot(
    captureState: CaptureState,
    audioBlob: Option<Blob>,
    error: Option<string>,
    recorderHeld: bool,
    streamHeld: bool,
    chunks: seq<Blob>,
    mounted: bool)

  datatype Event =
    | Request                     // requestPermissionsAndStartRecording
    | Granted(audioTracks: nat)   // the access request fulfilled with a stream carrying that many audio tracks
    | Rejected                    // the access request rejected
    | Start                       // startRecording
    | DataAvailable(chunk: Blob)  // the recorder's dataavailable event
    | Finalize                    // the recorder's stop event
    | Stop                        // stopRecording
    | Teardown                    // the effect cleanup on unmount

  /** The hook's state right after its first render. */
  function Init(): (s: Snapshot)
    ensures Inv(s)
  {
    Snapshot(Stopped, None, None, false, false, [], true)
  }

  /** The artifact built from the chunk buffer. */
  function Artifact(chunks: seq<Blob>): (b: Blob)
    ensures b.mimeType == ArtifactType
    ensures |b.bytes| == TotalSize(chunks)
  {
    BlobOf(chunks, ArtifactType)
  }

  /** startRecording: with a stream held, a recorder is installed and the previous outcome cleared. */
  function StartRecording(s: Snapshot): (r: Snapshot)
    ensures r.chunks == s.chunks && r.streamHeld == s.streamHeld && r.mounted == s.mounted
    ensures s.streamHeld ==> r.recorderHeld && r.captureState == Recording && r.error == None && r.audioBlob == None
    ensures !s.streamHeld ==> r == s
  {
    if s.streamHeld then s.(captureState := Recording, error := None, audioBlob := None, recorderHeld := true)
    else s
  }

  /**
   * One transition of the hook. Beyond its cases: only chunk and stop events
   * touch the buffer, only a grant acquires a stream, only a grant or
   * startRecording installs a recorder, and only the cleanup unmounts.
   */
  function Step(s: Snapshot, e: Event): (r: Snapshot)
    ensures r.chunks != s.chunks ==> e.DataAvailable? || e.Finalize?
    ensures r.streamHeld && !s.streamHeld ==> e.Granted?
    ensures r.recorderHeld && !s.recorderHeld ==> e.Granted? || e.Start?
    ensures r.mounted == (s.mounted && !e.Teardown?)
  {
    match e
    case Request =>
      s.(captureState := RequestingPermissions, error := None)
    case Granted(n) =>
      if n == 0 then s.(error := Some(NoAudioTrackMessage), captureState := Error)
      else StartRecording(s.(streamHeld := true))
    case Rejected =>
      s.(error := Some(CaptureFailedMessage), captureState := Error)
    case Start =>
      StartRecording(s)
    case DataAvailable(c) =>
      s.(chunks := s.chunks + [c])
    case Finalize =>
      s.(audioBlob := Some(Artifact(s.chunks)), chunks := [])
    case Stop =>
      if s.recorderHeld then s.(recorderHeld := false, captureState := Stopped, streamHeld := false)
      else s
    case Teardown =>
      s.(streamHeld := false, mounted := false)
  }

  /**
   * The caller discipline: a request is issued only from Stopped or Error
   * (the UI's toggle), and the request's outcome arrives only while it is
   * pending, which is while the state is RequestingPermissions.
   */
  predicate Allowed(s: Snapshot, e: Event): (ok: bool)
    ensures ok && Inv(s) && s.mounted && e.Request? ==> !s.recorderHeld && !s.streamHeld
  {
    match e
    case Request => s.captureState == Stopped || s.captureState == Error
    case Granted(_) => s.captureState == RequestingPermissions
    case Rejected => s.captureState == RequestingPermissions
    case _ => true
  }

  /**
   * While mounted: a recorder is held exactly when recording, a stream exactly
   * when a recorder is, and an error message exactly in the Error state.
   */
  predicate Inv(s: Snapshot)
  {
    s.mounted ==>
      (s.recorderHeld <==> s.captureState == Recording) &&
      (s.recorderHeld <==> s.streamHeld) &&
      (s.error.Some? <==> s.captureState == Error)
  }

  function Run(s: Snapshot, es: seq<Event>): Snapshot
    decreases |es|
  {
    if es == [] then s else Run(Step(s, es[0]), es[1..])
  }

  predicate AllowedTrace(s: Snapshot, es: seq<Event>)
    decreases |es|
  {
    es == [] || (Allowed(s, es[0]) && AllowedTrace(Step(s, es[0]), es[1..]))
  }

  function DataEvents(cs: seq<Blob>): seq<Event>
  {
    if cs == [] then [] else [DataAvailable(cs[0])] + DataEvents(cs[1..])
  }

  lemma StepPreservesInv(s: Snapshot, e: Event)
    requires Inv(s) && Allowed(s, e)
    ensures Inv(Step(s, e))
  {
  }

  /** Every allowed sequence of events keeps the invariant. */
  lemma {:induction false} RunPreservesInv(s: Snapshot, es: seq<Event>)
    requires Inv(s) && AllowedTrace(s, es)
    ensures Inv(Run(s, es))
    decreases |es|
  {
    if es != [] {
      StepPreservesInv(s, es[0]);
      RunPreservesInv(Step(s, es[0]), es[1..]);
    }
  }

  lemma {:induction false} RunAppend(s: Snapshot, a: seq<Event>, b: seq<Event>)
    ensures Run(s, a + b) == Run(Run(s, a), b)
    decreases |a|
  {
    if a == [] {
      assert a + b == b;
    } else {
      assert (a + b)[1..] == a[1..] + b;
      RunAppend(Step(s, a[0]), a[1..], b);
    }
  }

  lemma RunTwo(s: Snapshot, a: Event, b: Event)
    ensures Run(s, [a, b]) == Step(Step(s, a), b)
  {
    assert [a, b][1..] == [b];
    assert [b][1..] == [];
    assert Run(s, [a, b]) == Run(Step(s, a), [b]);
    assert Run(Step(s, a), [b]) == Run(Step(Step(s, a), b), []);
  }

  /** Chunks are buffered in arrival order, none dropped, nothing else changed. */
  lemma {:induction false} DataEventsAppend(s: Snapshot, cs: seq<Blob>)
    ensures Run(s, DataEvents(cs)) == s.(chunks := s.chunks + cs)
    decreases |cs|
  {
    if cs == [] {
      assert s.chunks + cs == s.chunks;
    } else {
      var es := DataEvents(cs);
      assert es[0] == DataAvailable(cs[0]) && es[1..] == DataEvents(cs[1..]);
      var next := Step(s, DataAvailable(cs[0]));
      assert Run(s, es) == Run(next, DataEvents(cs[1..]));
      DataEventsAppend(next, cs[1..]);
      assert next.chunks + cs[1..] == s.chunks + cs;
    }
  }

  lemma RunOne(s: Snapshot, e: Event)
    ensures Run(s, [e]) == Step(s, e)
  {
    assert [e][1..] == [];
  }

  /**
   * A complete session: request, a grant with audio, chunks `before`, stop,
   * chunks `after` (the recorder flushes its data after stop() and before its
   * stop event), and the stop event. The controller ends Stopped with no
   * handles, no error, an empty buffer, and the artifact assembled from
   * exactly the chunks of both runs, in order.
   */
  lemma SessionArtifact(n: nat, before: seq<Blob>, after: seq<Blob>)
    requires n > 0
    ensures Run(Init(), [Request, Granted(n)] + DataEvents(before) + [Stop] + DataEvents(after) + [Finalize])
         == Snapshot(Stopped, Some(Artifact(before + after)), None, false, false, [], true)
  {
    var opening := [Request, Granted(n)];
    var t1 := opening + DataEvents(before);
    var t2 := t1 + [Stop];
    var t3 := t2 + DataEvents(after);
    RunTwo(Init(), Request, Granted(n));
    var started := Run(Init(), opening);
    assert started == Snapshot(Recording, None, None, true, true, [], true);
    RunAppend(Init(), opening, DataEvents(before));
    DataEventsAppend(started, before);
    var recorded := started.(chunks := before);
    assert Run(Init(), t1) == recorded;
    RunAppend(Init(), t1, [Stop]);
    RunOne(recorded, Stop);
    var stopped := Snapshot(Stopped, None, None, false, false, before, true);
    assert Run(Init(), t2) == stopped;
    RunAppend(Init(), t2, DataEvents(after));
    DataEventsAppend(stopped, after);
    var flushed := stopped.(chunks := before + after);
    assert Run(Init(), t3) == flushed;
    RunAppend(Init(), t3, [Finalize]);
    RunOne(flushed, Finalize);
  }

  /** A grant with no audio track ends in Error with that message and no stream stored. */
  lemma GrantWithoutAudio(s: Snapshot)
    requires s.captureState == RequestingPermissions
    ensures Step(s, Granted(0)) == s.(captureState := Error, error := Some(NoAudioTrackMessage))
  {
  }

  /** Stopping without a recorder changes nothing. */
  lemma StopWithoutRecorderIsNoOp(s: Snapshot)
    requires !s.recorderHeld
    ensures Step(s, Stop) == s
  {
  }

  /** Starting without a stream changes nothing. */
  lemma StartWithoutStreamIsNoOp(s: Snapshot)
    requires !s.streamHeld
    ensures Step(s, Start) == s
  {
  }

  /** A second teardown observes and changes nothing more than the first. */
  lemma TeardownIdempotent(s: Snapshot)
    ensures Step(Step(s, Teardown), Teardown) == Step(s, Teardown)
    ensures !Step(s, Teardown).streamHeld
  {
  }

  /** The artifact replaces the previous one and the buffer is emptied. */
  lemma FinalizeResetsBuffer(s: Snapshot)
    ensures Step(s, Finalize).chunks == []
    ensures Step(s, Finalize).audioBlob == Some(Artifact(s.chunks))
  {
  }

  /**
   * A grant that arrives after the component was torn down still stores the
   * stream and starts recording: nothing is left to release it.
   */
  lemma GrantAfterTeardownKeepsStream(s: Snapshot, n: nat)
    requires s.captureState == RequestingPermissions && n > 0
    ensures Run(s, [Teardown, Granted(n)]).streamHeld
    ensures !Run(s, [Teardown, Granted(n)]).mounted
  {
    RunTwo(s, Teardown, Granted(n));
  }
}
