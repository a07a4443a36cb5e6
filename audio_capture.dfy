/**
 * useDesktopAudioCapture: the hook's refs and state cells as the fields of one
 * controller object, and each callback as a method. Every method is proved to
 * make the transition CaptureMachine.Step describes for its event, and states
 * which stream, recorder and tracks it touched.
 */
module AudioCapture {
  import opened Wrappers
  import opened Media
  import opened CaptureMachine

  /** `stream.getTracks().forEach(track => track.stop())`: every track is stopped once. */
  method StopTracks(stream: MediaStream)
    requires stream.Valid()
    modifies stream.tracks
    ensures forall t :: t in stream.tracks ==>
      t.readyState == Ended && t.stopCalls == old(t.stopCalls) + 1
  {
    var tracks := stream.tracks;
    var i := 0;
    while i < |tracks|
      invariant 0 <= i <= |tracks|
      invariant forall k :: 0 <= k < i ==>
        tracks[k].readyState == Ended && tracks[k].stopCalls == old(tracks[k].stopCalls) + 1
      invariant forall k :: i <= k < |tracks| ==>
        tracks[k].readyState == old(tracks[k].readyState) && tracks[k].stopCalls == old(tracks[k].stopCalls)
    {
      tracks[i].Stop();
      i := i + 1;
    }
  }

  class DesktopAudioCapture {
    var mediaRecorder: MediaRecorder?
    var stream: MediaStream?
    var audioChunks: seq<Blob>
    var captureState: CaptureState
    var audioBlob: Option<Blob>
    var error: Option<string>
    /** False once the component has unmounted and the effect cleanup ran. */
    ghost var mounted: bool

    ghost function Model(): Snapshot
      reads this
    {
      Snapshot(captureState, audioBlob, error, mediaRecorder != null, stream != null, audioChunks, mounted)
    }

    /** The tracks of the held stream, if any. */
    function HeldTracks(): seq<Track>
      reads this
    {
      if stream == null then [] else stream.tracks
    }

    /**
     * The session invariant, and while mounted: the recorder is the one
     * recording the held stream.
     */
    ghost predicate Valid()
      reads this, mediaRecorder
    {
      Inv(Model()) &&
      (stream != null ==> stream.Valid()) &&
      (mounted && mediaRecorder != null ==> mediaRecorder.stream == stream && mediaRecorder.state == Active)
    }

    /** The first render: Stopped, nothing held, nothing recorded. */
    constructor ()
      ensures Model() == Init()
      ensures stream == null && mediaRecorder == null
      ensures Valid()
    {
      mediaRecorder := null;
      stream := null;
      audioChunks := [];
      captureState := Stopped;
      audioBlob := None;
      error := None;
      mounted := true;
    }

    /** handleDataAvailable: the chunk is appended to the buffer. */
    method HandleDataAvailable(chunk: Blob)
      requires Valid()
      modifies this
      ensures Model() == Step(old(Model()), DataAvailable(chunk))
      ensures stream == old(stream) && mediaRecorder == old(mediaRecorder)
      ensures Valid()
    {
      audioChunks := audioChunks + [chunk];
    }

    /** handleStop: the buffer becomes the artifact and is emptied. */
    method HandleStop()
      requires Valid()
      modifies this
      ensures Model() == Step(old(Model()), Finalize)
      ensures stream == old(stream) && mediaRecorder == old(mediaRecorder)
      ensures Valid()
    {
      audioBlob := Some(BlobOf(audioChunks, ArtifactType));
      audioChunks := [];
    }

    /** startRecording: with a stream held, a new recorder on it is started. */
    method StartRecording()
      modifies this
      ensures Model() == Step(old(Model()), Start)
      ensures stream == old(stream)
      ensures old(stream) != null ==>
        fresh(mediaRecorder) && mediaRecorder.stream == stream && mediaRecorder.state == Active
      ensures old(stream) == null ==> mediaRecorder == old(mediaRecorder)
      ensures old(mediaRecorder) != null ==> old(mediaRecorder).state == old(mediaRecorder.state)
      ensures old(Valid()) ==> Valid()
    {
      if stream != null {
        var recorder := new MediaRecorder(stream);
        captureState := Recording;
        error := None;
        audioBlob := None;
        recorder.Start();
        mediaRecorder := recorder;
      }
    }

    /**
     * stopRecording: with a recorder held, it is stopped and dropped, and the
     * held stream's tracks are each stopped once and the stream dropped.
     */
    method StopRecording()
      requires Valid()
      modifies this, mediaRecorder, HeldTracks()
      ensures Model() == Step(old(Model()), Stop)
      ensures old(mediaRecorder) == null ==>
        stream == old(stream) && mediaRecorder == null &&
        forall t :: t in old(HeldTracks()) ==>
          t.readyState == old(t.readyState) && t.stopCalls == old(t.stopCalls)
      ensures old(mediaRecorder) != null ==>
        stream == null && mediaRecorder == null && old(mediaRecorder).state == Inactive &&
        forall t :: t in old(HeldTracks()) ==>
          t.readyState == Ended && t.stopCalls == old(t.stopCalls) + 1
      ensures Valid()
    {
      if mediaRecorder != null {
        mediaRecorder.Stop();
        mediaRecorder := null;
        captureState := Stopped;
        if stream != null {
          StopTracks(stream);
          stream := null;
        }
      }
    }

    /** requestPermissionsAndStartRecording: the access request is now pending. */
    method RequestPermissionsAndStartRecording()
      requires Valid()
      requires captureState == Stopped || captureState == Error
      modifies this
      ensures Model() == Step(old(Model()), Request)
      ensures stream == old(stream) && mediaRecorder == old(mediaRecorder)
      ensures Valid()
    {
      captureState := RequestingPermissions;
      error := None;
    }

    /**
     * The request's fulfilment with `granted`: without an audio track, every
     * track of it is stopped once and it is never stored; otherwise it is held
     * and recorded.
     */
    method OnGranted(granted: MediaStream)
      requires Valid() && granted.Valid()
      requires captureState == RequestingPermissions
      modifies this, granted.tracks
      ensures Model() == Step(old(Model()), Granted(|AudioTracks(granted.tracks)|))
      ensures |AudioTracks(granted.tracks)| == 0 ==>
        stream == old(stream) && mediaRecorder == old(mediaRecorder) &&
        forall t :: t in granted.tracks ==>
          t.readyState == Ended && t.stopCalls == old(t.stopCalls) + 1
      ensures |AudioTracks(granted.tracks)| > 0 ==>
        stream == granted && fresh(mediaRecorder) &&
        mediaRecorder.stream == granted && mediaRecorder.state == Active &&
        forall t :: t in granted.tracks ==>
          t.readyState == old(t.readyState) && t.stopCalls == old(t.stopCalls)
      ensures Valid()
    {
      var audioTracks := AudioTracks(granted.tracks);
      if |audioTracks| == 0 {
        error := Some(NoAudioTrackMessage);
        captureState := Error;
        StopTracks(granted);
      } else {
        stream := granted;
        StartRecording();
      }
    }

    /** The request's rejection: the Error state with its message. */
    method OnRejected()
      requires Valid()
      requires captureState == RequestingPermissions
      modifies this
      ensures Model() == Step(old(Model()), Rejected)
      ensures stream == old(stream) && mediaRecorder == old(mediaRecorder)
      ensures Valid()
    {
      error := Some(CaptureFailedMessage);
      captureState := Error;
    }

    /** The effect cleanup on unmount: a held stream's tracks are each stopped once and it is dropped. */
    method Teardown()
      requires Valid()
      modifies this, HeldTracks()
      ensures Model() == Step(old(Model()), Event.Teardown)
      ensures stream == null && mediaRecorder == old(mediaRecorder)
      ensures forall t :: t in old(HeldTracks()) ==>
        t.readyState == Ended && t.stopCalls == old(t.stopCalls) + 1
      ensures Valid()
    {
      if stream != null {
        StopTracks(stream);
        stream := null;
      }
      mounted := false;
    }
  }

  /** Running the cleanup twice stops each held track once, and the second run changes nothing. */
  method TeardownTwice(c: DesktopAudioCapture)
    requires c.Valid()
    modifies c, c.HeldTracks()
    ensures c.Model() == Step(old(c.Model()), Event.Teardown)
    ensures forall t :: t in old(c.HeldTracks()) ==>
      t.readyState == Ended && t.stopCalls == old(t.stopCalls) + 1
  {
    c.Teardown();
    c.Teardown();
    TeardownIdempotent(old(c.Model()));
  }

  /** Stopping and then unmounting stops each track of the session's stream exactly once. */
  method StopThenTeardown(c: DesktopAudioCapture)
    requires c.Valid() && c.mounted && c.captureState == Recording
    modifies c, c.mediaRecorder, c.HeldTracks()
    ensures c.stream == null && c.mediaRecorder == null
    ensures forall t :: t in old(c.HeldTracks()) ==>
      t.readyState == Ended && t.stopCalls == old(t.stopCalls) + 1
  {
    c.StopRecording();
    c.Teardown();
  }

  /**
   * A whole session driven through the controller: request, a grant with an
   * audio track, the chunks `before` while recording, stop, the chunks
   * `after` that the recorder flushes once stopped, and its stop event. The
   * artifact is assembled from exactly those chunks in order, every track of
   * the granted stream has been stopped once, and nothing is held.
   */
  method RecordSession(c: DesktopAudioCapture, granted: MediaStream, before: seq<Blob>, after: seq<Blob>)
    requires c.Valid() && c.mounted && c.captureState == Stopped && c.audioChunks == []
    requires granted.Valid() && |AudioTracks(granted.tracks)| > 0
    modifies c, granted.tracks
    ensures c.captureState == Stopped && c.error == None
    ensures c.audioBlob == Some(Artifact(before + after)) && c.audioChunks == []
    ensures c.stream == null && c.mediaRecorder == null
    ensures forall t :: t in granted.tracks ==>
      t.readyState == Ended && t.stopCalls == old(t.stopCalls) + 1
  {
    c.RequestPermissionsAndStartRecording();
    c.OnGranted(granted);
    var i := 0;
    while i < |before|
      invariant 0 <= i <= |before|
      invariant c.Valid() && c.mounted && c.captureState == Recording
      invariant c.stream == granted && c.mediaRecorder != null && fresh(c.mediaRecorder)
      invariant c.audioChunks == before[..i]
      invariant forall t :: t in granted.tracks ==>
        t.readyState == old(t.readyState) && t.stopCalls == old(t.stopCalls)
    {
      c.HandleDataAvailable(before[i]);
      assert before[..i + 1] == before[..i] + [before[i]];
      i := i + 1;
    }
    assert before[..i] == before;
    c.StopRecording();
    var j := 0;
    while j < |after|
      invariant 0 <= j <= |after|
      invariant c.Valid() && c.mounted && c.captureState == Stopped && c.error == None
      invariant c.stream == null && c.mediaRecorder == null
      invariant c.audioChunks == before + after[..j]
      invariant forall t :: t in granted.tracks ==>
        t.readyState == Ended && t.stopCalls == old(t.stopCalls) + 1
    {
      c.HandleDataAvailable(after[j]);
      assert after[..j + 1] == after[..j] + [after[j]];
      j := j + 1;
    }
    assert after[..j] == after;
    c.HandleStop();
  }
}
