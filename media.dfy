/**
 * The browser capabilities the capture hook consumes, reduced to what the hook
 * observes of them: blobs as byte sequences with a type tag, a stream as a list
 * of tracks that can be stopped, and a recorder as a handle bound to a stream.
 */
module Media {

  newtype byte = x: int | 0 <= x < 256

  /** A Blob: its bytes and its MIME type. */
  datatype Blob = Blob(bytes: seq<byte>, mimeType: string)

  /** Total number of bytes in a list of blob parts. */
  function TotalSize(parts: seq<Blob>): nat
  {
    if parts == [] then 0 else |parts[0].bytes| + TotalSize(parts[1..])
  }

  /** The bytes of `new Blob(parts)`: every part's bytes, in order. */
  function Concat(parts: seq<Blob>): (r: seq<byte>)
    ensures |r| == TotalSize(parts)
  {
    if parts == [] then [] else parts[0].bytes + Concat(parts[1..])
  }

  /** `new Blob(parts, { type: mimeType })`. */
  function BlobOf(parts: seq<Blob>, mimeType: string): (b: Blob)
    ensures b.mimeType == mimeType
    ensures |b.bytes| == TotalSize(parts)
  {
    Blob(Concat(parts), mimeType)
  }

  /** Concatenation distributes over splitting the list of parts. */
  lemma {:induction false} ConcatSplit(a: seq<Blob>, b: seq<Blob>)
    ensures Concat(a + b) == Concat(a) + Concat(b)
  {
    if a == [] {
      assert a + b == b;
    } else {
      assert (a + b)[1..] == a[1..] + b;
      ConcatSplit(a[1..], b);
    }
  }

  /** Appending one part appends exactly its bytes: earlier bytes are untouched. */
  lemma ConcatAppend(parts: seq<Blob>, c: Blob)
    ensures Concat(parts + [c]) == Concat(parts) + c.bytes
  {
    ConcatSplit(parts, [c]);
    assert [c][1..] == [];
  }

  /**
   * Order preservation: part i occupies, unchanged, the bytes that start right
   * after parts 0..i-1.
   */
  lemma PartAt(parts: seq<Blob>, i: nat)
    requires i < |parts|
    ensures TotalSize(parts[..i]) + |parts[i].bytes| <= |Concat(parts)|
    ensures Concat(parts)[TotalSize(parts[..i]) .. TotalSize(parts[..i]) + |parts[i].bytes|] == parts[i].bytes
  {
    var before, rest := parts[..i], parts[i..];
    assert parts == before + rest;
    ConcatSplit(before, rest);
    assert rest == [parts[i]] + rest[1..];
    ConcatSplit([parts[i]], rest[1..]);
    assert [parts[i]][1..] == [];
  }

  datatype TrackKind = Audio | Video

  /** MediaStreamTrack.readyState. */
  datatype TrackState = Live | Ended

  /** A MediaStreamTrack; `stopCalls` counts the calls of stop() made on it. */
  class Track {
    const kind: TrackKind
    var readyState: TrackState
    ghost var stopCalls: nat

    constructor (kind: TrackKind)
      ensures this.kind == kind && readyState == Live && stopCalls == 0
    {
      this.kind := kind;
      readyState := Live;
      stopCalls := 0;
    }

    /** MediaStreamTrack.stop(): the track ends for good. */
    method Stop()
      modifies this
      ensures readyState == Ended
      ensures stopCalls == old(stopCalls) + 1
    {
      readyState := Ended;
      stopCalls := stopCalls + 1;
    }
  }

  /** A MediaStream; `tracks` is what getTracks() returns. */
  class MediaStream {
    const tracks: seq<Track>

    /** A stream's track set holds each track once. */
    predicate Valid()
    {
      forall i, j :: 0 <= i < j < |tracks| ==> tracks[i] != tracks[j]
    }

    constructor (tracks: seq<Track>)
      requires forall i, j :: 0 <= i < j < |tracks| ==> tracks[i] != tracks[j]
      ensures this.tracks == tracks && Valid()
    {
      this.tracks := tracks;
    }
  }

  /** getAudioTracks(): the audio tracks of a track list, in order. */
  function AudioTracks(tracks: seq<Track>): (r: seq<Track>)
    ensures |r| <= |tracks|
    ensures forall t :: t in r ==> t in tracks && t.kind == Audio
    ensures forall i :: 0 <= i < |tracks| && tracks[i].kind == Audio ==> tracks[i] in r
  {
    if tracks == [] then []
    else if tracks[0].kind == Audio then [tracks[0]] + AudioTracks(tracks[1..])
    else AudioTracks(tracks[1..])
  }

  /** MediaRecorder.state; the API's 'recording' is `Active` here. */
  datatype RecorderState = Inactive | Active

  /** A MediaRecorder bound to the stream it was constructed with. */
  class MediaRecorder {
    const stream: MediaStream
    var state: RecorderState

    constructor (stream: MediaStream)
      ensures this.stream == stream && state == Inactive
    {
      this.stream := stream;
      state := Inactive;
    }

    method Start()
      modifies this
      ensures state == Active
    {
      state := Active;
    }

    /** stop(): the recorder goes inactive; its stop event is delivered later. */
    method Stop()
      modifies this
      ensures state == Inactive
    {
      state := Inactive;
    }
  }
}
