# Desktop audio capture session controller, in Dafny

This project models `useDesktopAudioCapture`, the React hook in
`package/src/index.ts`. The hook drives one desktop-audio capture session at a
time through four states: `stopped`, `requesting_permissions`, `recording` and
`error`. It owns three session resources: the stream ref, the recorder ref and
the chunk buffer ref. It also exposes three state cells: `captureState`,
`audioBlob` and `error`.

The model has four modules:

- `Wrappers` (wrappers.dfy) holds `Option`, which stands for the nullable state cells.
- `Media` (media.dfy) models the browser objects the hook uses, reduced to what the hook observes:
  - a `Blob` is a byte sequence with a MIME type, and `new Blob(parts, {type})` is `BlobOf`, the in-order concatenation of the parts' bytes;
  - a `MediaStream` is a list of distinct `Track` objects, and `getAudioTracks()` is `AudioTracks`;
  - a `Track` has a kind, a `readyState` and a ghost counter of the `stop()` calls made on it, which lets a contract say "stopped exactly once";
  - a `MediaRecorder` is a handle bound to its stream, with an inactive/recording state.
- `CaptureMachine` (capture_machine.dfy) describes the hook as a reducer:
  - `Snapshot` is an abstract view of the refs and state cells;
  - `Event` lists the hook's callbacks and the two outcomes of the permission promise;
  - `Step` is the transition for each event;
  - `Allowed` is the caller discipline of `example/src/App.tsx:15-19`: a request is made only from `stopped` or `error`, and an outcome arrives only while that request is pending;
  - `Inv` is the session invariant;
  - the lemmas prove over whole event traces that the invariant holds, that chunks stay in order and that a session produces its artifact.
- `AudioCapture` (audio_capture.dfy) holds the class `DesktopAudioCapture`:
  - each ref and state cell is a field and each callback is a method;
  - the asynchronous permission request is split into `RequestPermissionsAndStartRecording` and the two later resolutions, `OnGranted(stream)` and `OnRejected()`;
  - every method is proved to make exactly the `Step` transition for its event;
  - each method also states which stream, recorder and tracks it touched and that `Valid()` is kept;
  - `StopTracks` is the `getTracks().forEach(track => track.stop())` loop, proved to stop every track exactly once.

The hook has no check that the capture API exists. A missing
`navigator.mediaDevices` throws synchronously at `package/src/index.ts:53`,
and no "capture API unavailable, so go to error" transition exists in the
code. The model follows the code and has no such transition.

Lemma `GrantAfterTeardownKeepsStream` states one behaviour of the code as
written. A grant that arrives after the cleanup has run still stores the
stream and starts a recorder, and nothing is left to release them.

`startRecording` is exported and has no guard against a recorder that is
already held. Called while recording, it installs a second recorder, and the
earlier one keeps running with nothing referring to it. The contract of
`DesktopAudioCapture.StartRecording` states this: the old recorder keeps its
state, and `mediaRecorder` is a fresh object.

## Model

| member | source | states |
|---|---|---|
| `AudioCapture.DesktopAudioCapture.constructor` | package/src/index.ts:6-11 | Starts in `Stopped` with no blob, no error, no recorder, no stream and an empty buffer (`Init()`), and the invariant holds |
| `CaptureMachine.Init` | package/src/index.ts:6-11 | The first-render snapshot: `Stopped`, no blob, no error, neither ref set, an empty buffer, mounted. It satisfies the session invariant |
| `CaptureMachine.Step` | package/src/index.ts:13-79 | One transition per event. Request sets `RequestingPermissions` and clears `error`. A grant with no audio track sets `Error` and the no-audio message. A grant with audio sets the stream and then does `StartRecording`. Rejection sets `Error` and its message. A chunk appends to the buffer. Finalise sets the artifact and empties the buffer. Stop with a recorder drops both refs and sets `Stopped`, otherwise it is a no-op. Cleanup drops the stream and unmounts. Its contract: only chunk and finalise events change the buffer, only a grant acquires a stream, only a grant or `startRecording` installs a recorder, and only the cleanup unmounts |
| `CaptureMachine.StartRecording` | package/src/index.ts:24-35 | With a stream held: a recorder is held, the state is `Recording`, and `error` and `audioBlob` are cleared. Without one: nothing changes. The buffer and the stream are never touched |
| `CaptureMachine.Allowed` | example/src/App.tsx:15-19 | The caller discipline: a request only from `Stopped` or `Error`, and a grant or rejection only while `RequestingPermissions`. Under the invariant, an allowed request finds neither a recorder nor a stream held |
| `AudioCapture.DesktopAudioCapture.HandleDataAvailable` | package/src/index.ts:13-16 | Appends exactly the given chunk, including an empty one, to the end of the buffer; nothing else changes |
| `CaptureMachine.DataEventsAppend` | package/src/index.ts:13-16 | Any run of chunk events c1..cn leaves the buffer equal to the old buffer followed by c1..cn in order, and changes nothing else |
| `AudioCapture.DesktopAudioCapture.HandleStop` | package/src/index.ts:18-22 | Sets `audioBlob` to the artifact of the buffered chunks and empties the buffer; handles and state are unchanged |
| `CaptureMachine.FinalizeResetsBuffer` | package/src/index.ts:18-22 | After finalisation the buffer is empty and `audioBlob` is the artifact of the chunks that were buffered |
| `CaptureMachine.Artifact` | package/src/index.ts:19 | The artifact is tagged `audio/wav` and its size is the sum of the chunk sizes |
| `Media.BlobOf` | package/src/index.ts:19 | `new Blob(parts, {type})` carries the requested type and exactly the total size of its parts |
| `Media.Concat` | package/src/index.ts:19 | The assembled bytes are exactly as long as all parts together |
| `Media.ConcatSplit` | package/src/index.ts:19 | Assembling `a + b` gives the assembly of `a` followed by the assembly of `b` |
| `Media.ConcatAppend` | package/src/index.ts:19 | Appending one chunk to the buffer appends exactly its bytes to the assembled artifact; earlier bytes are unchanged |
| `Media.PartAt` | package/src/index.ts:19 | Chunk i appears unchanged in the artifact right after the bytes of chunks 0..i-1, so order is preserved |
| `AudioCapture.DesktopAudioCapture.StartRecording` | package/src/index.ts:24-35 | With no stream held, changes nothing. Otherwise it installs a fresh, started recorder bound to the held stream, sets `Recording`, and clears `error` and `audioBlob`. A recorder held before the call keeps its state |
| `CaptureMachine.StartWithoutStreamIsNoOp` | package/src/index.ts:24-25 | `startRecording` without a held stream leaves the snapshot unchanged |
| `AudioCapture.DesktopAudioCapture.StopRecording` | package/src/index.ts:37-48 | With no recorder held, changes nothing and stops no track. Otherwise it stops the recorder, drops it, sets `Stopped`, stops every track of the held stream exactly once and drops the stream |
| `CaptureMachine.StopWithoutRecorderIsNoOp` | package/src/index.ts:37-38 | `stopRecording` without a recorder leaves state, handles, buffer and blob unchanged |
| `AudioCapture.StopTracks` | package/src/index.ts:44 | Every track of the stream ends, and each is stopped exactly once |
| `AudioCapture.DesktopAudioCapture.RequestPermissionsAndStartRecording` | package/src/index.ts:50-53 | From `Stopped` or `Error`, sets `RequestingPermissions` and clears `error`; handles are unchanged |
| `AudioCapture.DesktopAudioCapture.OnGranted` | package/src/index.ts:54-64 | With zero audio tracks, sets `Error` with "Audio recording permission denied or no audio track available", stops every granted track exactly once and never stores the stream. Otherwise it stores the stream, leaves its tracks untouched and ends `Recording` with a fresh recorder on it |
| `Media.AudioTracks` | package/src/index.ts:55-56 | `getAudioTracks()` returns only audio tracks of the stream and every one of them, so it is empty exactly when the stream has no audio track |
| `CaptureMachine.GrantWithoutAudio` | package/src/index.ts:56-59 | A grant with no audio track sets `Error` and the no-audio message and changes nothing else; in particular, no stream is stored |
| `AudioCapture.DesktopAudioCapture.OnRejected` | package/src/index.ts:65-69 | A rejection sets `Error` with "Error starting desktop audio capture"; handles are unchanged |
| `AudioCapture.DesktopAudioCapture.Teardown` | package/src/index.ts:72-79 | The cleanup stops every track of a held stream exactly once and drops the stream; the recorder ref is untouched |
| `CaptureMachine.TeardownIdempotent` | package/src/index.ts:72-79 | A second cleanup leaves the snapshot exactly as the first left it, with no stream held |
| `AudioCapture.TeardownTwice` | package/src/index.ts:72-79 | Two cleanups in a row stop each held track exactly once in total and end in the one-cleanup snapshot |
| `AudioCapture.StopThenTeardown` | package/src/index.ts:37-79 | `stopRecording` followed by the cleanup stops each track of the session's stream exactly once and leaves nothing held |
| `CaptureMachine.StepPreservesInv` | package/src/index.ts:24-79 | Under the caller discipline, each event keeps the invariant: while mounted, a recorder is held iff the state is `Recording`, a stream is held iff a recorder is, and an error message is present iff the state is `Error` |
| `CaptureMachine.RunPreservesInv` | package/src/index.ts:24-79 | The invariant holds after every trace of events that follows the caller discipline |
| `CaptureMachine.SessionArtifact` | package/src/index.ts:13-63 | Request, a grant with audio, chunks `before`, stop, chunks `after` (the recorder flushes its data after `stop()`, before its stop event) and finalise end in `Stopped`. Nothing is held, there is no error, the buffer is empty, and `audioBlob` is assembled from exactly `before + after`, in order |
| `AudioCapture.RecordSession` | package/src/index.ts:13-63 | The same session driven through the class, with chunks both before and after `stopRecording`. The artifact holds exactly the received chunks in order, nothing is held, and every granted track has been stopped exactly once |
| `CaptureMachine.GrantAfterTeardownKeepsStream` | package/src/index.ts:54-79 | A grant with audio that arrives after the cleanup still leaves a stream held on the unmounted controller |

## Left out

- `navigator.mediaDevices.getDisplayMedia` is a browser capability. Its outcome is delivered as the call `OnGranted(stream)` or `OnRejected()`. The request's options (`audio: true, video: true`) are not modelled.
- A missing `navigator.mediaDevices` is not modelled. The code would throw synchronously at `package/src/index.ts:53`, outside the `.catch`.
- Failures inside the `.then` handler are not modelled. In the code, a `MediaRecorder` constructor or `start()` that throws lands in the `.catch`, with the stream already stored. The model treats creating and starting a recorder as infallible.
- `MediaRecorder` internals are not modelled. Its `dataavailable` and `stop` events are the calls `HandleDataAvailable` and `HandleStop`, in whatever order the caller makes them. A late stop event is not tied to the recorder it came from.
- A blob's bytes are `seq<byte>`. Chunk MIME types do not affect the artifact, which matches `new Blob`.
- `Track.stopCalls` is a ghost counter added to state "stopped exactly once". `stop()` on a real track has no such observable counter.
- React mechanics are not modelled: `useCallback` memoisation, re-rendering, batched setters, and setters ignored after unmount. Setters are immediate field writes. The ghost field `mounted` records whether the cleanup has run.
- The logging at `package/src/index.ts:15` and `package/src/index.ts:66` is not modelled.
- `AudioCapture.DesktopAudioCapture.RequestPermissionsAndStartRecording` requires `captureState` to be `Stopped` or `Error`. This is the UI's toggle guard (`example/src/App.tsx:15-19`), not a check in the hook. A request while recording or while another request is pending races in the code, and the model does not cover it.
- `AudioCapture.DesktopAudioCapture.OnGranted` requires `RequestingPermissions`, meaning exactly one request is pending. Outcomes of superseded or duplicate requests are not modelled.
- `AudioCapture.DesktopAudioCapture.OnRejected` requires `RequestingPermissions` for the same reason.
- The state-changing methods other than `StartRecording` require the object invariant `Valid()`. Every method keeps that invariant. `StartRecording` promises `Valid()` afterwards only when it held before the call.
- `CaptureMachine.StepPreservesInv` and `CaptureMachine.RunPreservesInv` state the invariant only while mounted. After the cleanup, the recorder ref may still be set while the stream ref is cleared, because the code does not stop the recorder on unmount.
- `dist/index.js` is the compiled form of the same hook, and `dist/index.d.ts` holds only its types. `example/src/App.tsx` is UI rendering apart from its toggle guard.
