# Capture-Pro recorder, modelled in Dafny

Capture-Pro is a browser screen recorder. Its core is the `useRecorder` hook
(`src/hooks/useRecorder.ts`) and the page that drives it (`src/App.tsx`).

The hook asks the browser for the screen and, optionally, for a microphone and a webcam. It
mixes the audio sources into one track in an audio context. It records the screen video plus
that track with a MediaRecorder, after a three-second countdown. It collects the recorded
chunks and counts their bytes. It keeps a one-second timer and turns the chunks into a
downloadable Blob when the recorder stops. The page shows one panel per status: settings,
countdown, the recording controls, or the preview. It formats the elapsed time as `mm:ss`.

The model has these layers:

- `Platform` covers what the hook can observe of the browser: tracks and streams, the answer
  to a capture request, MediaRecorder states, chunks and Blobs.
- `Capture` holds the pure decisions made while a recording starts: the capture constraints,
  how user media is split, the mixer inputs, the recorded stream and the container-type
  choice.
- `Session` holds the hook's whole state as one value, `Session.Session`. It has one
  transition function per operation the hook returns and per browser callback it installs,
  and an event type with `Step` and `Run`. Two invariants are defined:
  - `Inv` holds under every order of calls.
  - `Consistent` holds under the calls the page offers. It adds four facts. An idle or
    previewing session has no MediaRecorder left that can still stop, no capture track live
    and no audio context open. Every live capture track is reachable through a stream
    reference the hook holds. Every open audio context is the one the hook references.
    Once a recording has started (any status but idle), the byte counter equals the size of
    the buffered chunks.
- `SessionProps` proves the properties of the session:
  - the invariants are kept;
  - at most one recording is finalized per start;
  - chunks are kept in arrival order and the counter stays in step with them;
  - the timer counts only while an interval runs;
  - the guards of pause, resume and stop decide exactly when they act;
  - startup degrades when user media is refused and aborts cleanly when the screen, its
    video track or the container type is refused.
- `App` covers `formatTime` with its decimal padding, which panels, controls and overlays
  each status shows, and the name of the saved file.
- `Recorder.Recorder` is the hook as a class. React state and refs are its fields. Each method
  updates them in the hook's own order and is specified by the matching `Session` function,
  through `Model()`. The exception is cleanup: the class and the session model use the
  corrected cleanup of the first finding below, not the hook's own.

The corrected cleanup needs two references the hook as written does not keep: the screen
stream and the getUserMedia answer (`screenStream` and `userMedia`). Rows marked "(corrected
cleanup)" or "(corrected name)" state a property of the corrected behaviour, not of the code as
written.

The browser's answers are parameters:
- `display` is the answer to getDisplayMedia, and `user` the answer to getUserMedia;
- `supported` is MediaRecorder.isTypeSupported;
- `now` is the clock;
- `dataavailable`, `stop`, the end of screen sharing and each second of the interval are
  events.

The MediaRecorder constructor throws exactly for a container type `supported` rejects. The
platform's recorder states "inactive", "recording" and "paused" are named `Inactive`,
`Capturing` and `Suspended`. This keeps them apart from the session statuses `Recording` and
`Paused`.

## Model

| member | source | states |
|---|---|---|
| Session.Initial | src/hooks/useRecorder.ts:13-26 | the mounted hook is idle with no live capture and satisfies the invariant of the offered calls |
| Recorder.Recorder.constructor | src/hooks/useRecorder.ts:13-26 | the object starts in the initial session state and satisfies the invariant |
| Session.CloseContext | src/hooks/useRecorder.ts:37-42 | the referenced audio context is closed unless already closed; no other context changes |
| Session.ReclaimAsWritten | src/hooks/useRecorder.ts:28-43 | cleanup as written stops every track of the recorded stream and of the webcam stream and no other live track, closes the referenced context, drops those three references, and keeps the screen and user-media references |
| Session.Reclaim | src/hooks/useRecorder.ts:28-43 | (corrected cleanup) drops all four stream references and the context reference, closes only the referenced context, and changes no other state |
| Session.ReclaimStopsHeld | src/hooks/useRecorder.ts:28-43 | (corrected cleanup) every track the hook holds is stopped and every other live track stays live, so no track is left live exactly when every live track was held |
| Session.ReclaimIdempotent | src/hooks/useRecorder.ts:28-43 | a second cleanup changes nothing, both as written and corrected |
| Recorder.Recorder.StopHeldTracks | src/hooks/useRecorder.ts:29-36 | (corrected cleanup) the tracks of every held stream are stopped and the stream references dropped |
| Recorder.Recorder.CleanupStreams | src/hooks/useRecorder.ts:28-43 | (corrected cleanup) the new state is Session.Reclaim of the old one |
| Session.StopRecording | src/hooks/useRecorder.ts:45-56 | stop leaves the recorder inactive with its type, keeps whether a stop event is still due, and changes neither the status, the chunks, the counters nor the live tracks |
| SessionProps.StopKeepsInv | src/hooks/useRecorder.ts:45-56 | stop keeps the invariant |
| Recorder.Recorder.StopRecording | src/hooks/useRecorder.ts:45-56 | the new state is Session.StopRecording of the old one, and the invariant is kept |
| SessionProps.GuardsDecideAction | src/hooks/useRecorder.ts:45-56 | stop acts exactly when the recorder is not inactive, pause exactly when it records, resume exactly when it is paused, with the status and interval each sets |
| Session.PauseRecording | src/hooks/useRecorder.ts:181-190 | pausing keeps the elapsed time, the chunks and the byte count |
| SessionProps.PauseKeepsInv | src/hooks/useRecorder.ts:181-190 | pause keeps the invariant |
| Recorder.Recorder.PauseRecording | src/hooks/useRecorder.ts:181-190 | the new state is Session.PauseRecording of the old one, and the invariant is kept |
| Session.ResumeRecording | src/hooks/useRecorder.ts:192-200 | resuming keeps the elapsed time, the chunks and the byte count |
| SessionProps.ResumeKeepsInv | src/hooks/useRecorder.ts:192-200 | resume keeps the invariant |
| Recorder.Recorder.ResumeRecording | src/hooks/useRecorder.ts:192-200 | the new state is Session.ResumeRecording of the old one, and the invariant is kept |
| SessionProps.PauseResumeRoundTrip | src/hooks/useRecorder.ts:181-200 | pausing a recording and resuming it restores exactly the former state |
| SessionProps.GuardsMakeRepeatsHarmless | src/hooks/useRecorder.ts:45-56 | pause while paused and resume while recording do nothing; pause, resume, stop, reset and a repeated stop event are idempotent |
| Session.Reset | src/hooks/useRecorder.ts:202-210 | reset leaves an idle session without URL, and does not stop the MediaRecorder, clear the interval or empty the buffer |
| Session.ResetStopsHeld | src/hooks/useRecorder.ts:202-210 | (corrected cleanup) reset stops every held track and closes the referenced context, so none is left live or open when all were held |
| SessionProps.ResetRestoresIdle | src/hooks/useRecorder.ts:202-210 | (corrected cleanup) reset leaves an idle session with no URL, zero counters, countdown 3, no stream or context reference, every held track stopped and the referenced context closed, so no live track and no open context when all were held |
| SessionProps.ResetKeepsInv | src/hooks/useRecorder.ts:202-210 | reset keeps the invariant |
| Recorder.Recorder.Reset | src/hooks/useRecorder.ts:202-210 | the new state is Session.Reset of the old one, and the invariant is kept |
| SessionProps.TickKeepsInv | src/hooks/useRecorder.ts:171-173 | an interval tick keeps the invariant |
| Recorder.Recorder.Tick | src/hooks/useRecorder.ts:171-173 | the new state is Session.OnTick of the old one, and the invariant is kept |
| Session.OnData | src/hooks/useRecorder.ts:152-157 | a data event keeps the buffered chunks as a prefix, adds at most one, and moves the counter by exactly the bytes the buffer gains |
| SessionProps.DataKeepsInv | src/hooks/useRecorder.ts:152-157 | a data event keeps the invariant |
| Recorder.Recorder.DataAvailable | src/hooks/useRecorder.ts:152-157 | the new state is Session.OnData of the old one, and the invariant is kept |
| Session.OnRecorderStop | src/hooks/useRecorder.ts:159-165 | a due stop event shows the preview of a Blob as long as all chunks, of the recorder's type, drops the stream references and leaves no stop event due; otherwise nothing changes |
| Session.RecorderStopStopsHeld | src/hooks/useRecorder.ts:159-165 | (corrected cleanup) the stop event stops every held track and closes the referenced context, so none is left live or open when all were held |
| SessionProps.RecorderStopKeepsInv | src/hooks/useRecorder.ts:159-165 | the stop event keeps the invariant |
| Recorder.Recorder.RecorderStopped | src/hooks/useRecorder.ts:159-165 | the new state is Session.OnRecorderStop of the old one, and the invariant is kept |
| Session.OnShareEnded | src/hooks/useRecorder.ts:125-127 | the end of sharing ends the shared track and no other, and keeps the status, the chunks, the references and whether a stop event is due |
| SessionProps.ShareEndedKeepsInv | src/hooks/useRecorder.ts:125-127 | the end of screen sharing keeps the invariant |
| Recorder.Recorder.ShareEnded | src/hooks/useRecorder.ts:125-127 | the new state is Session.OnShareEnded of the old one, and the invariant is kept |
| SessionProps.ShareEndedActsAsStop | src/hooks/useRecorder.ts:125-127 | ending screen sharing during a recording whose live tracks are all held finalizes exactly as pressing stop does |
| Session.Step | src/hooks/useRecorder.ts:45-210 | no call after the start and no callback acquires a capture track or creates an audio context, and each keeps every live track and open context held |
| Session.Run | src/hooks/useRecorder.ts:45-210 | over any sequence of calls and callbacks the live tracks and open contexts only shrink, no context is created, and every live track and open context stays held |
| SessionProps.StepKeepsInv | src/hooks/useRecorder.ts:45-210 | every call and every callback keeps the invariant |
| SessionProps.RunKeepsInv | src/hooks/useRecorder.ts:45-210 | any sequence of calls and callbacks keeps the invariant |
| SessionProps.InvAfterStartAndEvents | src/hooks/useRecorder.ts:58-210 | a start followed by any events keeps the invariant |
| SessionProps.StepKeepsConsistent | src/App.tsx:218-264 | a call the page offers, or a callback, keeps the stronger invariant |
| SessionProps.StartKeepsConsistent | src/App.tsx:79-185 | a start from the settings panel keeps the stronger invariant |
| SessionProps.RunKeepsConsistent | src/App.tsx:218-264 | a sequence of offered calls and callbacks keeps the stronger invariant |
| SessionProps.SessionsStayConsistent | src/App.tsx:170 | a start from an idle session followed by offered events keeps the stronger invariant |
| SessionProps.OnePanelShown | src/App.tsx:79-285 | in every state satisfying the invariant exactly one main panel is on the page |
| SessionProps.StepBudget | src/hooks/useRecorder.ts:45-56 | no event raises the number of stop events the current MediaRecorder can still deliver, and a finalizing one lowers it |
| SessionProps.FinalizationsWithinBudget | src/hooks/useRecorder.ts:159-165 | the number of finalizations in any run is at most the number of stop events still due |
| SessionProps.AtMostOneRecording | src/hooks/useRecorder.ts:159-165 | however stop, pause, resume and the end of sharing are interleaved, a recording is finalized at most once |
| SessionProps.StopFinalizesOnce | src/hooks/useRecorder.ts:159-165 | (corrected cleanup) stop followed by the stop event shows a preview of a Blob holding all chunks in order, as many bytes as counted, of the chosen type, with no capture track live, no audio context open and no webcam overlay; repeated stops and a later end of sharing change nothing |
| Platform.ConcatSize | src/hooks/useRecorder.ts:160 | the Blob is exactly as long as the sum of its part sizes |
| Platform.TotalSizeAppend | src/hooks/useRecorder.ts:155 | the size of joined chunk lists is the sum of their sizes |
| Platform.ConcatSnoc | src/hooks/useRecorder.ts:154 | appending a chunk appends its bytes at the end of the Blob |
| SessionProps.ChunksInArrivalOrder | src/hooks/useRecorder.ts:152-157 | the buffer grows by exactly the non-empty chunks delivered, in arrival order |
| SessionProps.FileSizeCountsChunks | src/hooks/useRecorder.ts:152-157 | until a reset the byte counter grows by exactly the size of the chunks delivered |
| SessionProps.TimerFrozenUntilResume | src/hooks/useRecorder.ts:171-200 | with no interval registered the timer stands still until a resume or a reset |
| SessionProps.PausedTimerFrozen | src/hooks/useRecorder.ts:181-190 | a paused recording's timer does not advance until a resume |
| SessionProps.TimerBoundedByTicks | src/hooks/useRecorder.ts:171-173 | until a reset the timer never decreases and advances at most once per second |
| SessionProps.RecordingCountsEverySecond | src/hooks/useRecorder.ts:171-173 | while recording without calls, every second is counted once |
| Capture.DisplayConstraints | src/hooks/useRecorder.ts:60-68 | the screen request has 1080 or 720 lines in a 16:9 frame, with audio exactly for system or both |
| Capture.UserMediaConstraints | src/hooks/useRecorder.ts:73-84 | user media is requested exactly when a microphone or the webcam is wanted, with audio exactly for mic or both and 320x240 video exactly for the webcam |
| Capture.SplitUserMedia | src/hooks/useRecorder.ts:86-95 | there is a microphone stream exactly when a microphone is wanted and the request is made and granted, and it holds exactly the answer's audio tracks; the webcam reference changes only with the webcam on and a granted answer, and then holds exactly the answer's video tracks |
| Session.UserTracks | src/hooks/useRecorder.ts:73-96 | user media adds live tracks only when requested and granted, and only tracks of the granted stream |
| Recorder.Recorder.RequestUserMedia | src/hooks/useRecorder.ts:70-96 | the microphone stream returned, the live tracks, the kept answer and the webcam stream agree with Capture.SplitUserMedia and Session.UserTracks |
| Capture.FirstAudio | src/hooks/useRecorder.ts:104-115 | a stream feeds the mixer with its first audio track, if it has one |
| Capture.MixerInputCount | src/hooks/useRecorder.ts:98-117 | the mixer receives the screen's first audio track, if any, then the microphone's, if any, and nothing else |
| Capture.MixedAudio | src/hooks/useRecorder.ts:98-117 | the mixer output is empty exactly when audio is off, and otherwise one audio track of the mixer's context |
| Recorder.Recorder.BuildMixer | src/hooks/useRecorder.ts:98-117 | with audio on, a fresh audio context is opened and referenced, fed with Capture.MixerInputs, and its one output track returned; with audio off nothing changes |
| Capture.FinalStreamTracks | src/hooks/useRecorder.ts:119-122 | the recorded stream holds the screen's video tracks in order and, when audio is on, only the mixer's output track as audio |
| Session.Acquire | src/hooks/useRecorder.ts:65-123 | acquiring the streams creates one audio context exactly when audio is on and leaves the status, buffer, counter, recorder and interval alone |
| Session.AcquireHoldsCaptures | src/hooks/useRecorder.ts:65-123 | (corrected cleanup) every screen and user-media track is live afterwards, and from a session with no live capture every live track is held by a reference |
| Recorder.Recorder.TakeScreen | src/hooks/useRecorder.ts:65-68 | the screen tracks become live and the screen stream is kept |
| Recorder.Recorder.CaptureSources | src/hooks/useRecorder.ts:65-96 | the new state adds the screen and user-media tracks and references, with the webcam stream and microphone stream of Capture.SplitUserMedia |
| Recorder.Recorder.StoreFinalStream | src/hooks/useRecorder.ts:98-123 | the mixer context is created exactly when audio is on, and the stored stream is Capture.FinalStream of the screen and the mixer output |
| Recorder.Recorder.AcquireStreams | src/hooks/useRecorder.ts:65-123 | the new state is Session.Acquire of the old one |
| Recorder.Recorder.CountDown | src/hooks/useRecorder.ts:132-135 | the countdown shows 3, 2 and 1 and ends at 1, nothing else changes |
| Recorder.Recorder.ArmCountdown | src/hooks/useRecorder.ts:125-130 | the first video track carries the stop handler and the countdown status begins at 3 |
| Recorder.Recorder.ClearBuffer | src/hooks/useRecorder.ts:137-139 | the chunk buffer, the byte count and the timer start from zero |
| Session.CountedDown | src/hooks/useRecorder.ts:125-139 | after the countdown the stop handler sits on a video track of the screen, the status is countdown, the buffer and counters are zero, and no capture or recorder changes |
| Recorder.Recorder.BeginCountdown | src/hooks/useRecorder.ts:125-139 | the new state is Session.CountedDown of the old one, after showing 3, 2, 1 |
| Capture.SelectMimeType | src/hooks/useRecorder.ts:141-148 | the container is the first supported of mp4, webm with vp8, and webm; vp9 webm when none is |
| Capture.FirstSupported | src/hooks/useRecorder.ts:141-148 | the reference choice is a supported entry of the list, or the default when no entry is supported |
| Capture.SelectMimeTypeIsFirstSupported | src/hooks/useRecorder.ts:141-148 | the chain of checks equals the first-supported reference definition over the preference list |
| Recorder.Recorder.ChooseMimeType | src/hooks/useRecorder.ts:141-148 | the chosen type is the first supported entry of the preference list, else vp9 webm |
| Recorder.Recorder.CreateRecorder | src/hooks/useRecorder.ts:150-178 | an unsupported type ends in the catch block (idle and cleanup); otherwise the session records with the interval running |
| Session.Launch | src/hooks/useRecorder.ts:129-178 | from the countdown on, the session records exactly when the chosen type is supported, with the recorder of that type, the interval running and a zero buffer; otherwise it is idle with no stream reference and the old recorder |
| Session.LaunchHoldsCaptures | src/hooks/useRecorder.ts:129-178 | (corrected cleanup) launching keeps every live track and open context held, and an aborted launch leaves none live or open |
| Recorder.Recorder.Launch | src/hooks/useRecorder.ts:129-173 | the new state is Session.Launch of the old one, after showing 3, 2, 1 |
| Session.StartRecording | src/hooks/useRecorder.ts:58-179 | a start records exactly when the screen is granted with a video track and the chosen type is supported; a failed start is idle with no stream reference and the previous recorder |
| Session.StartHoldsCaptures | src/hooks/useRecorder.ts:58-179 | (corrected cleanup) a start from a session with no live capture and no open context keeps every live track and open context held, and a failed one leaves none live or open |
| Recorder.Recorder.StartRecording | src/hooks/useRecorder.ts:58-179 | the new state is Session.StartRecording of the old one and the invariant is kept; the countdown is shown exactly when a screen with video was granted |
| SessionProps.AcquireKeepsInv | src/hooks/useRecorder.ts:65-123 | acquiring the streams keeps the invariant |
| SessionProps.LaunchKeepsInv | src/hooks/useRecorder.ts:129-178 | the countdown and recorder creation keep the invariant |
| SessionProps.StartKeepsInv | src/hooks/useRecorder.ts:58-179 | a start, successful or not, keeps the invariant |
| SessionProps.DisplayRefusedAborts | src/hooks/useRecorder.ts:174-178 | (corrected cleanup) a refused screen capture leaves an idle session with no stream or context reference, every held track stopped, no open context when the referenced one was the only one, and the recorder, timer and chunks as they were |
| SessionProps.FailedStartIsClean | src/hooks/useRecorder.ts:174-178 | (corrected cleanup) a start ends recording or idle, and a second cleanup of an idle result changes nothing |
| SessionProps.GrantedScreenStarts | src/hooks/useRecorder.ts:58-173 | a granted screen with video and a supported type starts recording with zeroed buffer and counters, the interval running, the selected type, the screen-plus-mixer stream, a fresh context exactly when audio is on, and the stop handler on the shared track |
| SessionProps.UserMediaRefusedDegrades | src/hooks/useRecorder.ts:93-95 | a refused getUserMedia still records, without microphone and with the webcam reference untouched |
| SessionProps.SilentScreenOnly | src/hooks/useRecorder.ts:98-122 | without audio no context is created and the recorded stream has only the screen video |
| SessionProps.SystemAudioOnlyWhenUserMediaRefused | src/hooks/useRecorder.ts:73-122 | with both audio sources and the webcam but user media refused, the mixer gets only the system audio and there is no webcam |
| SessionProps.MicOutlivesCleanupAsWritten | src/hooks/useRecorder.ts:28-43 | cleanup as written leaves a recorded microphone track live; the corrected cleanup stops it |
| SessionProps.RestartOrphansCaptures | src/hooks/useRecorder.ts:58-123 | a second start during a recording replaces the references to the first screen stream, whose track stays live and out of reach of any cleanup |
| SessionProps.RestartOrphansContext | src/hooks/useRecorder.ts:98-101 | a start with audio while an open context is referenced, as during any recording with audio, replaces that reference whether it succeeds or fails, leaving the earlier context open after any cleanup |
| SessionProps.WebcamOverlayAfterStart | src/App.tsx:285-287 | after a start, the webcam picture is shown exactly when the recording started with the webcam on and getUserMedia granted |
| App.NatToString | src/App.tsx:11-12 | toString of a whole number is decimal digits without a leading zero that read back as the number |
| App.PadStart | src/App.tsx:11-12 | padStart keeps the text at the end and fills only in front, up to the width |
| App.LeadingZeros | src/App.tsx:11-12 | zeros in front do not change the value of a digit string |
| App.TwoDigits | src/App.tsx:11-12 | the padded field reads back as the number, with exactly two digits below 100 |
| App.ParseJoined | src/App.tsx:13 | two digit strings joined by a colon read back as minutes and seconds |
| App.FormatTime | src/App.tsx:10-14 | reading the formatted time back gives the elapsed seconds |
| App.FormatTimeInjective | src/App.tsx:10-14 | different elapsed times are shown as different texts |
| App.SecondsField | src/App.tsx:10-14 | the text ends in a colon and a seconds field from 00 to 59 holding the seconds past the minute |
| App.TwoDigitsBelowSixty | src/App.tsx:12 | a seconds value is two digits with the first at most 5 |
| App.ShortFormat | src/App.tsx:10-14 | under 100 minutes the text is exactly mm:ss with the minutes and the seconds |
| App.ControlsByStatus | src/App.tsx:79-264 | start only when idle, pause only while recording, resume only while paused, stop only in these two, discard and save only on a preview with a recording, and no control during the countdown |
| App.OnePanelAtATime | src/App.tsx:79-247 | at most one main panel is shown, and none only for a preview without a recording |
| App.DownloadNameAsWrittenMislabelsMp4 | src/App.tsx:262-264 | where mp4 is supported the recording is an mp4 Blob, yet the saved name ends in .webm |
| App.ExtensionOfChosenType | src/hooks/useRecorder.ts:141-148 | (corrected name) the saved name says mp4 exactly when the browser supports mp4, the hook's first choice, and webm otherwise |
| App.DownloadNameMatchesContainer | src/App.tsx:262-264 | (corrected name) the corrected name is the prefix, the timestamp that reads back as the time, and the extension of the container |
| App.SavedFileName | src/App.tsx:247-264 | (corrected name) a name is offered exactly with the save link, and it ends in .mp4 exactly for an mp4 recording |

## Left out

- The file-size label (`formatBytes`, App.tsx:16-20) is left out because it uses floating-point division and `toFixed`.
- `src/components/DraggableWebcam.tsx` (dragging the overlay) is not part of this model. Only whether the overlay is shown is modelled.
- The page's markup and styling, and the settings panel's own React state, are left out. The settings are a parameter of start.
- I/O is a parameter. Handlers such as `new Date().getTime()` become `now`. Every browser answer (screen, user media, `isTypeSupported`, the timing of `dataavailable`, `stop` and the end of sharing) is an argument or an event.
- Object URLs are modelled as the Blob they name. Their creation and `URL.revokeObjectURL` in reset are not modelled.
- Console logging and the `close()` promise of the audio context are left out. A context counts as closed once `close()` is called.
- Audio content is not modelled. No signal flows through the mixer, and the mixer's input tracks are computed but leave no trace in the state. Codec output is not modelled either: a chunk is an arbitrary byte sequence.
- startRecording runs as one step given the browser's answers. Calls and callbacks that arrive during its awaits are not modelled: during getDisplayMedia, getUserMedia and the three one-second waits of the countdown.
- The three countdown waits are not timed. `Recorder.Recorder.CountDown` reports the shown values through a ghost sequence.
- React's batching of state updates is not modelled. Each update takes effect immediately.
- Registered intervals are modelled by one flag, `ticking`. Under calls the page never makes, several intervals could run at once, e.g. a reset during a recording followed by a new start. The model shows these as one interval.
- After a restart, only the current MediaRecorder is modelled. A superseded recorder that fires a late stop event is not.
- A MediaRecorder delivers its stop event only after the hook calls `stop()` (the `stopPending` flag). A recorder that stops by itself, because every recorded track ended or because of an error, is not modelled.
- Session.Reset, Session.OnRecorderStop, Session.Launch, Session.StartRecording and Recorder.Recorder use the corrected cleanup Session.Reclaim. The hook's own cleanup is Session.ReclaimAsWritten. So the model does not promise of the code as written that no capture track stays live after cleanup: the microphone and system-audio tracks do (see Findings).
- App.SavedFileName uses the corrected name App.DownloadName. The page's own name is App.DownloadNameAsWritten, which always ends in `.webm`.
- Session.LiveHeld (every live track is held by a reference) and Session.ContextHeld (every open audio context is referenced) are part of `Consistent`, not of `Inv`. startRecording has no guard of its own. A second start during a recording replaces the references to the first recording's streams (SessionProps.RestartOrphansCaptures). It also replaces `audioContextRef` (useRecorder.ts:100-101), so the first audio context is never closed (SessionProps.RestartOrphansContext). The page offers start only when idle.
- SessionProps.StepKeepsConsistent: the stronger invariant `Consistent` is proved only for calls the page offers. A reset while recording, which the page never offers, zeroes the byte counter while the recorder keeps delivering chunks. Only `Inv` is proved for every order of calls.
- SessionProps.FileSizeCountsChunks: proved for runs without a reset, because reset zeroes the counter but keeps the buffer until the next start.

## Findings

| source | as written | input that shows it | evidently intended | confidence | as-written member | corrected member |
|---|---|---|---|---|---|---|
| src/hooks/useRecorder.ts:28-43 | cleanupStreams stops only the tracks of the recorded stream (screen video and mixer output) and of the webcam stream | audio "mic" (or "both"), webcam off: the microphone track feeds the mixer but is in neither stream, so it stays live after the recording is finalized, as does a system-audio track of the screen | every capture track the hook obtained is stopped on cleanup | medium, not executed | Session.ReclaimAsWritten, SessionProps.MicOutlivesCleanupAsWritten | Session.Reclaim, Session.ReclaimStopsHeld |
| src/App.tsx:262-264 | the save link always names the file `capture-<time>.webm` | a browser where `isTypeSupported("video/mp4")` holds: the Blob is `video/mp4` but is saved with a `.webm` name | the extension follows the recording's container type | medium, not executed | App.DownloadNameAsWritten, App.DownloadNameAsWrittenMislabelsMp4 | App.DownloadName |
