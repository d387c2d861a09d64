/**
  Properties of the recording session: the invariant is kept by every operation and callback,
  a session yields at most one recording however often it is stopped, chunks are kept in
  arrival order with the byte counter in step, the elapsed time only grows while an interval
  runs, and startup degrades or aborts exactly as the hook decides.
 */
module SessionProps {

  import opened Wrappers
  import opened Platform
  import opened Capture
  import opened Session
  import opened App

  // ---------------------------------------------------------------------------------------
  // The invariant

  lemma TickKeepsInv(s: Session)
    requires Inv(s)
    ensures Inv(OnTick(s))
  {
  }

  lemma DataKeepsInv(s: Session, c: Chunk)
    requires Inv(s)
    ensures Inv(OnData(s, c))
  {
  }

  lemma RecorderStopKeepsInv(s: Session)
    requires Inv(s)
    ensures Inv(OnRecorderStop(s))
  {
  }

  lemma ShareEndedKeepsInv(s: Session)
    requires Inv(s)
    ensures Inv(OnShareEnded(s))
  {
  }

  lemma StopKeepsInv(s: Session)
    requires Inv(s)
    ensures Inv(StopRecording(s))
  {
  }

  lemma PauseKeepsInv(s: Session)
    requires Inv(s)
    ensures Inv(PauseRecording(s))
  {
  }

  lemma ResumeKeepsInv(s: Session)
    requires Inv(s)
    ensures Inv(ResumeRecording(s))
  {
  }

  lemma ResetKeepsInv(s: Session)
    requires Inv(s)
    ensures Inv(Reset(s))
  {
  }

  /** Every call and every callback keeps the invariant, whatever the status. */
  lemma StepKeepsInv(s: Session, e: Event)
    requires Inv(s)
    ensures Inv(Step(s, e))
  {
    match e
    case Tick => TickKeepsInv(s);
    case DataAvailable(c) => DataKeepsInv(s, c);
    case RecorderStop => RecorderStopKeepsInv(s);
    case ShareEnded => ShareEndedKeepsInv(s);
    case CallStop => StopKeepsInv(s);
    case CallPause => PauseKeepsInv(s);
    case CallResume => ResumeKeepsInv(s);
    case CallReset => ResetKeepsInv(s);
  }

  lemma AcquireKeepsInv(s: Session, settings: Settings, screen: MediaStream, user: Grant)
    requires Inv(s)
    ensures Inv(Acquire(s, settings, screen, user))
  {
  }

  lemma LaunchKeepsInv(a: Session, screen: MediaStream, supported: string -> bool)
    requires Inv(a) && VideoTracks(screen) != []
    ensures Inv(Launch(a, screen, supported))
  {
  }

  lemma StartKeepsInv(s: Session, settings: Settings, display: Grant, user: Grant, supported: string -> bool)
    requires Inv(s)
    ensures Inv(StartRecording(s, settings, display, user, supported))
  {
    if display.Granted? {
      AcquireKeepsInv(s, settings, display.stream, user);
      if VideoTracks(display.stream) != [] {
        LaunchKeepsInv(Acquire(s, settings, display.stream, user), display.stream, supported);
      }
    }
  }

  lemma {:induction false} RunKeepsInv(s: Session, evs: seq<Event>)
    requires Inv(s)
    ensures Inv(Run(s, evs))
    decreases |evs|
  {
    if evs != [] {
      StepKeepsInv(s, evs[0]);
      RunKeepsInv(Step(s, evs[0]), evs[1..]);
    }
  }

  /** Every state reachable from a freshly mounted hook by starts and events satisfies Inv. */
  lemma InvAfterStartAndEvents(s: Session, settings: Settings, display: Grant, user: Grant,
                               supported: string -> bool, evs: seq<Event>)
    requires Inv(s)
    ensures Inv(Run(StartRecording(s, settings, display, user, supported), evs))
  {
    StartKeepsInv(s, settings, display, user, supported);
    RunKeepsInv(StartRecording(s, settings, display, user, supported), evs);
  }

  // ---------------------------------------------------------------------------------------
  // The invariant of the calls the view offers

  /** Every event of `evs` is allowed by the page at the moment it happens. */
  predicate OfferedAll(s: Session, evs: seq<Event>)
    decreases |evs|
  {
    evs == [] || (Offered(s, evs[0]) && OfferedAll(Step(s, evs[0]), evs[1..]))
  }

  lemma StepKeepsConsistent(s: Session, e: Event)
    requires Consistent(s) && Offered(s, e)
    ensures Consistent(Step(s, e))
  {
    StepKeepsInv(s, e);
    match e
    case DataAvailable(c) =>
      if |c| > 0 {
        TotalSizeAppend(s.chunks, [c]);
      }
    case _ =>
  }

  /** Start is offered only to an idle session. */
  lemma StartKeepsConsistent(s: Session, settings: Settings, display: Grant, user: Grant, supported: string -> bool)
    requires Consistent(s) && StartButton in Controls(s.status, s.mediaUrl.Some?)
    ensures Consistent(StartRecording(s, settings, display, user, supported))
  {
    ControlsByStatus(s.status, s.mediaUrl.Some?);
    StartKeepsInv(s, settings, display, user, supported);
    StartHoldsCaptures(s, settings, display, user, supported);
  }

  lemma {:induction false} RunKeepsConsistent(s: Session, evs: seq<Event>)
    requires Consistent(s) && OfferedAll(s, evs)
    ensures Consistent(Run(s, evs))
    decreases |evs|
  {
    if evs != [] {
      StepKeepsConsistent(s, evs[0]);
      RunKeepsConsistent(Step(s, evs[0]), evs[1..]);
    }
  }

  /** From a freshly mounted hook, any number of recordings started with the start button and
      driven by the controls on the page and by browser callbacks stay consistent. */
  lemma {:induction false} SessionsStayConsistent(s: Session, settings: Settings, display: Grant, user: Grant,
                                                 supported: string -> bool, evs: seq<Event>)
    requires Consistent(s) && s.status == Idle && OfferedAll(StartRecording(s, settings, display, user, supported), evs)
    ensures Consistent(Run(StartRecording(s, settings, display, user, supported), evs))
  {
    StartKeepsConsistent(s, settings, display, user, supported);
    RunKeepsConsistent(StartRecording(s, settings, display, user, supported), evs);
  }

  /** In every state the page can reach, exactly one main panel is shown: a preview always has
      its recording. */
  lemma OnePanelShown(s: Session)
    requires Inv(s)
    ensures var shown := (if ShowsConfiguration(s.status) then 1 else 0) + (if ShowsCountdown(s.status) then 1 else 0) +
                         (if ShowsSessionView(s.status) then 1 else 0) + (if ShowsPreview(s.status, s.mediaUrl.Some?) then 1 else 0);
      shown == 1
  {
    OnePanelAtATime(s.status, s.mediaUrl.Some?);
  }

  // ---------------------------------------------------------------------------------------
  // One recording per session

  /** The number of stop events among `evs` that finalize a recording (create its Blob URL). */
  function Finalizations(s: Session, evs: seq<Event>): nat
    decreases |evs|
  {
    if evs == [] then 0
    else (if evs[0] == RecorderStop && StopPending(s) then 1 else 0) + Finalizations(Step(s, evs[0]), evs[1..])
  }

  /** 1 while the current MediaRecorder can still deliver a stop event, 0 once it has. */
  function StopBudget(s: Session): nat {
    if s.recorder.Some? && (s.recorder.value.state != Inactive || s.recorder.value.stopPending) then 1 else 0
  }

  lemma StepBudget(s: Session, e: Event)
    requires Inv(s)
    ensures StopBudget(Step(s, e)) + (if e == RecorderStop && StopPending(s) then 1 else 0) <= StopBudget(s)
  {
  }

  lemma {:induction false} FinalizationsWithinBudget(s: Session, evs: seq<Event>)
    requires Inv(s)
    ensures Finalizations(s, evs) <= StopBudget(s)
    decreases |evs|
  {
    if evs != [] {
      StepBudget(s, evs[0]);
      StepKeepsInv(s, evs[0]);
      FinalizationsWithinBudget(Step(s, evs[0]), evs[1..]);
    }
  }

  /** However the view calls stop, pause and resume, and however often sharing ends, a
      recording is finalized at most once until the next start. */
  lemma AtMostOneRecording(s: Session, evs: seq<Event>)
    requires Inv(s)
    ensures Finalizations(s, evs) <= 1
  {
    FinalizationsWithinBudget(s, evs);
  }

  /** Stopping a live recorder and receiving its stop event shows the preview of a Blob that
      holds every chunk in order, as many bytes as the counter says, of the chosen container
      type, with every capture released. Further stops and a later end of sharing change
      nothing, so repeating them yields the same final state. */
  lemma StopFinalizesOnce(s: Session)
    requires Consistent(s) && s.status != Idle
    requires s.recorder.Some? && s.recorder.value.state != Inactive
    ensures var f := Run(s, [CallStop, RecorderStop]);
      && f.status == Preview
      && f.mediaUrl == Some(Blob(Concat(s.chunks), s.recorder.value.mimeType))
      && |f.mediaUrl.value.data| == s.fileSize
      && f.live == {} && f.stream.None? && f.webcamStream.None? && f.audioContext.None?
      && f.openContexts == {}
      && !f.ticking && f.timer == s.timer
      && ShowsPreview(f.status, f.mediaUrl.Some?) && !ShowsWebcamOverlay(f.status, f.webcamStream.Some?)
    ensures Run(s, [CallStop, CallStop, RecorderStop, CallStop, ShareEnded, RecorderStop, CallStop])
         == Run(s, [CallStop, RecorderStop])
  {
    StopThenEvent(s);
    RepeatedStopsSettle(s);
    RunStopThenEvent(s);
  }

  /** Stop followed by the stop event, as a run. */
  lemma RunStopThenEvent(s: Session)
    ensures Run(s, [CallStop, RecorderStop]) == OnRecorderStop(StopRecording(s))
  {
    var a := StopRecording(s);
    assert Step(s, CallStop) == a && [CallStop, RecorderStop][1..] == [RecorderStop];
    assert Run(a, [RecorderStop]) == Run(OnRecorderStop(a), []);
  }

  /** Once the stop event has come, further stops, stop events and the end of sharing change
      nothing: the session has settled in the preview. */
  lemma RepeatedStopsSettle(s: Session)
    requires s.recorder.Some? && s.recorder.value.state != Inactive && LiveHeld(s)
    ensures Run(s, [CallStop, CallStop, RecorderStop, CallStop, ShareEnded, RecorderStop, CallStop])
         == OnRecorderStop(StopRecording(s))
  {
    var a := StopRecording(s);
    assert Step(s, CallStop) == a && Step(a, CallStop) == a;
    var f := OnRecorderStop(a);
    assert Step(a, RecorderStop) == f;
    assert LiveHeld(a);
    RecorderStopStopsHeld(a);
    var rest := [CallStop, ShareEnded, RecorderStop, CallStop];
    assert Step(f, CallStop) == f && Step(f, ShareEnded) == f && Step(f, RecorderStop) == f;
    RunFixed(f, rest);
    var l3 := [RecorderStop] + rest;
    var l2 := [CallStop] + l3;
    var l1 := [CallStop] + l2;
    assert l3[1..] == rest && l2[1..] == l3 && l1[1..] == l2;
    assert Run(a, l3) == Run(f, rest);
    assert Run(a, l2) == Run(a, l3);
    assert Run(s, l1) == Run(a, l2);
    assert l1 == [CallStop, CallStop, RecorderStop, CallStop, ShareEnded, RecorderStop, CallStop];
  }

  /** The stop event after stop(): the preview of everything recorded, nothing live. */
  lemma StopThenEvent(s: Session)
    requires Consistent(s) && s.status != Idle
    requires s.recorder.Some? && s.recorder.value.state != Inactive
    ensures var f := OnRecorderStop(StopRecording(s));
      && f.status == Preview && f.recorder.Some? && !f.recorder.value.stopPending
      && f.recorder.value.state == Inactive
      && f.mediaUrl == Some(Blob(Concat(s.chunks), s.recorder.value.mimeType))
      && |f.mediaUrl.value.data| == s.fileSize
      && f.live == {} && NoStreams(f) && f.audioContext.None? && f.openContexts == {}
      && !f.ticking && f.timer == s.timer
  {
    ConcatSize(s.chunks);
    var a := StopRecording(s);
    assert LiveHeld(a) && ContextHeld(a);
    RecorderStopStopsHeld(a);
  }

  /** Events that each leave a state as it is leave it as it is in any order. */
  lemma {:induction false} RunFixed(t: Session, evs: seq<Event>)
    requires forall i :: 0 <= i < |evs| ==> Step(t, evs[i]) == t
    ensures Run(t, evs) == t
    decreases |evs|
  {
    if evs != [] {
      RunFixed(t, evs[1..]);
    }
  }

  /** Ending screen sharing while a recording runs or is paused finalizes exactly like
      pressing stop. */
  lemma ShareEndedActsAsStop(s: Session)
    requires s.shareTrack.Some? && s.shareTrack.value in s.live && LiveHeld(s)
    requires s.recorder.Some? && s.recorder.value.state != Inactive
    ensures Run(s, [ShareEnded, RecorderStop]) == Run(s, [CallStop, RecorderStop])
  {
  }

  // ---------------------------------------------------------------------------------------
  // Chunk accumulation

  /** The non-empty chunks delivered by the data events of `evs`, in delivery order. */
  function Received(evs: seq<Event>): seq<Chunk> {
    if evs == [] then []
    else (if evs[0].DataAvailable? && |evs[0].chunk| > 0 then [evs[0].chunk] else []) + Received(evs[1..])
  }

  /** Whatever else happens, the buffer grows by exactly the non-empty chunks delivered, in the
      order they arrive: none dropped, none duplicated. */
  lemma {:induction false} ChunksInArrivalOrder(s: Session, evs: seq<Event>)
    ensures Run(s, evs).chunks == s.chunks + Received(evs)
    decreases |evs|
  {
    if evs != [] {
      var t := Step(s, evs[0]);
      StepChunks(s, evs[0]);
      ChunksInArrivalOrder(t, evs[1..]);
      assert Run(s, evs) == Run(t, evs[1..]);
      assert Received(evs) == Received([evs[0]]) + Received(evs[1..]) by {
        assert [evs[0]][1..] == [];
      }
    }
  }

  /** One event adds to the buffer exactly the chunk it delivers, if that is not empty. */
  lemma StepChunks(s: Session, e: Event)
    ensures Step(s, e).chunks == s.chunks + Received([e])
  {
    assert [e][1..] == [];
  }

  /** Until the view resets, the counter grows by exactly the size of the chunks received. */
  lemma {:induction false} FileSizeCountsChunks(s: Session, evs: seq<Event>)
    requires forall i :: 0 <= i < |evs| ==> evs[i] != CallReset
    ensures Run(s, evs).fileSize == s.fileSize + TotalSize(Received(evs))
    decreases |evs|
  {
    if evs != [] {
      FileSizeCountsChunks(Step(s, evs[0]), evs[1..]);
      var head := if evs[0].DataAvailable? && |evs[0].chunk| > 0 then [evs[0].chunk] else [];
      TotalSizeAppend(head, Received(evs[1..]));
      assert TotalSize(head) == if head == [] then 0 else |evs[0].chunk| by {
        if head != [] {
          assert head[..0] == [];
        }
      }
    }
  }

  // ---------------------------------------------------------------------------------------
  // Elapsed time

  function Ticks(evs: seq<Event>): nat {
    if evs == [] then 0 else (if evs[0] == Tick then 1 else 0) + Ticks(evs[1..])
  }

  /** With no interval registered, the elapsed time stands still until the view resumes or
      resets: no other call and no callback restarts the interval. */
  lemma {:induction false} TimerFrozenUntilResume(s: Session, evs: seq<Event>)
    requires !s.ticking
    requires forall i :: 0 <= i < |evs| ==> evs[i] != CallResume && evs[i] != CallReset
    ensures Run(s, evs).timer == s.timer && !Run(s, evs).ticking
    decreases |evs|
  {
    if evs != [] {
      StepTimer(s, evs[0]);
      TimerFrozenUntilResume(Step(s, evs[0]), evs[1..]);
    }
  }

  /** Paused, the elapsed time does not advance until a resume. */
  lemma PausedTimerFrozen(s: Session, evs: seq<Event>)
    requires Inv(s) && s.status == Paused
    requires forall i :: 0 <= i < |evs| ==> evs[i] != CallResume && evs[i] != CallReset
    ensures Run(s, evs).timer == s.timer
  {
    TimerFrozenUntilResume(s, evs);
  }

  /** Until a reset the elapsed time never decreases and advances by at most one per second:
      no second is counted twice. */
  lemma {:induction false} TimerBoundedByTicks(s: Session, evs: seq<Event>)
    requires forall i :: 0 <= i < |evs| ==> evs[i] != CallReset
    ensures s.timer <= Run(s, evs).timer <= s.timer + Ticks(evs)
    decreases |evs|
  {
    if evs != [] {
      StepTimer(s, evs[0]);
      TimerBoundedByTicks(Step(s, evs[0]), evs[1..]);
    }
  }

  /** While recording with no call from the view, every second counts once. */
  lemma {:induction false} RecordingCountsEverySecond(s: Session, evs: seq<Event>)
    requires s.ticking
    requires forall i :: 0 <= i < |evs| ==> evs[i] == Tick || evs[i].DataAvailable?
    ensures Run(s, evs).timer == s.timer + Ticks(evs)
    decreases |evs|
  {
    if evs != [] {
      StepTimer(s, evs[0]);
      RecordingCountsEverySecond(Step(s, evs[0]), evs[1..]);
    }
  }

  /** What one event does to the elapsed time and the interval. */
  lemma StepTimer(s: Session, e: Event)
    ensures e != CallReset ==> s.timer <= Step(s, e).timer <= s.timer + (if e == Tick then 1 else 0)
    ensures !s.ticking && e != CallResume && e != CallReset ==> Step(s, e).timer == s.timer && !Step(s, e).ticking
    ensures s.ticking && (e == Tick || e.DataAvailable?) ==>
      Step(s, e).ticking && Step(s, e).timer == s.timer + (if e == Tick then 1 else 0)
  {
  }

  // ---------------------------------------------------------------------------------------
  // Pause, resume, stop, reset

  /** Pausing then resuming a recording session returns it to exactly its former state. */
  lemma PauseResumeRoundTrip(s: Session)
    requires Inv(s) && s.status == Recording && RecorderRecording(s)
    ensures ResumeRecording(PauseRecording(s)) == s
  {
  }

  /** Pause while paused and resume while recording are no-ops; pause, resume, stop, reset and
      a repeated stop event are idempotent. */
  lemma GuardsMakeRepeatsHarmless(s: Session)
    requires Inv(s)
    ensures s.status == Paused ==> PauseRecording(s) == s
    ensures s.status == Recording ==> ResumeRecording(s) == s
    ensures PauseRecording(PauseRecording(s)) == PauseRecording(s)
    ensures ResumeRecording(ResumeRecording(s)) == ResumeRecording(s)
    ensures StopRecording(StopRecording(s)) == StopRecording(s)
    ensures Reset(Reset(s)) == Reset(s)
    ensures OnRecorderStop(OnRecorderStop(s)) == OnRecorderStop(s)
  {
  }

  /** Pause acts exactly when the MediaRecorder is recording, resume exactly when it is
      paused, and stop exactly when it is not inactive. */
  lemma GuardsDecideAction(s: Session)
    ensures PauseRecording(s) != s <==> RecorderRecording(s)
    ensures ResumeRecording(s) != s <==> s.recorder.Some? && s.recorder.value.state == Suspended
    ensures StopRecording(s) != s <==> s.recorder.Some? && s.recorder.value.state != Inactive
    ensures PauseRecording(s) != s ==> PauseRecording(s).status == Paused && !PauseRecording(s).ticking
    ensures ResumeRecording(s) != s ==> ResumeRecording(s).status == Recording && ResumeRecording(s).ticking
  {
  }

  /** Reset forgets the recording, zeroes the counters, rewinds the countdown, drops the stream
      references and the audio context, and stops every capture track it holds: when every live
      track is held, none is left live. */
  lemma ResetRestoresIdle(s: Session)
    ensures var r := Reset(s);
      && r.status == Idle && r.mediaUrl.None? && r.timer == 0 && r.fileSize == 0 && r.countdown == 3
      && (LiveHeld(s) ==> r.live == {}) && (forall t :: t in Held(s) ==> t !in r.live)
      && r.stream.None? && r.webcamStream.None? && r.screenStream.None? && r.userMedia.None?
      && r.audioContext.None?
      && (s.audioContext.Some? ==> s.audioContext.value !in r.openContexts)
      && r.openContexts <= s.openContexts && (ContextHeld(s) ==> r.openContexts == {})
  {
  }

  // ---------------------------------------------------------------------------------------
  // Startup

  /** A refused screen capture aborts: the session is idle and cleaned up, with every held
      capture stopped. */
  lemma DisplayRefusedAborts(s: Session, settings: Settings, user: Grant, supported: string -> bool)
    ensures var r := StartRecording(s, settings, Denied, user, supported);
      && r.status == Idle
      && (LiveHeld(s) ==> r.live == {}) && (forall t :: t in Held(s) ==> t !in r.live)
      && r.stream.None? && r.webcamStream.None? && r.screenStream.None? && r.userMedia.None?
      && r.audioContext.None? && (ContextHeld(s) ==> r.openContexts == {})
      && r.recorder == s.recorder && r.timer == s.timer && r.chunks == s.chunks
  {
  }

  /** Any failed start leaves the session idle with nothing left to clean up. */
  lemma FailedStartIsClean(s: Session, settings: Settings, display: Grant, user: Grant, supported: string -> bool)
    ensures var r := StartRecording(s, settings, display, user, supported);
      r.status == Idle ==> Reclaim(r) == r
    ensures StartRecording(s, settings, display, user, supported).status in {Idle, Recording}
  {
  }

  /** A granted screen with a video track and a supported container starts recording, whether
      or not the microphone and webcam were granted: the buffer and both counters are zero, the
      interval runs, the recorder uses the selected container type, the final stream is the
      screen video followed by the mixer output, a fresh audio context is open exactly when
      audio is wanted, and the shared track carries the stop handler. */
  lemma GrantedScreenStarts(s: Session, settings: Settings, screen: MediaStream, user: Grant,
                            supported: string -> bool)
    requires Inv(s)
    requires VideoTracks(screen) != [] && supported(SelectMimeType(supported))
    ensures var r := StartRecording(s, settings, Granted(screen), user, supported);
      && r.status == Recording && r.countdown == 1
      && r.chunks == [] && r.fileSize == 0 && r.timer == 0 && r.ticking
      && r.recorder == Some(MediaRecorder(Capturing, SelectMimeType(supported), false))
      && r.stream == Some(FinalStream(screen, MixedAudio(settings, s.nextContext)))
      && r.shareTrack == Some(VideoTracks(screen)[0])
      && (forall t :: t in screen.tracks ==> t in r.live)
      && (settings.audio != NoAudio <==> r.audioContext == Some(s.nextContext))
      && (settings.audio != NoAudio <==> s.nextContext in r.openContexts - s.openContexts)
  {
  }

  /** A refused getUserMedia is not fatal: recording starts without microphone and with the
      webcam reference untouched. */
  lemma UserMediaRefusedDegrades(s: Session, settings: Settings, screen: MediaStream,
                                 supported: string -> bool)
    requires VideoTracks(screen) != [] && supported(SelectMimeType(supported))
    ensures var r := StartRecording(s, settings, Granted(screen), Denied, supported);
      && r.status == Recording
      && r.webcamStream == s.webcamStream
      && SplitUserMedia(settings, Denied, s.webcamStream).mic.None?
      && r.live == s.live + TracksIn(screen)
  {
  }

  /** 720p without audio or webcam: no audio context, and a recorded stream with no audio. */
  lemma SilentScreenOnly(s: Session, screen: MediaStream, user: Grant, supported: string -> bool)
    requires VideoTracks(screen) != [] && supported(SelectMimeType(supported))
    ensures var r := StartRecording(s, Settings(Q720p, NoAudio, false), Granted(screen), user, supported);
      && r.openContexts == s.openContexts && r.nextContext == s.nextContext
      && r.stream.Some? && AudioTracks(r.stream.value) == []
      && VideoTracks(r.stream.value) == VideoTracks(screen)
      && r.live == s.live + TracksIn(screen)
  {
    FinalStreamTracks(Settings(Q720p, NoAudio, false), screen, s.nextContext);
  }

  /** 1080p with both audio sources and the webcam, microphone and webcam refused: recording
      proceeds with system audio only as mixer input and no webcam overlay stream. */
  lemma SystemAudioOnlyWhenUserMediaRefused(s: Session, screen: MediaStream, supported: string -> bool)
    requires s.webcamStream.None?
    requires VideoTracks(screen) != [] && |AudioTracks(screen)| > 0 && supported(SelectMimeType(supported))
    ensures var settings := Settings(Q1080p, Both, true);
      var r := StartRecording(s, settings, Granted(screen), Denied, supported);
      && r.status == Recording
      && r.webcamStream.None?
      && MixerInputs(screen, SplitUserMedia(settings, Denied, s.webcamStream).mic) == [AudioTracks(screen)[0]]
      && r.stream.Some? && AudioTracks(r.stream.value) == [Track(Mixer(s.nextContext), Audio)]
  {
    FinalStreamTracks(Settings(Q1080p, Both, true), screen, s.nextContext);
  }

  // ---------------------------------------------------------------------------------------
  // The microphone track and cleanupStreams

  /** cleanupStreams as written stops the tracks of the recorded stream and of the webcam
      stream only. For a microphone recording, the microphone track feeds the mixer but is in
      neither stream, so it stays live after the recording is finalized. */
  lemma MicOutlivesCleanupAsWritten(s: Session, screen: MediaStream, mic: Track, supported: string -> bool)
    requires s.webcamStream.None? && s.live == {}
    requires VideoTracks(screen) != [] && supported(SelectMimeType(supported))
    requires mic.kind == Audio && mic.origin.Device?
    ensures var r := StartRecording(s, Settings(Q720p, Mic, false), Granted(screen),
                                    Granted(MediaStream([mic])), supported);
      && r.status == Recording
      && mic in r.live
      && mic in ReclaimAsWritten(r).live
      && Reclaim(r).live == {}
  {
    var settings := Settings(Q720p, Mic, false);
    var r := StartRecording(s, settings, Granted(screen), Granted(MediaStream([mic])), supported);
    FinalStreamTracks(settings, screen, s.nextContext);
    assert mic !in VideoTracks(screen);
    assert r.stream.value.tracks == VideoTracks(screen) + [Track(Mixer(s.nextContext), Audio)];
    assert mic !in TracksOf(r.stream);
  }

  /** startRecording has no guard of its own: called again while a recording runs, it replaces
      the references to the first recording's streams, and the first screen capture, still
      live, can no longer be stopped by any cleanup. The page offers start only when idle. */
  lemma RestartOrphansCaptures(first: Track, second: Track, supported: string -> bool)
    requires first != second && first.kind == Video && second.kind == Video
    requires supported(SelectMimeType(supported))
    ensures var settings := Settings(Q720p, NoAudio, false);
      var s := StartRecording(Initial(), settings, Granted(MediaStream([first])), Denied, supported);
      var r := StartRecording(s, settings, Granted(MediaStream([second])), Denied, supported);
      && Consistent(s) && s.status == Recording
      && first in r.live && first !in Held(r) && !LiveHeld(r)
      && first in Reclaim(r).live
  {
    var settings := Settings(Q720p, NoAudio, false);
    assert first in VideoTracks(MediaStream([first]));
    assert second in VideoTracks(MediaStream([second]));
    var s := StartRecording(Initial(), settings, Granted(MediaStream([first])), Denied, supported);
    var r := StartRecording(s, settings, Granted(MediaStream([second])), Denied, supported);
    FinalStreamTracks(settings, MediaStream([second]), s.nextContext);
    assert first !in TracksOf(r.stream);
  }

  /** startRecording with audio, called while the hook references an open audio context (as
      it does during any recording with audio, GrantedScreenStarts), replaces that reference
      whether the start succeeds or fails: the earlier context stays open, unreferenced, and
      open after any further cleanup. */
  lemma RestartOrphansContext(s: Session, settings: Settings, screen: MediaStream, user: Grant,
                              supported: string -> bool)
    requires Inv(s) && s.audioContext.Some? && s.audioContext.value in s.openContexts
    requires settings.audio != NoAudio
    ensures var r := StartRecording(s, settings, Granted(screen), user, supported);
      && s.audioContext.value in r.openContexts && r.audioContext != s.audioContext
      && !ContextHeld(r) && s.audioContext.value in Reclaim(r).openContexts
  {
    var a := Acquire(s, settings, screen, user);
    assert a.audioContext == Some(s.nextContext) && a.openContexts == s.openContexts + {s.nextContext};
  }

  /** The webcam picture appears after a start exactly when the recording started with the
      webcam on and getUserMedia granted; a failed start, like every cleanup, leaves none. */
  lemma WebcamOverlayAfterStart(s: Session, settings: Settings, display: Grant, user: Grant,
                                supported: string -> bool)
    requires s.webcamStream.None?
    ensures var r := StartRecording(s, settings, display, user, supported);
      ShowsWebcamOverlay(r.status, r.webcamStream.Some?) <==>
        r.status == Recording && settings.webcam && user.Granted?
  {
  }
}
