/**
  The recorder hook's state as a value, and one transition function per operation of the hook
  and per browser callback it installs. The Recorder class keeps the same state in fields and is
  specified by these functions; the properties of the session are proved here.
 */
module Session {

  import opened Wrappers
  import opened Platform
  import opened Capture

  datatype Status = Idle | Countdown | Recording | Paused | Preview

  /** Everything the hook holds, plus what the platform holds on its behalf:
      - status, countdown, timer, fileSize, mediaUrl, webcamStream: the hook's React state
        (mediaUrl stands for the object URL of the Blob it names);
      - recorder, stream, audioContext, chunks: the hook's refs; `ticking` is
        `timerIntervalRef.current !== null`, and `shareTrack` is the screen track whose
        `onended` handler calls stopRecording;
      - screenStream, userMedia: the getDisplayMedia stream and the getUserMedia answer. The
        hook as written keeps them only in local variables of startRecording; the corrected
        cleanup needs a reference to each, so the model keeps them;
      - live: capture tracks not yet stopped; openContexts: audio contexts not yet closed;
        nextContext: the identity the next `new AudioContext()` gets. */
  datatype Session = Session(
    status: Status,
    countdown: int,
    timer: nat,
    fileSize: nat,
    mediaUrl: Option<Blob>,
    webcamStream: Option<MediaStream>,
    recorder: Option<MediaRecorder>,
    stream: Option<MediaStream>,
    audioContext: Option<nat>,
    chunks: seq<Chunk>,
    ticking: bool,
    shareTrack: Option<Track>,
    screenStream: Option<MediaStream>,
    userMedia: Option<MediaStream>,
    live: set<Track>,
    openContexts: set<nat>,
    nextContext: nat)

  /** The state of a freshly mounted hook: idle, and it satisfies the invariant of the calls
      the view offers. */
  function Initial(): (r: Session)
    ensures Consistent(r) && r.status == Idle && r.live == {}
  {
    Session(Idle, 3, 0, 0, None, None, None, None, None, [], false, None, None, None, {}, {}, 0)
  }

  predicate RecorderRecording(s: Session) {
    s.recorder.Some? && s.recorder.value.state == Capturing
  }

  predicate StopPending(s: Session) {
    s.recorder.Some? && s.recorder.value.stopPending
  }

  /** The current MediaRecorder can still deliver a stop event. */
  predicate RecorderLive(s: Session) {
    s.recorder.Some? && (s.recorder.value.state != Inactive || s.recorder.value.stopPending)
  }

  /** What every state reached by any order of calls and callbacks satisfies. */
  predicate Inv(s: Session) {
    // the one-second interval runs only while the MediaRecorder is recording, and it runs
    // whenever the session shows recording with a recording MediaRecorder
    && (s.ticking ==> RecorderRecording(s))
    && (s.status == Recording && RecorderRecording(s) ==> s.ticking)
    // no interval while paused, and the shown status agrees with a live MediaRecorder
    && (s.status == Paused ==> !s.ticking && !RecorderRecording(s))
    && (s.status == Recording ==> !(s.recorder.Some? && s.recorder.value.state == Suspended))
    // a stop event is only awaited from a stopped MediaRecorder
    && (StopPending(s) ==> s.recorder.value.state == Inactive)
    && (s.status == Preview ==> s.mediaUrl.Some?)
    // every audio context was created before the next one
    && (s.audioContext.Some? ==> s.audioContext.value < s.nextContext)
    && (forall c :: c in s.openContexts ==> c < s.nextContext)
  }

  /** The capture tracks the hook can reach through a reference it holds. */
  function Held(s: Session): set<Track> {
    TracksOf(s.stream) + TracksOf(s.webcamStream) + TracksOf(s.screenStream) + TracksOf(s.userMedia)
  }

  /** The hook holds no stream reference, so it holds no track. */
  predicate NoStreams(s: Session) {
    s.stream.None? && s.webcamStream.None? && s.screenStream.None? && s.userMedia.None?
  }

  /** Every capture track still live is reachable through a reference, so cleanup can stop it. */
  predicate LiveHeld(s: Session) {
    s.live <= Held(s)
  }

  /** Every audio context still open is the one the hook references, so cleanup can close it. */
  predicate ContextHeld(s: Session) {
    s.openContexts <= (if s.audioContext.Some? then {s.audioContext.value} else {})
  }

  /** What every state reached by the calls the view offers satisfies (reset only from the
      preview, start only when idle): besides Inv, an idle or previewing session has no
      MediaRecorder left that could still stop, no capture track live and no audio context
      open, every live track and every open context is held by a reference, and from the start of a recording on the byte counter equals the size
      of the buffered chunks. */
  predicate Consistent(s: Session) {
    && Inv(s)
    && (s.status == Idle || s.status == Preview ==> !RecorderLive(s) && s.live == {} && s.openContexts == {})
    && LiveHeld(s)
    && ContextHeld(s)
    && (s.status != Idle ==> s.fileSize == TotalSize(s.chunks))
  }

  /** The set of open contexts once the context referenced by `s` is closed, if it was open. */
  function CloseContext(s: Session): (r: set<nat>)
    ensures r == s.openContexts - (if s.audioContext.Some? then {s.audioContext.value} else {})
  {
    if s.audioContext.Some? && s.audioContext.value in s.openContexts
    then s.openContexts - {s.audioContext.value}
    else s.openContexts
  }

  /** cleanupStreams, as the hook writes it: stop the tracks of the recorded stream and of the
      webcam stream, drop both references, close the referenced audio context unless it is
      already closed, and drop that reference. A live track in neither stream, such as the
      microphone track that only feeds the mixer, stays live. */
  function ReclaimAsWritten(s: Session): (r: Session)
    ensures r.live <= s.live && r.stream.None? && r.webcamStream.None? && r.audioContext.None?
    ensures forall t :: t in TracksOf(s.stream) || t in TracksOf(s.webcamStream) ==> t !in r.live
    ensures forall t :: t in s.live && t !in TracksOf(s.stream) && t !in TracksOf(s.webcamStream) ==> t in r.live
    ensures r.openContexts == s.openContexts - (if s.audioContext.Some? then {s.audioContext.value} else {})
    ensures && r.screenStream == s.screenStream && r.userMedia == s.userMedia
            && r.status == s.status && r.recorder == s.recorder && r.chunks == s.chunks
            && r.nextContext == s.nextContext
  {
    s.(live := s.live - TracksOf(s.stream) - TracksOf(s.webcamStream),
       stream := None,
       webcamStream := None,
       openContexts := CloseContext(s),
       audioContext := None)
  }

  /** cleanupStreams as intended: besides the recorded stream and the webcam stream, stop the
      tracks of the screen stream and of the user-media answer, which hold the microphone and
      system-audio tracks that only feed the mixer, and drop those references too. Every track
      the hook holds is stopped (ReclaimStopsHeld); nothing but the references, the live tracks
      and the open contexts changes. */
  function Reclaim(s: Session): (r: Session)
    ensures NoStreams(r) && r.audioContext.None?
    ensures r.openContexts == s.openContexts - (if s.audioContext.Some? then {s.audioContext.value} else {})
    ensures && r.status == s.status && r.countdown == s.countdown && r.timer == s.timer
            && r.fileSize == s.fileSize && r.mediaUrl == s.mediaUrl && r.recorder == s.recorder
            && r.chunks == s.chunks && r.ticking == s.ticking && r.shareTrack == s.shareTrack
            && r.nextContext == s.nextContext
  {
    s.(live := s.live - Held(s),
       stream := None,
       webcamStream := None,
       screenStream := None,
       userMedia := None,
       openContexts := CloseContext(s),
       audioContext := None)
  }

  /** The corrected cleanup stops every track the hook holds and no other, so it leaves no
      track live exactly when every live track was held. */
  lemma ReclaimStopsHeld(s: Session)
    ensures Reclaim(s).live <= s.live
    ensures forall t :: t in Held(s) ==> t !in Reclaim(s).live
    ensures forall t :: t in s.live && t !in Held(s) ==> t in Reclaim(s).live
    ensures Reclaim(s).live == {} <==> LiveHeld(s)
    ensures Reclaim(s).openContexts == {} <==> ContextHeld(s)
  {
    var r := Reclaim(s);
    assert forall t :: t in s.live && t !in Held(s) ==> t in r.live;
  }

  /** Cleanup may run any number of times: a second run changes nothing. */
  lemma ReclaimIdempotent(s: Session)
    ensures Reclaim(Reclaim(s)) == Reclaim(s)
    ensures ReclaimAsWritten(ReclaimAsWritten(s)) == ReclaimAsWritten(s)
  {
  }

  // ---------------------------------------------------------------------------------------
  // Operations of the hook

  /** stopRecording: only a MediaRecorder that is not inactive is stopped; the interval is
      cleared with it, and the recorder's stop event becomes due. Whether a stop event is still
      to come does not change, the status changes only when that event arrives, and no capture
      is released here. */
  function StopRecording(s: Session): (r: Session)
    ensures RecorderLive(r) <==> RecorderLive(s)
    ensures s.recorder.Some? ==>
      r.recorder.Some? && r.recorder.value.state == Inactive && r.recorder.value.mimeType == s.recorder.value.mimeType
    ensures && r.status == s.status && r.chunks == s.chunks && r.fileSize == s.fileSize
            && r.timer == s.timer && r.live == s.live
  {
    if s.recorder.Some? && s.recorder.value.state != Inactive then
      s.(recorder := Some(s.recorder.value.(state := Inactive, stopPending := true)), ticking := false)
    else s
  }

  /** pauseRecording: acts only on a recording MediaRecorder; the elapsed time is kept. */
  function PauseRecording(s: Session): (r: Session)
    ensures r.timer == s.timer && r.chunks == s.chunks && r.fileSize == s.fileSize
  {
    if RecorderRecording(s) then
      s.(recorder := Some(s.recorder.value.(state := Suspended)), status := Paused, ticking := false)
    else s
  }

  /** resumeRecording: acts only on a paused MediaRecorder, and registers a new interval; the
      elapsed time is kept. */
  function ResumeRecording(s: Session): (r: Session)
    ensures r.timer == s.timer && r.chunks == s.chunks && r.fileSize == s.fileSize
  {
    if s.recorder.Some? && s.recorder.value.state == Suspended then
      s.(recorder := Some(s.recorder.value.(state := Capturing)), status := Recording, ticking := true)
    else s
  }

  /** reset: revoke the recording's URL, zero the counters, put the countdown back to 3, and
      clean up. It neither stops the MediaRecorder nor clears the interval, and the chunk buffer
      is left as it is; the next start empties it. */
  function Reset(s: Session): (r: Session)
    ensures r.status == Idle && r.mediaUrl.None?
    ensures r.recorder == s.recorder && r.ticking == s.ticking && r.chunks == s.chunks
  {
    Reclaim(s.(mediaUrl := None, status := Idle, timer := 0, fileSize := 0, countdown := 3))
  }

  /** Reset stops every capture track the hook holds and closes the context it references. */
  lemma ResetStopsHeld(s: Session)
    ensures Reset(s).live <= s.live && (LiveHeld(s) ==> Reset(s).live == {})
    ensures forall t :: t in Held(s) ==> t !in Reset(s).live
    ensures ContextHeld(s) ==> Reset(s).openContexts == {}
  {
    ReclaimStopsHeld(s.(mediaUrl := None, status := Idle, timer := 0, fileSize := 0, countdown := 3));
  }

  // ---------------------------------------------------------------------------------------
  // Callbacks

  /** One second passes: the interval callback runs if an interval is registered. */
  function OnTick(s: Session): Session {
    if s.ticking then s.(timer := s.timer + 1) else s
  }

  /** ondataavailable: a non-empty chunk is appended and its size added; an empty one is
      ignored. The chunks already buffered stay as they are, at most one is added, and the
      counter moves by exactly the bytes the buffer gains. */
  function OnData(s: Session, c: Chunk): (r: Session)
    ensures |s.chunks| <= |r.chunks| <= |s.chunks| + 1 && r.chunks[..|s.chunks|] == s.chunks
    ensures r.fileSize + TotalSize(s.chunks) == s.fileSize + TotalSize(r.chunks)
    ensures r.status == s.status && r.recorder == s.recorder && r.timer == s.timer
  {
    if |c| > 0 then
      TotalSizeAppend(s.chunks, [c]);
      assert TotalSize([c]) == |c| by {
        assert [c][..0] == [];
      }
      assert (s.chunks + [c])[..|s.chunks|] == s.chunks;
      s.(chunks := s.chunks + [c], fileSize := s.fileSize + |c|)
    else s
  }

  /** onstop, delivered once per stop() of the MediaRecorder: the chunks become one Blob of the
      recorder's container type, the session shows the preview, and everything is cleaned up.
      Afterwards no stop event is due; the Blob is as long as all chunks together. */
  function OnRecorderStop(s: Session): (r: Session)
    ensures !StopPending(r)
    ensures !StopPending(s) ==> r == s
    ensures StopPending(s) ==>
      && r.status == Preview && r.mediaUrl.Some?
      && |r.mediaUrl.value.data| == TotalSize(s.chunks)
      && r.mediaUrl.value.mimeType == s.recorder.value.mimeType
      && NoStreams(r)
  {
    if StopPending(s) then
      ConcatSize(s.chunks);
      Reclaim(s.(mediaUrl := Some(Blob(Concat(s.chunks), s.recorder.value.mimeType)),
                 status := Preview,
                 recorder := Some(s.recorder.value.(stopPending := false))))
    else s
  }

  /** The stop event stops every capture track the hook holds and closes the context it
      references. */
  lemma RecorderStopStopsHeld(s: Session)
    ensures OnRecorderStop(s).live <= s.live
    ensures StopPending(s) && LiveHeld(s) ==> OnRecorderStop(s).live == {}
    ensures StopPending(s) && ContextHeld(s) ==> OnRecorderStop(s).openContexts == {}
  {
    if StopPending(s) {
      ReclaimStopsHeld(s.(mediaUrl := Some(Blob(Concat(s.chunks), s.recorder.value.mimeType)),
                          status := Preview,
                          recorder := Some(s.recorder.value.(stopPending := false))));
    }
  }

  /** The user stops sharing the screen: the platform ends the shared track, whose onended
      handler calls stopRecording. A track the hook stopped itself never fires it. Afterwards
      the shared track is no longer live; no other track changes. */
  function OnShareEnded(s: Session): (r: Session)
    ensures s.shareTrack.Some? ==> s.shareTrack.value !in r.live
    ensures r.live == s.live || (s.shareTrack.Some? && r.live == s.live - {s.shareTrack.value})
    ensures r.status == s.status && r.chunks == s.chunks && Held(r) == Held(s)
    ensures RecorderLive(r) <==> RecorderLive(s)
  {
    if s.shareTrack.Some? && s.shareTrack.value in s.live
    then StopRecording(s.(live := s.live - {s.shareTrack.value}))
    else s
  }

  // ---------------------------------------------------------------------------------------
  // startRecording

  /** The tracks a user-media answer adds to the live captures: none unless the request is
      made and granted, and only tracks of the granted stream. */
  function UserTracks(settings: Settings, user: Grant): (r: set<Track>)
    ensures UserMediaConstraints(settings).None? || user.Denied? ==> r == {}
    ensures forall t :: t in r ==> user.Granted? && t in user.stream.tracks
  {
    if UserMediaConstraints(settings).Some? && user.Granted? then TracksIn(user.stream) else {}
  }

  /** startRecording up to the moment the recorded stream is stored in `streamRef`: the screen
      and user media are live and referenced, the webcam stream is published, a mixer context is
      created when audio is wanted, and the final stream is built. One context is created per
      recording with audio; status, buffer and MediaRecorder are not touched yet. */
  function Acquire(s: Session, settings: Settings, screen: MediaStream, user: Grant): (r: Session)
    ensures r.nextContext == s.nextContext + (if settings.audio == NoAudio then 0 else 1)
    ensures && r.status == s.status && r.chunks == s.chunks && r.fileSize == s.fileSize
            && r.recorder == s.recorder && r.ticking == s.ticking
  {
    var mixing := settings.audio != NoAudio;
    var ctx := s.nextContext;
    s.(live := s.live + TracksIn(screen) + UserTracks(settings, user),
       screenStream := Some(screen),
       userMedia := if UserMediaConstraints(settings).Some? && user.Granted? then Some(user.stream) else s.userMedia,
       webcamStream := SplitUserMedia(settings, user, s.webcamStream).webcam,
       audioContext := if mixing then Some(ctx) else s.audioContext,
       openContexts := if mixing then s.openContexts + {ctx} else s.openContexts,
       nextContext := if mixing then ctx + 1 else ctx,
       stream := Some(FinalStream(screen, MixedAudio(settings, ctx))))
  }

  /** Every capture acquired is live and held by a reference: from a session with no live
      capture, every live capture is held afterwards. */
  lemma AcquireHoldsCaptures(s: Session, settings: Settings, screen: MediaStream, user: Grant)
    ensures forall t :: t in screen.tracks ==> t in Acquire(s, settings, screen, user).live
    ensures forall t :: t in UserTracks(settings, user) ==> t in Acquire(s, settings, screen, user).live
    ensures s.live == {} ==> LiveHeld(Acquire(s, settings, screen, user))
    ensures s.openContexts == {} ==> ContextHeld(Acquire(s, settings, screen, user))
  {
  }

  /** The state after the countdown: the shared track carries the stop handler, the countdown
      shows its last value, and the chunk buffer and both counters start from zero. The stop
      handler sits on a video track of the screen; no capture changes. */
  function CountedDown(a: Session, screen: MediaStream): (r: Session)
    requires VideoTracks(screen) != []
    ensures r.shareTrack.Some? && r.shareTrack.value in screen.tracks && r.shareTrack.value.kind == Video
    ensures r.fileSize == TotalSize(r.chunks) == 0 && r.timer == 0 && r.status == Countdown
    ensures r.live == a.live && Held(r) == Held(a) && r.recorder == a.recorder
  {
    assert VideoTracks(screen)[0] in VideoTracks(screen);
    a.(shareTrack := Some(VideoTracks(screen)[0]), status := Countdown, countdown := 1,
       chunks := [], fileSize := 0, timer := 0)
  }

  /** startRecording from the countdown on, once the recorded stream is stored: the countdown,
      the zeroed buffer and counters, the container type, and the MediaRecorder, which the
      platform refuses to create for an unsupported type (the catch block: idle and cleanup).
      It records exactly when the chosen type is supported, and otherwise holds no reference. */
  function Launch(a: Session, screen: MediaStream, supported: string -> bool): (r: Session)
    requires VideoTracks(screen) != []
    ensures r.status == Recording <==> supported(SelectMimeType(supported))
    ensures r.status == Recording ==>
      && RecorderRecording(r) && r.ticking && r.recorder.value.mimeType == SelectMimeType(supported)
      && r.chunks == [] && r.fileSize == 0 && r.timer == 0
    ensures r.status != Recording ==> r.status == Idle && NoStreams(r) && r.recorder == a.recorder
  {
    var c := CountedDown(a, screen);
    var mime := SelectMimeType(supported);
    if !supported(mime) then Reclaim(c.(status := Idle))
    else c.(recorder := Some(MediaRecorder(Capturing, mime, false)), status := Recording, ticking := true)
  }

  /** startRecording, given the answers of the browser: `display` to getDisplayMedia, `user` to
      getUserMedia (consulted only if that request is made) and `supported` for
      MediaRecorder.isTypeSupported. A refused screen, a screen without video track and a
      refused container type each end in the catch block: status idle and cleanup. So it
      records exactly when all three succeed; a failed start holds no reference and leaves the
      previous MediaRecorder as it was. */
  function StartRecording(s: Session, settings: Settings, display: Grant, user: Grant,
                          supported: string -> bool): (r: Session)
    ensures r.status == Recording <==>
      display.Granted? && VideoTracks(display.stream) != [] && supported(SelectMimeType(supported))
    ensures r.status != Recording ==> r.status == Idle && NoStreams(r) && r.recorder == s.recorder
  {
    match display
    case Denied => Reclaim(s.(status := Idle))
    case Granted(screen) =>
      var a := Acquire(s, settings, screen, user);
      if VideoTracks(screen) == [] then Reclaim(a.(status := Idle))
      else Launch(a, screen, supported)
  }

  /** Launch keeps every live capture and open context held, and when it aborts it leaves none
      live and none open. */
  lemma LaunchHoldsCaptures(a: Session, screen: MediaStream, supported: string -> bool)
    requires VideoTracks(screen) != []
    ensures LiveHeld(a) ==> LiveHeld(Launch(a, screen, supported))
    ensures LiveHeld(a) && Launch(a, screen, supported).status == Idle ==> Launch(a, screen, supported).live == {}
    ensures ContextHeld(a) ==> ContextHeld(Launch(a, screen, supported))
    ensures ContextHeld(a) && Launch(a, screen, supported).status == Idle ==> Launch(a, screen, supported).openContexts == {}
  {
    ReclaimStopsHeld(CountedDown(a, screen).(status := Idle));
  }

  /** A start from a session with no live capture and no open context holds every capture and
      context it leaves live or open, and a failed start leaves none. */
  lemma StartHoldsCaptures(s: Session, settings: Settings, display: Grant, user: Grant,
                           supported: string -> bool)
    requires s.live == {} && s.openContexts == {}
    ensures var r := StartRecording(s, settings, display, user, supported);
      LiveHeld(r) && (r.status == Idle ==> r.live == {})
    ensures var r := StartRecording(s, settings, display, user, supported);
      ContextHeld(r) && (r.status == Idle ==> r.openContexts == {})
  {
    match display
    case Denied => ReclaimStopsHeld(s.(status := Idle));
    case Granted(screen) =>
      var a := Acquire(s, settings, screen, user);
      AcquireHoldsCaptures(s, settings, screen, user);
      if VideoTracks(screen) == [] {
        ReclaimStopsHeld(a.(status := Idle));
      } else {
        LaunchHoldsCaptures(a, screen, supported);
      }
  }

  // ---------------------------------------------------------------------------------------
  // Events

  /** The calls the view makes and the callbacks the browser delivers after start. */
  datatype Event =
    | Tick
    | DataAvailable(chunk: Chunk)
    | RecorderStop
    | ShareEnded
    | CallStop
    | CallPause
    | CallResume
    | CallReset

  /** No call after the start and no callback acquires a capture track, creates an audio
      context or loses track of a live capture or an open context. */
  function Step(s: Session, e: Event): (r: Session)
    ensures r.live <= s.live && r.openContexts <= s.openContexts && r.nextContext == s.nextContext
    ensures LiveHeld(s) ==> LiveHeld(r)
    ensures ContextHeld(s) ==> ContextHeld(r)
  {
    match e
    case Tick => OnTick(s)
    case DataAvailable(c) => OnData(s, c)
    case RecorderStop => RecorderStopStopsHeld(s); OnRecorderStop(s)
    case ShareEnded => OnShareEnded(s)
    case CallStop => StopRecording(s)
    case CallPause => PauseRecording(s)
    case CallResume => ResumeRecording(s)
    case CallReset => ResetStopsHeld(s); Reset(s)
  }

  /** The events of `evs` in order; over any run the live captures and the open contexts only
      shrink, and every live capture and open context stays held. */
  function Run(s: Session, evs: seq<Event>): (r: Session)
    ensures r.live <= s.live && r.openContexts <= s.openContexts && r.nextContext == s.nextContext
    ensures LiveHeld(s) ==> LiveHeld(r)
    ensures ContextHeld(s) ==> ContextHeld(r)
    decreases |evs|
  {
    if evs == [] then s else Run(Step(s, evs[0]), evs[1..])
  }
}
