/**
  The recorder hook as an object: React state and refs become fields, and each function the
  hook returns, and each callback it installs, becomes a method that updates them one step at a
  time in the hook's own order. Every method is specified by the transition function of the
  same name in module Session, so the properties proved there hold of the object.
 */
module Recorder {

  import opened Wrappers
  import opened Platform
  import opened Capture
  import opened S = Session
  import SessionProps

  class Recorder {
    // React state
    var status: Status
    var countdown: int
    var timer: nat
    var fileSize: nat
    var mediaUrl: Option<Blob>
    var webcamStream: Option<MediaStream>
    // refs
    var recorder: Option<MediaRecorder>
    var stream: Option<MediaStream>
    var audioContext: Option<nat>
    var chunks: seq<Chunk>
    var ticking: bool
    // the screen track whose onended handler stops the recording
    var shareTrack: Option<Track>
    // the screen stream and the getUserMedia answer, kept so that cleanup can stop them
    var screenStream: Option<MediaStream>
    var userMedia: Option<MediaStream>
    // what the platform holds for the hook: capture tracks not stopped, audio contexts not
    // closed, and the identity of the next audio context
    var live: set<Track>
    var openContexts: set<nat>
    var nextContext: nat

    /** The fields as one value of the session model. */
    ghost function Model(): Session
      reads this
    {
      Session(status, countdown, timer, fileSize, mediaUrl, webcamStream, recorder, stream,
              audioContext, chunks, ticking, shareTrack, screenStream, userMedia, live, openContexts,
              nextContext)
    }

    ghost predicate Valid()
      reads this
    {
      Inv(Model())
    }

    /** The hook as first rendered: idle, countdown at 3, nothing captured. */
    constructor ()
      ensures Model() == Initial() && Valid()
    {
      status, countdown, timer, fileSize := Idle, 3, 0, 0;
      mediaUrl, webcamStream := None, None;
      recorder, stream, audioContext := None, None, None;
      chunks, ticking, shareTrack := [], false, None;
      screenStream, userMedia := None, None;
      live, openContexts, nextContext := {}, {}, 0;
    }

    /** The part of cleanupStreams that stops tracks: for each stream reference, its tracks are
        stopped and the reference dropped. A missing reference holds no track. The hook as
        written does this for the recorded stream and the webcam stream; the correction adds the
        screen stream and the user-media answer. */
    method StopHeldTracks()
      modifies this`live, this`stream, this`webcamStream, this`screenStream, this`userMedia
      ensures live == old(live) - old(Held(Model()))
      ensures stream.None? && webcamStream.None? && screenStream.None? && userMedia.None?
    {
      live := live - TracksOf(stream);
      stream := None;
      live := live - TracksOf(webcamStream);
      webcamStream := None;
      live := live - TracksOf(screenStream);
      screenStream := None;
      live := live - TracksOf(userMedia);
      userMedia := None;
    }

    /** cleanupStreams, corrected (see Session.Reclaim): the held tracks are stopped, and the
        audio context is closed unless already closed, and its reference dropped. */
    method CleanupStreams()
      modifies this
      ensures Model() == Reclaim(old(Model()))
    {
      StopHeldTracks();
      if audioContext.Some? {
        if audioContext.value in openContexts {
          openContexts := openContexts - {audioContext.value};
        }
        audioContext := None;
      }
    }

    method StopRecording()
      requires Valid()
      modifies this
      ensures Model() == S.StopRecording(old(Model())) && Valid()
    {
      SessionProps.StopKeepsInv(Model());
      if recorder.Some? && recorder.value.state != Inactive {
        recorder := Some(recorder.value.(state := Inactive, stopPending := true));
        if ticking {
          ticking := false;
        }
      }
    }

    method PauseRecording()
      requires Valid()
      modifies this
      ensures Model() == S.PauseRecording(old(Model())) && Valid()
    {
      SessionProps.PauseKeepsInv(Model());
      if recorder.Some? && recorder.value.state == Capturing {
        recorder := Some(recorder.value.(state := Suspended));
        status := Paused;
        if ticking {
          ticking := false;
        }
      }
    }

    method ResumeRecording()
      requires Valid()
      modifies this
      ensures Model() == S.ResumeRecording(old(Model())) && Valid()
    {
      SessionProps.ResumeKeepsInv(Model());
      if recorder.Some? && recorder.value.state == Suspended {
        recorder := Some(recorder.value.(state := Capturing));
        status := Recording;
        ticking := true;
      }
    }

    method Reset()
      requires Valid()
      modifies this
      ensures Model() == S.Reset(old(Model())) && Valid()
    {
      SessionProps.ResetKeepsInv(Model());
      ghost var cleared := Model().(mediaUrl := None, status := Idle, timer := 0, fileSize := 0, countdown := 3);
      mediaUrl := None;
      status := Idle;
      timer := 0;
      fileSize := 0;
      countdown := 3;
      assert Model() == cleared;
      CleanupStreams();
    }

    /** The one-second interval fires. */
    method Tick()
      requires Valid()
      modifies this
      ensures Model() == OnTick(old(Model())) && Valid()
    {
      SessionProps.TickKeepsInv(Model());
      if ticking {
        timer := timer + 1;
      }
    }

    /** ondataavailable. */
    method DataAvailable(c: Chunk)
      requires Valid()
      modifies this
      ensures Model() == OnData(old(Model()), c) && Valid()
    {
      SessionProps.DataKeepsInv(Model(), c);
      if |c| > 0 {
        chunks := chunks + [c];
        fileSize := fileSize + |c|;
      }
    }

    /** onstop of the MediaRecorder. */
    method RecorderStopped()
      requires Valid()
      modifies this
      ensures Model() == OnRecorderStop(old(Model())) && Valid()
    {
      SessionProps.RecorderStopKeepsInv(Model());
      if recorder.Some? && recorder.value.stopPending {
        var blob := Blob(Concat(chunks), recorder.value.mimeType);
        ghost var shown := Model().(mediaUrl := Some(blob), status := Preview,
                                    recorder := Some(recorder.value.(stopPending := false)));
        mediaUrl := Some(blob);
        status := Preview;
        recorder := Some(recorder.value.(stopPending := false));
        assert Model() == shown;
        CleanupStreams();
      }
    }

    /** The user ends screen sharing: the shared track ends and its onended handler runs. */
    method ShareEnded()
      requires Valid()
      modifies this
      ensures Model() == OnShareEnded(old(Model())) && Valid()
    {
      SessionProps.ShareEndedKeepsInv(Model());
      if shareTrack.Some? && shareTrack.value in live {
        live := live - {shareTrack.value};
        StopRecording();
      }
    }

    /** getUserMedia, asked when a microphone or the webcam is wanted; a refusal is not
        fatal. The webcam stream is published and the microphone stream returned. */
    method RequestUserMedia(settings: Settings, user: Grant) returns (micStream: Option<MediaStream>)
      modifies this`live, this`userMedia, this`webcamStream
      ensures micStream == SplitUserMedia(settings, user, old(webcamStream)).mic
      ensures live == old(live) + UserTracks(settings, user)
      ensures userMedia == if UserMediaConstraints(settings).Some? && user.Granted?
                           then Some(user.stream) else old(userMedia)
      ensures webcamStream == SplitUserMedia(settings, user, old(webcamStream)).webcam
    {
      micStream := None;
      if UserMediaConstraints(settings).Some? && user.Granted? {
        var answer := user.stream;
        live := live + TracksIn(answer);
        userMedia := Some(answer);
        if settings.webcam {
          webcamStream := Some(MediaStream(VideoTracks(answer)));
        }
        if WantsMic(settings.audio) {
          micStream := Some(MediaStream(AudioTracks(answer)));
        }
      }
    }

    /** With audio on, a new audio context whose destination node mixes the first audio track
        of the screen and of the microphone (`sources`); its one output track is returned. */
    method BuildMixer(settings: Settings, screen: MediaStream, micStream: Option<MediaStream>)
      returns (audioTracks: seq<Track>, ghost sources: seq<Track>)
      modifies this`audioContext, this`openContexts, this`nextContext
      ensures audioTracks == MixedAudio(settings, old(nextContext))
      ensures sources == if settings.audio == NoAudio then [] else MixerInputs(screen, micStream)
      ensures audioContext == if settings.audio == NoAudio then old(audioContext) else Some(old(nextContext))
      ensures openContexts == if settings.audio == NoAudio then old(openContexts) else old(openContexts) + {old(nextContext)}
      ensures nextContext == if settings.audio == NoAudio then old(nextContext) else old(nextContext) + 1
    {
      audioTracks, sources := [], [];
      if settings.audio != NoAudio {
        var ctx := nextContext;
        nextContext := nextContext + 1;
        openContexts := openContexts + {ctx};
        audioContext := Some(ctx);
        sources := MixerInputs(screen, micStream);
        audioTracks := [Track(Mixer(ctx), Audio)];
      }
    }

    /** getDisplayMedia has answered: the screen's tracks are live and the stream is kept. */
    method TakeScreen(screen: MediaStream)
      modifies this`live, this`screenStream
      ensures live == old(live) + TracksIn(screen) && screenStream == Some(screen)
    {
      live := live + TracksIn(screen);
      screenStream := Some(screen);
    }

    /** The capture requests: the screen is kept and user media is requested; the microphone
        stream is returned. */
    method CaptureSources(settings: Settings, screen: MediaStream, user: Grant)
      returns (micStream: Option<MediaStream>)
      modifies this
      ensures micStream == SplitUserMedia(settings, user, old(webcamStream)).mic
      ensures Model() == old(Model()).(live := old(live) + TracksIn(screen) + UserTracks(settings, user),
                                       screenStream := Some(screen),
                                       userMedia := if UserMediaConstraints(settings).Some? && user.Granted?
                                                    then Some(user.stream) else old(userMedia),
                                       webcamStream := SplitUserMedia(settings, user, old(webcamStream)).webcam)
    {
      TakeScreen(screen);
      assert Model() == old(Model()).(live := old(live) + TracksIn(screen), screenStream := Some(screen));
      micStream := RequestUserMedia(settings, user);
    }

    /** The mixer is built and the recorded stream, the screen video followed by the mixer
        output, is stored in `streamRef`. */
    method StoreFinalStream(settings: Settings, screen: MediaStream, micStream: Option<MediaStream>)
      modifies this
      ensures var ctx := old(nextContext);
        var mixing := settings.audio != NoAudio;
        Model() == old(Model()).(audioContext := if mixing then Some(ctx) else old(audioContext),
                                 openContexts := if mixing then old(openContexts) + {ctx} else old(openContexts),
                                 nextContext := if mixing then ctx + 1 else ctx,
                                 stream := Some(FinalStream(screen, MixedAudio(settings, ctx))))
    {
      var audioTracks, sources := BuildMixer(settings, screen, micStream);
      stream := Some(MediaStream(VideoTracks(screen) + audioTracks));
    }

    /** startRecording up to storing the recorded stream in `streamRef`: the screen's tracks
        are live, user media is requested, the mixer is built, and the recorded stream is the
        screen video followed by the mixer output. */
    method AcquireStreams(settings: Settings, screen: MediaStream, user: Grant)
      modifies this
      ensures Model() == Acquire(old(Model()), settings, screen, user)
    {
      var micStream := CaptureSources(settings, screen, user);
      StoreFinalStream(settings, screen, micStream);
    }

    /** The countdown: 3, 2 and 1, one second each; `shown` lists the values shown. */
    method CountDown() returns (ghost shown: seq<int>)
      modifies this
      ensures shown == [3, 2, 1]
      ensures Model() == old(Model()).(countdown := 1)
    {
      shown := [];
      var i := 3;
      while i > 0
        invariant 0 <= i <= 3
        invariant shown == [3, 2, 1][..3 - i]
        invariant Model() == old(Model()).(countdown := if i == 3 then old(countdown) else i + 1)
      {
        countdown := i;
        shown := shown + [i];
        i := i - 1;
      }
    }

    /** The chain of isTypeSupported checks. */
    method ChooseMimeType(supported: string -> bool) returns (mimeType: string)
      ensures mimeType == FirstSupported(Preferred, supported, DefaultMime)
    {
      mimeType := "video/webm; codecs=vp9";
      if supported("video/mp4") {
        mimeType := "video/mp4";
      } else if supported("video/webm; codecs=vp8") {
        mimeType := "video/webm; codecs=vp8";
      } else if supported("video/webm") {
        mimeType := "video/webm";
      }
      SelectMimeTypeIsFirstSupported(supported);
    }

    /** new MediaRecorder and recorder.start: the platform refuses a container type it does
        not support, which ends in the catch block (idle and cleanup); otherwise the session
        records and the one-second interval runs. */
    method CreateRecorder(mimeType: string, supported: string -> bool)
      modifies this
      ensures !supported(mimeType) ==> Model() == Reclaim(old(Model()).(status := Idle))
      ensures supported(mimeType) ==>
        Model() == old(Model()).(recorder := Some(MediaRecorder(Capturing, mimeType, false)),
                                 status := Recording, ticking := true)
    {
      if !supported(mimeType) {
        status := Idle;
        CleanupStreams();
        return;
      }
      recorder := Some(MediaRecorder(Capturing, mimeType, false));
      status := Recording;
      ticking := true;
    }

    /** The shared track gets the stop handler and the countdown begins at 3. */
    method ArmCountdown(screen: MediaStream)
      requires VideoTracks(screen) != []
      modifies this
      ensures Model() == old(Model()).(shareTrack := Some(VideoTracks(screen)[0]), status := Countdown, countdown := 3)
    {
      shareTrack := Some(VideoTracks(screen)[0]);
      status, countdown := Countdown, 3;
    }

    /** The chunk buffer and both counters start from zero. */
    method ClearBuffer()
      modifies this
      ensures Model() == old(Model()).(chunks := [], fileSize := 0, timer := 0)
    {
      chunks, fileSize, timer := [], 0, 0;
    }

    /** The shared track gets the stop handler, the countdown runs, and the chunk buffer and
        both counters are zeroed. */
    method BeginCountdown(screen: MediaStream) returns (ghost shown: seq<int>)
      requires VideoTracks(screen) != []
      modifies this
      ensures Model() == CountedDown(old(Model()), screen)
      ensures shown == [3, 2, 1]
    {
      ArmCountdown(screen);
      shown := CountDown();
      ClearBuffer();
    }

    /** startRecording from the countdown on (see Session.Launch). */
    method Launch(screen: MediaStream, supported: string -> bool) returns (ghost shown: seq<int>)
      requires VideoTracks(screen) != []
      modifies this
      ensures Model() == S.Launch(old(Model()), screen, supported)
      ensures shown == [3, 2, 1]
    {
      shown := BeginCountdown(screen);
      var mimeType := ChooseMimeType(supported);
      SelectMimeTypeIsFirstSupported(supported);
      CreateRecorder(mimeType, supported);
    }

    /** startRecording, given the answers of the browser (see Session.StartRecording); `shown`
        lists the countdown values shown. */
    method StartRecording(settings: Settings, display: Grant, user: Grant, supported: string -> bool)
      returns (ghost shown: seq<int>)
      requires Valid()
      modifies this
      ensures Model() == S.StartRecording(old(Model()), settings, display, user, supported) && Valid()
      ensures display.Granted? && VideoTracks(display.stream) != [] ==> shown == [3, 2, 1]
      ensures display.Denied? || VideoTracks(display.stream) == [] ==> shown == []
    {
      SessionProps.StartKeepsInv(Model(), settings, display, user, supported);
      shown := [];
      if display.Denied? {
        status := Idle;
        CleanupStreams();
        return;
      }
      var screen := display.stream;
      AcquireStreams(settings, screen, user);
      // the onended handler goes on the first video track; without one this throws
      if VideoTracks(screen) == [] {
        status := Idle;
        CleanupStreams();
        return;
      }
      shown := Launch(screen, supported);
    }
  }
}
