/**
  The pure decisions made while a recording starts: which capture requests follow from the
  settings, how a user-media answer is split into webcam and microphone streams, which tracks
  feed the audio mixer, which tracks make up the stream handed to the MediaRecorder, and which
  container type is asked for.
 */
module Capture {

  import opened Wrappers
  import opened Platform

  datatype Quality = Q720p | Q1080p

  datatype AudioSource = NoAudio | Mic | System | Both

  /** RecorderSettings: fixed for one recording. */
  datatype Settings = Settings(quality: Quality, audio: AudioSource, webcam: bool)

  datatype Dimensions = Dimensions(width: nat, height: nat)

  /** The constraints passed to getDisplayMedia. */
  datatype DisplayRequest = DisplayRequest(video: Dimensions, audio: bool)

  /** The constraints passed to getUserMedia; `video == None` stands for `video: false`. */
  datatype UserRequest = UserRequest(audio: bool, video: Option<Dimensions>)

  predicate WantsSystemAudio(a: AudioSource) {
    a == System || a == Both
  }

  predicate WantsMic(a: AudioSource) {
    a == Mic || a == Both
  }

  /** The ideal size of the webcam picture. */
  const WebcamSize := Dimensions(320, 240)

  /** The screen is captured at the quality's line count in a 16:9 frame, with system audio
      exactly when the settings ask for system or both. */
  function DisplayConstraints(s: Settings): (r: DisplayRequest)
    ensures r.video.height == (if s.quality == Q1080p then 1080 else 720)
    ensures r.video.width * 9 == r.video.height * 16
    ensures r.audio <==> s.audio in {System, Both}
  {
    DisplayRequest(
      if s.quality == Q1080p then Dimensions(1920, 1080) else Dimensions(1280, 720),
      WantsSystemAudio(s.audio))
  }

  /** getUserMedia is called only when a microphone or the webcam is wanted; the request then
      asks for audio exactly for mic/both and for video exactly for the webcam, so it never asks
      for nothing. */
  function UserMediaConstraints(s: Settings): (r: Option<UserRequest>)
    ensures r.Some? <==> s.audio in {Mic, Both} || s.webcam
    ensures r.Some? ==> (r.value.audio <==> s.audio in {Mic, Both})
    ensures r.Some? ==> (r.value.video.Some? <==> s.webcam)
    ensures r.Some? && r.value.video.Some? ==> r.value.video.value == Dimensions(320, 240)
    ensures r.Some? ==> r.value.audio || r.value.video.Some?
  {
    if WantsMic(s.audio) || s.webcam then
      Some(UserRequest(WantsMic(s.audio), if s.webcam then Some(WebcamSize) else None))
    else
      None
  }

  /** The webcam stream (published to the view) and the microphone stream obtained from the
      getUserMedia answer; `previousWebcam` is the webcam reference the hook held before. */
  datatype UserStreams = UserStreams(webcam: Option<MediaStream>, mic: Option<MediaStream>)

  /** A refused or absent user-media request is not fatal: it leaves no microphone and the
      webcam reference as it was. A granted one yields the video tracks as webcam stream when
      the webcam is on, and the audio tracks as microphone stream when a microphone is wanted.
      So there is a microphone exactly when one was asked for and granted, it carries exactly
      the answer's audio tracks, and the webcam reference changes only to a stream of exactly
      the answer's video tracks. */
  function SplitUserMedia(s: Settings, answer: Grant, previousWebcam: Option<MediaStream>): (r: UserStreams)
    ensures r.mic.Some? <==> UserMediaConstraints(s).Some? && answer.Granted? && WantsMic(s.audio)
    ensures r.mic.Some? ==>
      answer.Granted? && forall t :: t in r.mic.value.tracks <==> t in answer.stream.tracks && t.kind == Audio
    ensures r.webcam != previousWebcam ==> s.webcam && answer.Granted?
    ensures s.webcam && answer.Granted? ==>
      r.webcam.Some? && forall t :: t in r.webcam.value.tracks <==> t in answer.stream.tracks && t.kind == Video
  {
    if UserMediaConstraints(s).None? then UserStreams(previousWebcam, None)
    else match answer
      case Denied => UserStreams(previousWebcam, None)
      case Granted(u) =>
        UserStreams(
          if s.webcam then Some(MediaStream(VideoTracks(u))) else previousWebcam,
          if WantsMic(s.audio) then Some(MediaStream(AudioTracks(u))) else None)
  }

  /** The first audio track of a stream, if it has one. */
  function FirstAudio(s: MediaStream): (r: seq<Track>)
    ensures |r| == (if |AudioTracks(s)| > 0 then 1 else 0)
    ensures |r| == 1 ==> r[0] == AudioTracks(s)[0] && r[0].kind == Audio
  {
    var a := AudioTracks(s);
    if |a| > 0 then [a[0]] else []
  }

  /** The tracks connected as sources to the mixer's destination node: the screen's first
      audio track, if any, then the microphone's first audio track, if any. */
  function MixerInputs(screen: MediaStream, mic: Option<MediaStream>): (r: seq<Track>)
  {
    FirstAudio(screen) + (if mic.Some? then FirstAudio(mic.value) else [])
  }

  lemma MixerInputCount(screen: MediaStream, mic: Option<MediaStream>)
    ensures |MixerInputs(screen, mic)| ==
      (if |AudioTracks(screen)| > 0 then 1 else 0) +
      (if mic.Some? && |AudioTracks(mic.value)| > 0 then 1 else 0)
    ensures forall t :: t in MixerInputs(screen, mic) ==> t.kind == Audio
    ensures |AudioTracks(screen)| > 0 ==> MixerInputs(screen, mic)[0] == AudioTracks(screen)[0]
  {
  }

  /** The audio tracks the hook takes from the mixer: none when audio is off, else the one
      track of the destination node of the mixer built in audio context `ctx`. */
  function MixedAudio(s: Settings, ctx: nat): (r: seq<Track>)
    ensures |r| <= 1 && (r == [] <==> s.audio == NoAudio)
    ensures forall t :: t in r ==> t.kind == Audio && t.origin == Mixer(ctx)
  {
    if s.audio == NoAudio then [] else [Track(Mixer(ctx), Audio)]
  }

  /** The stream handed to the MediaRecorder. */
  function FinalStream(screen: MediaStream, mixed: seq<Track>): MediaStream {
    MediaStream(VideoTracks(screen) + mixed)
  }

  /** The final stream carries exactly the screen's video tracks, in order, followed by the
      mixer output; it has no audio track at all when audio is off, and exactly one (the
      mixer's, never a device track) otherwise, however many sources feed the mixer. */
  lemma {:induction false} FinalStreamTracks(s: Settings, screen: MediaStream, ctx: nat)
    ensures VideoTracks(FinalStream(screen, MixedAudio(s, ctx))) == VideoTracks(screen)
    ensures AudioTracks(FinalStream(screen, MixedAudio(s, ctx))) ==
      (if s.audio == NoAudio then [] else [Track(Mixer(ctx), Audio)])
    ensures forall t :: t in FinalStream(screen, MixedAudio(s, ctx)).tracks && t.kind == Audio ==>
      t.origin == Mixer(ctx)
  {
    var v, m := VideoTracks(screen), MixedAudio(s, ctx);
    OfKindAppend(v, m, Video);
    OfKindAppend(v, m, Audio);
    OfKindAll(OfKind(screen.tracks, Video), Video);
    OfKindNone(OfKind(screen.tracks, Video), Audio);
    OfKindNone(m, Video);
    OfKindAll(m, Audio);
  }

  /** The container types tried in order, and the type used when none of them is supported. */
  const Preferred: seq<string> := ["video/mp4", "video/webm; codecs=vp8", "video/webm"]
  const DefaultMime: string := "video/webm; codecs=vp9"

  /** The chain of isTypeSupported checks made before the MediaRecorder is created. */
  function SelectMimeType(supported: string -> bool): (m: string)
    ensures (exists i :: 0 <= i < |Preferred| && m == Preferred[i] && supported(m) &&
               forall j :: 0 <= j < i ==> !supported(Preferred[j])) ||
            (m == DefaultMime && forall j :: 0 <= j < |Preferred| ==> !supported(Preferred[j]))
  {
    assert Preferred[0] == "video/mp4" && Preferred[1] == "video/webm; codecs=vp8" && Preferred[2] == "video/webm";
    if supported("video/mp4") then "video/mp4"
    else if supported("video/webm; codecs=vp8") then "video/webm; codecs=vp8"
    else if supported("video/webm") then "video/webm"
    else DefaultMime
  }

  /** Reference definition: the first supported entry of a preference list, else a default.
      The result is a supported entry, or the default when no entry is supported. */
  function FirstSupported(prefs: seq<string>, supported: string -> bool, default: string): (r: string)
    ensures (r in prefs && supported(r)) || (r == default && forall p :: p in prefs ==> !supported(p))
  {
    if prefs == [] then default
    else if supported(prefs[0]) then prefs[0]
    else FirstSupported(prefs[1..], supported, default)
  }

  lemma SelectMimeTypeIsFirstSupported(supported: string -> bool)
    ensures SelectMimeType(supported) == FirstSupported(Preferred, supported, DefaultMime)
  {
    assert Preferred[1..][1..][1..] == [];
  }
}
