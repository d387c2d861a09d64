/**
  The page that drives the recorder: the minutes:seconds text of the elapsed time, and which
  panels, controls and overlays it shows for each status of the session.
 */
module App {

  import opened Wrappers
  import opened Capture
  import opened Session

  // ---------------------------------------------------------------------------------------
  // Decimal text of a number

  predicate IsDigit(c: char) {
    '0' <= c <= '9'
  }

  predicate IsDigits(t: string) {
    forall i :: 0 <= i < |t| ==> IsDigit(t[i])
  }

  function DigitChar(d: nat): (c: char)
    requires d < 10
    ensures IsDigit(c) && c as int - '0' as int == d
  {
    ('0' as int + d) as char
  }

  /** The value of a string of decimal digits, most significant first. */
  function ParseDigits(t: string): nat
    requires IsDigits(t)
  {
    if t == [] then 0 else ParseDigits(t[..|t| - 1]) * 10 + (t[|t| - 1] as int - '0' as int)
  }

  /** Number.prototype.toString for a non-negative integer: the shortest decimal text, which
      reads back as the number and has no leading zero. */
  function NatToString(n: nat): (r: string)
    ensures |r| >= 1 && IsDigits(r)
    ensures ParseDigits(r) == n
    ensures r[0] == '0' ==> n == 0
    ensures n < 10 ==> |r| == 1
    ensures 10 <= n < 100 ==> |r| == 2
    ensures n >= 100 ==> |r| >= 3
  {
    if n < 10 then [DigitChar(n)]
    else
      var r := NatToString(n / 10) + [DigitChar(n % 10)];
      assert r[..|r| - 1] == NatToString(n / 10);
      r
  }

  /** String.prototype.padStart with a one-character filler. */
  function PadStart(t: string, width: nat, fill: char): (r: string)
    ensures |r| == if |t| >= width then |t| else width
    ensures r[|r| - |t|..] == t
    ensures forall i :: 0 <= i < |r| - |t| ==> r[i] == fill
  {
    if |t| >= width then t else seq(width - |t|, _ => fill) + t
  }

  /** Leading zeros do not change the value of a digit string. */
  lemma {:induction false} LeadingZeros(z: string, t: string)
    requires forall i :: 0 <= i < |z| ==> z[i] == '0'
    requires IsDigits(t)
    ensures IsDigits(z + t) && ParseDigits(z + t) == ParseDigits(t)
    decreases |z| + |t|
  {
    assert IsDigits(z + t) by {
      forall i | 0 <= i < |z + t| ensures IsDigit((z + t)[i]) {
        if i >= |z| {
          assert (z + t)[i] == t[i - |z|];
        }
      }
    }
    if t == [] {
      assert z + t == z;
      if z != [] {
        LeadingZeros(z[..|z| - 1], []);
        assert z[..|z| - 1] + [] == z[..|z| - 1];
      }
    } else {
      assert (z + t)[..|z + t| - 1] == z + t[..|t| - 1];
      LeadingZeros(z, t[..|t| - 1]);
    }
  }

  /** The decimal text of n, left-padded with '0' to at least two characters. */
  function TwoDigits(n: nat): (r: string)
    ensures IsDigits(r) && ParseDigits(r) == n
    ensures n < 100 ==> |r| == 2
    ensures |r| >= 2
  {
    var d := NatToString(n);
    var r := PadStart(d, 2, '0');
    assert r == r[..|r| - |d|] + d;
    LeadingZeros(r[..|r| - |d|], d);
    r
  }

  // ---------------------------------------------------------------------------------------
  // formatTime

  /** formatTime: whole minutes and the remaining seconds, each at least two digits wide,
      joined by ':'. Reading the text back gives the elapsed seconds again. */
  function FormatTime(seconds: nat): (r: string)
    ensures ParseTime(r) == Some(seconds)
  {
    var m, sec := TwoDigits(seconds / 60), TwoDigits(seconds % 60);
    ReadsBackAs(m + ":" + sec, m, sec, seconds);
    m + ":" + sec
  }

  /** The position of the first ':' in t, or |t| if there is none. */
  function ColonIndex(t: string): (i: nat)
    ensures i <= |t|
    ensures i < |t| ==> t[i] == ':'
    ensures forall j :: 0 <= j < i ==> t[j] != ':'
  {
    if t == [] then 0 else if t[0] == ':' then 0 else 1 + ColonIndex(t[1..])
  }

  /** Reads "m:ss" text back as a number of seconds. */
  function ParseTime(t: string): Option<nat> {
    var i := ColonIndex(t);
    if i < |t| && IsDigits(t[..i]) && IsDigits(t[i + 1..])
    then Some(ParseDigits(t[..i]) * 60 + ParseDigits(t[i + 1..]))
    else None
  }

  /** Two digit strings joined by ':' read back as minutes and seconds. */
  lemma ParseJoined(t: string, m: string, sec: string)
    requires IsDigits(m) && IsDigits(sec) && t == m + ":" + sec
    ensures ParseTime(t) == Some(ParseDigits(m) * 60 + ParseDigits(sec))
  {
    ColonAfterDigits(m, sec);
    assert t[..|m|] == m;
    assert t[|m| + 1..] == sec;
  }

  lemma ColonAfterDigits(m: string, sec: string)
    requires IsDigits(m)
    ensures ColonIndex(m + ":" + sec) == |m|
  {
    var t := m + ":" + sec;
    assert t[|m|] == ':';
    assert forall j :: 0 <= j < |m| ==> t[j] == m[j] && t[j] != ':';
  }

  lemma ReadsBackAs(t: string, m: string, sec: string, seconds: nat)
    requires IsDigits(m) && IsDigits(sec) && t == m + ":" + sec
    requires ParseDigits(m) == seconds / 60 && ParseDigits(sec) == seconds % 60
    ensures ParseTime(t) == Some(seconds)
  {
    ParseJoined(t, m, sec);
  }

  /** Different elapsed times are shown as different texts. */
  lemma FormatTimeInjective(a: nat, b: nat)
    requires FormatTime(a) == FormatTime(b)
    ensures a == b
  {
    assert ParseTime(FormatTime(a)) == Some(a) && ParseTime(FormatTime(b)) == Some(b);
  }

  /** The text always ends in ':' and a seconds field from "00" to "59" that reads as the
      seconds past the minute. */
  lemma SecondsField(seconds: nat)
    ensures var t := FormatTime(seconds);
      && |t| >= 5 && t[|t| - 3] == ':'
      && '0' <= t[|t| - 2] <= '5' && IsDigit(t[|t| - 1])
      && IsDigits(t[|t| - 2..]) && ParseDigits(t[|t| - 2..]) == seconds % 60
  {
    var m, sec := TwoDigits(seconds / 60), TwoDigits(seconds % 60);
    TwoDigitsBelowSixty(seconds % 60);
    FormatTimeParts(seconds);
    JoinedFields(m, sec);
    var t := FormatTime(seconds);
    assert t == m + ":" + sec;
    assert |sec| == 2 && |t| == |m| + 3;
    assert t[|t| - 3] == ':';
    assert t[|t| - 2..] == sec;
    assert t[|t| - 2] == sec[0] && t[|t| - 1] == sec[1] && IsDigit(sec[1]);
  }

  /** The text is the minutes field, ':' and the seconds field. */
  lemma FormatTimeParts(seconds: nat)
    ensures FormatTime(seconds) == TwoDigits(seconds / 60) + ":" + TwoDigits(seconds % 60)
  {
  }

  /** Where the fields of "m:sec" sit. */
  lemma JoinedFields(m: string, sec: string)
    ensures var t := m + ":" + sec;
      && |t| == |m| + 1 + |sec| && t[|m|] == ':' && t[..|m|] == m && t[|m| + 1..] == sec
      && t[|t| - |sec|..] == sec
  {
  }

  /** A value below 60 is shown as two digits whose first is at most '5'. */
  lemma TwoDigitsBelowSixty(r: nat)
    requires r < 60
    ensures var sec := TwoDigits(r); |sec| == 2 && '0' <= sec[0] <= '5'
  {
    var sec := TwoDigits(r);
    assert sec[..1] == [sec[0]];
    assert ParseDigits(sec[..1]) == sec[0] as int - '0' as int by {
      assert [sec[0]][..0] == [];
    }
    assert ParseDigits(sec) == (sec[0] as int - '0' as int) * 10 + (sec[1] as int - '0' as int);
  }

  /** Under 100 minutes the text is exactly "mm:ss". */
  lemma ShortFormat(seconds: nat)
    requires seconds < 6000
    ensures var t := FormatTime(seconds);
      && |t| == 5 && t[2] == ':' && IsDigits(t[..2]) && IsDigits(t[3..])
      && ParseDigits(t[..2]) == seconds / 60 && ParseDigits(t[3..]) == seconds % 60
  {
    var m, sec := TwoDigits(seconds / 60), TwoDigits(seconds % 60);
    FormatTimeParts(seconds);
    JoinedFields(m, sec);
  }

  // ---------------------------------------------------------------------------------------
  // What the page shows

  /** The settings panel with the start button. */
  predicate ShowsConfiguration(status: Status) {
    status == Idle
  }

  /** The large countdown number. */
  predicate ShowsCountdown(status: Status) {
    status == Countdown
  }

  /** The elapsed time with the pause-or-resume and stop buttons, and the header indicator. */
  predicate ShowsSessionView(status: Status) {
    status == Recording || status == Paused
  }

  /** The player with the discard and save buttons. */
  predicate ShowsPreview(status: Status, hasUrl: bool) {
    status == Preview && hasUrl
  }

  /** The floating webcam picture. */
  predicate ShowsWebcamOverlay(status: Status, hasWebcam: bool) {
    hasWebcam && (status == Recording || status == Paused || status == Countdown)
  }

  datatype Control = StartButton | PauseButton | ResumeButton | StopButton | DiscardButton | SaveLink

  /** The controls on the page; in the session view the first button is pause while recording
      and resume otherwise. */
  function Controls(status: Status, hasUrl: bool): set<Control> {
    (if ShowsConfiguration(status) then {StartButton} else {}) +
    (if ShowsSessionView(status)
     then (if status == Recording then {PauseButton} else {ResumeButton}) + {StopButton}
     else {}) +
    (if ShowsPreview(status, hasUrl) then {DiscardButton, SaveLink} else {})
  }

  /** Which control each status offers. Pause and resume are never offered together, stop is
      never offered during the countdown, and discard only with a recording to preview. */
  lemma ControlsByStatus(status: Status, hasUrl: bool)
    ensures StartButton in Controls(status, hasUrl) <==> status == Idle
    ensures PauseButton in Controls(status, hasUrl) <==> status == Recording
    ensures ResumeButton in Controls(status, hasUrl) <==> status == Paused
    ensures StopButton in Controls(status, hasUrl) <==> status == Recording || status == Paused
    ensures DiscardButton in Controls(status, hasUrl) <==> status == Preview && hasUrl
    ensures SaveLink in Controls(status, hasUrl) <==> status == Preview && hasUrl
    ensures status == Countdown ==> Controls(status, hasUrl) == {}
  {
  }

  /** At most one main panel is on the page at a time, and each status but a preview without a
      URL shows one. */
  lemma OnePanelAtATime(status: Status, hasUrl: bool)
    ensures var shown := (if ShowsConfiguration(status) then 1 else 0) + (if ShowsCountdown(status) then 1 else 0) +
                         (if ShowsSessionView(status) then 1 else 0) + (if ShowsPreview(status, hasUrl) then 1 else 0);
      shown <= 1 && (shown == 0 <==> status == Preview && !hasUrl)
  {
  }

  // ---------------------------------------------------------------------------------------
  // The name of the saved file

  /** The save link as written: "capture-", the current time in milliseconds, and ".webm",
      whatever container the MediaRecorder was created with. */
  function DownloadNameAsWritten(now: nat): string {
    "capture-" + NatToString(now) + ".webm"
  }

  /** The file extension of a container type: MP4 for "video/mp4", WebM otherwise. */
  function Extension(mimeType: string): (r: string)
    ensures r == ".mp4" <==> |mimeType| >= 9 && mimeType[..9] == "video/mp4"
    ensures r == ".mp4" || r == ".webm"
  {
    if |mimeType| >= 9 && mimeType[..9] == "video/mp4" then ".mp4" else ".webm"
  }

  /** The save link with the extension of the recording's own container type. */
  function DownloadName(mimeType: string, now: nat): string {
    "capture-" + NatToString(now) + Extension(mimeType)
  }

  /** When the browser supports MP4, the recording is an MP4 Blob, yet the save link as
      written names it ".webm". */
  lemma DownloadNameAsWrittenMislabelsMp4(supported: string -> bool, now: nat)
    requires supported("video/mp4")
    ensures SelectMimeType(supported) == "video/mp4"
    ensures var name := DownloadNameAsWritten(now); name[|name| - 5..] == ".webm"
    ensures Extension(SelectMimeType(supported)) == ".mp4"
  {
    var name := DownloadNameAsWritten(now);
    assert name[|name| - 5..] == ".webm";
    assert "video/mp4"[..9] == "video/mp4";
  }

  /** The corrected name says MP4 exactly when the browser supports MP4, the container the hook
      tries first; otherwise the hook records WebM and the name says WebM. */
  lemma ExtensionOfChosenType(supported: string -> bool)
    ensures Extension(SelectMimeType(supported)) == ".mp4" <==> supported("video/mp4")
    ensures !supported("video/mp4") ==> Extension(SelectMimeType(supported)) == ".webm"
  {
    assert "video/mp4"[..9] == "video/mp4";
    assert "video/webm; codecs=vp8"[..9] != "video/mp4" by {
      assert "video/webm; codecs=vp8"[6] != "video/mp4"[6];
    }
    assert "video/webm"[..9] != "video/mp4" by {
      assert "video/webm"[6] != "video/mp4"[6];
    }
    assert DefaultMime[..9] != "video/mp4" by {
      assert DefaultMime[6] != "video/mp4"[6];
    }
  }

  /** The corrected name ends in the extension of the container the Blob holds, and reads back
      as the prefix, the timestamp and that extension. */
  lemma DownloadNameMatchesContainer(mimeType: string, now: nat)
    ensures var name := DownloadName(mimeType, now);
      var d := NatToString(now);
      && name[..8] == "capture-"
      && name[8..8 + |d|] == d && ParseDigits(d) == now
      && name[8 + |d|..] == Extension(mimeType)
      && (name[8 + |d|..] == ".mp4" <==> |mimeType| >= 9 && mimeType[..9] == "video/mp4")
  {
    var d := NatToString(now);
    var name := DownloadName(mimeType, now);
    assert name == "capture-" + d + Extension(mimeType);
    assert name[..8] == "capture-";
    assert name[8..8 + |d|] == d;
    assert name[8 + |d|..] == Extension(mimeType);
  }

  /** The name the save link offers in `s`, if the page shows one: the corrected name, whose
      extension is that of the recording on the page. */
  function SavedFileName(s: Session, now: nat): (r: Option<string>)
    ensures r.Some? <==> SaveLink in Controls(s.status, s.mediaUrl.Some?)
    ensures r.Some? ==> |r.value| > 4 && (r.value[|r.value| - 4..] == ".mp4" <==>
      |s.mediaUrl.value.mimeType| >= 9 && s.mediaUrl.value.mimeType[..9] == "video/mp4")
  {
    if ShowsPreview(s.status, s.mediaUrl.Some?) then
      var name := DownloadName(s.mediaUrl.value.mimeType, now);
      DownloadNameMatchesContainer(s.mediaUrl.value.mimeType, now);
      assert name[|name| - 4..] == ".mp4" <==> Extension(s.mediaUrl.value.mimeType) == ".mp4" by {
        if Extension(s.mediaUrl.value.mimeType) == ".webm" {
          assert name[|name| - 4..] == "webm";
        }
      }
      Some(name)
    else None
  }

  /** Whether the page lets event `e` happen in `s`: a call of the hook needs its control on
      the page; browser callbacks may come at any time. */
  predicate Offered(s: Session, e: Event) {
    var shown := Controls(s.status, s.mediaUrl.Some?);
    match e
    case CallStop => StopButton in shown
    case CallPause => PauseButton in shown
    case CallResume => ResumeButton in shown
    case CallReset => DiscardButton in shown
    case _ => true
  }
}
