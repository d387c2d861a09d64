/**
  The browser facilities the recorder hook drives, reduced to what the hook can observe:
  capture tracks and streams, the answer to a capture request, the state of the platform's
  MediaRecorder, and the Blob the recorded chunks are packed into.
 */
module Platform {

  import opened Wrappers

  datatype Kind = Audio | Video

  /** Where a track's samples come from: a capture device granted by the platform, or the
      destination node of the audio mixer built in a given audio context. */
  datatype Origin = Device(id: nat) | Mixer(context: nat)

  datatype Track = Track(origin: Origin, kind: Kind)

  datatype MediaStream = MediaStream(tracks: seq<Track>)

  /** The answer of getDisplayMedia / getUserMedia: access granted with a stream, or refused. */
  datatype Grant = Denied | Granted(stream: MediaStream)

  /** The tracks of `ts` of kind `k`, in their order (MediaStream.getAudioTracks / getVideoTracks). */
  function OfKind(ts: seq<Track>, k: Kind): (r: seq<Track>)
    ensures |r| <= |ts|
    ensures forall t :: t in r <==> t in ts && t.kind == k
  {
    if ts == [] then []
    else if ts[0].kind == k then [ts[0]] + OfKind(ts[1..], k)
    else OfKind(ts[1..], k)
  }

  lemma {:induction false} OfKindAppend(a: seq<Track>, b: seq<Track>, k: Kind)
    ensures OfKind(a + b, k) == OfKind(a, k) + OfKind(b, k)
  {
    if a == [] {
      assert a + b == b;
    } else {
      assert (a + b)[1..] == a[1..] + b;
      OfKindAppend(a[1..], b, k);
    }
  }

  /** Filtering for a kind that every track already has keeps the sequence as it is. */
  lemma {:induction false} OfKindAll(ts: seq<Track>, k: Kind)
    requires forall i :: 0 <= i < |ts| ==> ts[i].kind == k
    ensures OfKind(ts, k) == ts
  {
    if ts != [] {
      OfKindAll(ts[1..], k);
    }
  }

  /** Filtering for a kind that no track has leaves nothing. */
  lemma {:induction false} OfKindNone(ts: seq<Track>, k: Kind)
    requires forall i :: 0 <= i < |ts| ==> ts[i].kind != k
    ensures OfKind(ts, k) == []
  {
    if ts != [] {
      OfKindNone(ts[1..], k);
    }
  }

  function VideoTracks(s: MediaStream): seq<Track> {
    OfKind(s.tracks, Video)
  }

  function AudioTracks(s: MediaStream): seq<Track> {
    OfKind(s.tracks, Audio)
  }

  /** The tracks of a stream, as a set (MediaStream.getTracks). */
  function TracksIn(m: MediaStream): (r: set<Track>)
    ensures forall t :: t in r <==> t in m.tracks
  {
    set t | t in m.tracks
  }

  /** The tracks a nullable stream reference holds. */
  function TracksOf(s: Option<MediaStream>): (r: set<Track>)
    ensures s.None? ==> r == {}
    ensures s.Some? ==> r == TracksIn(s.value)
  {
    if s.None? then {} else TracksIn(s.value)
  }

  /** MediaRecorder.state. */
  datatype RecorderState = Inactive | Capturing | Suspended

  /** What the hook can observe of one platform MediaRecorder: its state, the container type it
      was created with, and whether a stop() has been requested whose stop event is still to come. */
  datatype MediaRecorder = MediaRecorder(state: RecorderState, mimeType: string, stopPending: bool)

  newtype byte = x: int | 0 <= x < 256

  /** The data of one dataavailable event. */
  type Chunk = seq<byte>

  /** A Blob: the bytes of its parts, concatenated, tagged with a media type. */
  datatype Blob = Blob(data: seq<byte>, mimeType: string)

  function Concat(parts: seq<Chunk>): seq<byte> {
    if parts == [] then [] else Concat(parts[..|parts| - 1]) + parts[|parts| - 1]
  }

  /** The sum of the sizes of the parts. */
  function TotalSize(parts: seq<Chunk>): nat {
    if parts == [] then 0 else TotalSize(parts[..|parts| - 1]) + |parts[|parts| - 1]|
  }

  /** The Blob of a sequence of parts is exactly as long as the sum of the part sizes. */
  lemma {:induction false} ConcatSize(parts: seq<Chunk>)
    ensures |Concat(parts)| == TotalSize(parts)
  {
    if parts != [] {
      ConcatSize(parts[..|parts| - 1]);
    }
  }

  lemma {:induction false} TotalSizeAppend(a: seq<Chunk>, b: seq<Chunk>)
    ensures TotalSize(a + b) == TotalSize(a) + TotalSize(b)
  {
    if b != [] {
      assert (a + b)[..|a + b| - 1] == a + b[..|b| - 1];
      TotalSizeAppend(a, b[..|b| - 1]);
    } else {
      assert a + b == a;
    }
  }

  /** Appending one part appends its bytes at the end: chunk order is byte order. */
  lemma ConcatSnoc(parts: seq<Chunk>, c: Chunk)
    ensures Concat(parts + [c]) == Concat(parts) + c
  {
    assert (parts + [c])[..|parts|] == parts;
  }
}
