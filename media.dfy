/** The platform's media entities as the recorder page sees them: live tracks, the streams that
    group them, the outcome of asking for a capture device, the composed track list, the choice
    of encoding profile and the recorder's start/stop state. */
module Media {
  import opened Base

  datatype Kind = Video | Audio

  /** A live capture channel. Stopping it releases the device for good. */
  class Track {
    const kind: Kind
    var live: bool

    constructor (kind: Kind)
      ensures this.kind == kind && live
    {
      this.kind := kind;
      live := true;
    }

    method Stop()
      modifies this
      ensures !live
    {
      live := false;
    }
  }

  /** A stream is the ordered list of tracks that `getTracks()` reports. */
  datatype MediaStream = MediaStream(tracks: seq<Track>)

  function TrackSet(s: MediaStream): set<Track> {
    set t | t in s.tracks
  }

  /** The error a rejected `getDisplayMedia`/`getUserMedia` promise carries. */
  datatype MediaError = MediaError(name: string, message: string)

  /** What asking the platform for one capture device gives back. */
  datatype Acquisition = Granted(stream: MediaStream) | Thrown(error: MediaError)

  /** The error name the platform uses when the user dismisses the screen picker. */
  const NotAllowedError: string := "NotAllowedError"

  function TracksOf(a: Acquisition): set<Track> {
    if a.Granted? then TrackSet(a.stream) else {}
  }

  /** `getVideoTracks()` / `getAudioTracks()`: the tracks of one kind, in stream order. */
  function OfKind(ts: seq<Track>, k: Kind): seq<Track> {
    if ts == [] then []
    else (if ts[0].kind == k then [ts[0]] else []) + OfKind(ts[1..], k)
  }

  /** Exactly the tracks of kind `k` are kept, and no more of them than there were tracks. */
  lemma {:induction false} OfKindMembers(ts: seq<Track>, k: Kind)
    ensures |OfKind(ts, k)| <= |ts|
    ensures forall i :: 0 <= i < |OfKind(ts, k)| ==> OfKind(ts, k)[i].kind == k
    ensures forall t :: t in OfKind(ts, k) ==> t in ts
    ensures forall t :: t in ts && t.kind == k ==> t in OfKind(ts, k)
  {
    if ts != [] {
      OfKindMembers(ts[1..], k);
      assert ts == [ts[0]] + ts[1..];
    }
  }

  /** `getTracks().forEach(t => t.stop())`. */
  method StopAll(s: MediaStream)
    modifies TrackSet(s)
    ensures forall t :: t in s.tracks ==> !t.live
    ensures forall t: Track :: old(allocated(t)) && !old(t.live) ==> !t.live
  {
    for i := 0 to |s.tracks|
      invariant forall j :: 0 <= j < i ==> !s.tracks[j].live
      invariant forall t: Track :: old(allocated(t)) && !old(t.live) ==> !t.live
    {
      s.tracks[i].Stop();
    }
  }

  /** The tracks handed to the encoder: the screen's video tracks followed by the microphone's
      audio tracks when a microphone stream is held. */
  function ComposeTracks(screen: MediaStream, mic: Option<MediaStream>): seq<Track> {
    OfKind(screen.tracks, Video) + if mic.Some? then OfKind(mic.value.tracks, Audio) else []
  }

  /** The composed list holds the screen's video tracks and the held microphone's audio tracks
      and nothing else (so never a camera track), with every video track before every audio
      track. */
  lemma ComposeTracksMembers(screen: MediaStream, mic: Option<MediaStream>)
    ensures forall t :: t in ComposeTracks(screen, mic) ==>
      (t in screen.tracks && t.kind == Video) || (mic.Some? && t in mic.value.tracks && t.kind == Audio)
    ensures forall t :: t in screen.tracks && t.kind == Video ==> t in ComposeTracks(screen, mic)
    ensures forall t :: mic.Some? && t in mic.value.tracks && t.kind == Audio ==> t in ComposeTracks(screen, mic)
    ensures var r := ComposeTracks(screen, mic);
      forall i, j :: 0 <= i < j < |r| && r[i].kind == Audio ==> r[j].kind == Audio
    ensures mic.None? ==> |ComposeTracks(screen, mic)| <= |screen.tracks|
  {
    OfKindMembers(screen.tracks, Video);
    if mic.Some? {
      OfKindMembers(mic.value.tracks, Audio);
    }
  }

  /** The encoding profiles tried, best first. */
  const MimePreferences: seq<string> :=
    ["video/webm;codecs=vp9,opus", "video/webm;codecs=vp8,opus", "video/webm"]

  /** Candidate `i` is accepted by the oracle and no earlier candidate is. */
  predicate FirstAccepted(candidates: seq<string>, isTypeSupported: string -> bool, i: nat) {
    i < |candidates| && isTypeSupported(candidates[i]) &&
    forall j :: 0 <= j < i ==> !isTypeSupported(candidates[j])
  }

  /** `Array.prototype.find`: the index of the first candidate the oracle accepts. */
  function FindSupported(candidates: seq<string>, isTypeSupported: string -> bool): Option<nat> {
    if candidates == [] then None
    else if isTypeSupported(candidates[0]) then Some(0)
    else match FindSupported(candidates[1..], isTypeSupported)
      case None => None
      case Some(k) => Some(k + 1)
  }

  /** The search finds the first accepted candidate, and finds none only when none is accepted. */
  lemma {:induction false} FindSupportedFirst(candidates: seq<string>, isTypeSupported: string -> bool)
    ensures var r := FindSupported(candidates, isTypeSupported);
      && (r.Some? ==> FirstAccepted(candidates, isTypeSupported, r.value))
      && (r.None? <==> forall j :: 0 <= j < |candidates| ==> !isTypeSupported(candidates[j]))
  {
    if candidates != [] && !isTypeSupported(candidates[0]) {
      FindSupportedFirst(candidates[1..], isTypeSupported);
      var r := FindSupported(candidates[1..], isTypeSupported);
      if r.Some? {
        forall j | 0 <= j < r.value + 1
          ensures !isTypeSupported(candidates[j])
        {
          if j > 0 {
            assert candidates[j] == candidates[1..][j - 1];
          }
        }
      } else {
        forall j | 0 <= j < |candidates|
          ensures !isTypeSupported(candidates[j])
        {
          if j > 0 {
            assert candidates[j] == candidates[1..][j - 1];
          }
        }
      }
    }
  }

  /** The MIME type the recorder is built with: the first supported preference, or `''`. */
  function ChooseMimeType(isTypeSupported: string -> bool): string {
    match FindSupported(MimePreferences, isTypeSupported)
    case None => ""
    case Some(i) => MimePreferences[i]
  }

  /** The chosen type is empty exactly when the oracle accepts no preference; otherwise it is
      the first preference the oracle accepts. */
  lemma ChooseMimeTypeFirst(isTypeSupported: string -> bool)
    ensures ChooseMimeType(isTypeSupported) == "" <==>
      forall j :: 0 <= j < |MimePreferences| ==> !isTypeSupported(MimePreferences[j])
    ensures ChooseMimeType(isTypeSupported) != "" ==>
      exists i: nat :: FirstAccepted(MimePreferences, isTypeSupported, i) && ChooseMimeType(isTypeSupported) == MimePreferences[i]
  {
    FindSupportedFirst(MimePreferences, isTypeSupported);
  }

  /** The options object handed to `new MediaRecorder`: empty when no MIME type was chosen. */
  datatype RecorderOptions = DefaultOptions | WithMimeType(mimeType: string)

  function OptionsFor(mimeType: string): RecorderOptions {
    if mimeType == "" then DefaultOptions else WithMimeType(mimeType)
  }

  /** The recorder is built with empty options exactly when the oracle accepts no preference;
      otherwise its options name the first preference the oracle accepts. */
  lemma OptionsForChoice(isTypeSupported: string -> bool)
    ensures OptionsFor(ChooseMimeType(isTypeSupported)).DefaultOptions? <==>
      forall j :: 0 <= j < |MimePreferences| ==> !isTypeSupported(MimePreferences[j])
    ensures var o := OptionsFor(ChooseMimeType(isTypeSupported));
      o.WithMimeType? ==> exists i: nat :: FirstAccepted(MimePreferences, isTypeSupported, i) && o.mimeType == MimePreferences[i]
  {
    ChooseMimeTypeFirst(isTypeSupported);
  }

  /** The recorder's `state`: `inactive` or `recording` (`Active`); the page never pauses. */
  datatype RecorderState = Inactive | Active

  /** Milliseconds between two fragment flushes, passed to `start`. */
  const FlushIntervalMs: nat := 1000

  /** A `MediaRecorder`: the tracks of the stream it encodes, its options, the flush interval
      it was started with and its state. */
  datatype MediaRecorder = MediaRecorder(tracks: seq<Track>, options: RecorderOptions, timeslice: nat, state: RecorderState)

  predicate IsActive(r: Option<MediaRecorder>) {
    r.Some? && r.value.state != Inactive
  }

  /** The stop guard: a recorder that exists and is not inactive is stopped; otherwise nothing
      happens. */
  function Deactivate(r: Option<MediaRecorder>): (r': Option<MediaRecorder>)
    ensures !IsActive(r')
    ensures r'.Some? <==> r.Some?
    ensures r.Some? ==> r'.value == r.value.(state := r'.value.state)
    ensures !IsActive(r) ==> r' == r
  {
    if IsActive(r) then Some(r.value.(state := Inactive)) else r
  }
}
