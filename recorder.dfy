/** The recorder page (extension/recorder.js): acquiring the capture sources, starting the
    encoder on the composed tracks, buffering its fragments, tearing everything down on stop,
    the session clock, and turning the upload answer into the next screen and a history entry.
    Devices, the network and the page are replaced by the outcomes they hand back. */
module Recorder {
  import opened Base
  import opened Text
  import opened Media
  import opened Store

  /** The page section on show (`showSection`). */
  datatype Section = IdleSection | RecordingSection | UploadingSection | DoneSection

  /** A capture device the start sequence asks the platform for. */
  datatype Device = Screen | Microphone | Camera

  /** The deployment settings the page reads (`CONFIG`). */
  datatype Config = Config(cloudName: string, uploadPreset: string, viewerBaseUrl: string)

  /** The upload answer: an error (a response carrying `error`, a failed request or an unreadable
      body) with its message, or the stored video's `public_id` and `secure_url`. */
  datatype UploadResponse = Rejected(message: string) | Uploaded(publicId: string, secureUrl: string)

  /** The multipart form posted to the upload endpoint. */
  datatype UploadForm = UploadForm(file: seq<byte>, fileName: string, fileType: string, uploadPreset: string)

  const ScreenFailurePrefix: string := "画面の共有に失敗しました: "
  const MicDeniedMessage: string := "マイクへのアクセスが拒否されました。マイクをOFFにして録画するか、ブラウザの設定を確認してください。"
  const UploadFailurePrefix: string := "アップロードに失敗しました: "
  const ClockReset: string := "00:00"

  // ---------------------------------------------------------------------------------------
  // Session clock

  /** The timer text for a counter value: minutes and seconds, each padded to two digits. */
  function ClockText(seconds: nat): string {
    Pad2(seconds / 60) + ":" + Pad2(seconds % 60)
  }

  /** The timer text is a minutes field, a colon and a two-digit seconds field; the fields read
      back as the counter's whole minutes and remaining seconds, and below 100 minutes the text
      is exactly `mm:ss`. */
  lemma ClockTextFields(seconds: nat)
    ensures var r := ClockText(seconds);
      && |r| >= 5 && r[|r| - 3] == ':'
      && (seconds < 6000 ==> |r| == 5)
      && AllDigits(r[..|r| - 3]) && ParseNat(r[..|r| - 3]) == seconds / 60
      && AllDigits(r[|r| - 2..]) && ParseNat(r[|r| - 2..]) == seconds % 60
  {
    var m := Pad2(seconds / 60);
    var s := Pad2(seconds % 60);
    var r := m + ":" + s;
    Pad2Value(seconds / 60);
    Pad2Value(seconds % 60);
    assert r[..|r| - 3] == m && r[|r| - 2..] == s;
  }

  /** Reads a timer text back into the counter it shows. */
  function ParseClock(text: string): Option<nat> {
    if |text| >= 3 && text[|text| - 3] == ':' && AllDigits(text[..|text| - 3]) && AllDigits(text[|text| - 2..])
    then Some(ParseNat(text[..|text| - 3]) * 60 + ParseNat(text[|text| - 2..]))
    else None
  }

  /** The timer text determines the counter: minutes times sixty plus seconds is the count. */
  lemma ParseClockText(seconds: nat)
    ensures ParseClock(ClockText(seconds)) == Some(seconds)
  {
    ClockTextFields(seconds);
  }

  /** The text written when the timer starts is the one the counter 0 renders to. */
  lemma ClockResetIsZero()
    ensures ClockText(0) == ClockReset
  {
    assert NatToString(0) == "0";
  }

  // ---------------------------------------------------------------------------------------
  // Fragment buffer and upload payload

  /** What one `dataavailable` event adds to the buffer: the fragment when it is non-empty. */
  function Kept(data: seq<byte>): seq<seq<byte>> {
    if |data| > 0 then [data] else []
  }

  /** The buffer after a series of fragment arrivals into an empty buffer. */
  function Buffered(arrivals: seq<seq<byte>>): (r: seq<seq<byte>>)
    ensures |r| <= |arrivals|
    ensures forall c :: c in r ==> |c| > 0
  {
    if arrivals == [] then [] else Buffered(arrivals[..|arrivals| - 1]) + Kept(arrivals[|arrivals| - 1])
  }

  /** `new Blob(chunks)`: the fragments joined in buffer order. */
  function Concat(chunks: seq<seq<byte>>): seq<byte> {
    if chunks == [] then [] else Concat(chunks[..|chunks| - 1]) + chunks[|chunks| - 1]
  }

  function TotalSize(chunks: seq<seq<byte>>): nat {
    if chunks == [] then 0 else TotalSize(chunks[..|chunks| - 1]) + |chunks[|chunks| - 1]|
  }

  /** The payload is as long as all buffered fragments together. */
  lemma {:induction false} ConcatSize(chunks: seq<seq<byte>>)
    ensures |Concat(chunks)| == TotalSize(chunks)
  {
    if chunks != [] {
      ConcatSize(chunks[..|chunks| - 1]);
    }
  }

  /** Joining two runs of fragments is joining their payloads. */
  lemma {:induction false} ConcatAppend(a: seq<seq<byte>>, b: seq<seq<byte>>)
    ensures Concat(a + b) == Concat(a) + Concat(b)
  {
    if b != [] {
      var ab := a + b;
      assert ab[..|ab| - 1] == a + b[..|b| - 1];
      ConcatAppend(a, b[..|b| - 1]);
    } else {
      assert a + b == a;
    }
  }

  /** Dropping empty fragments does not change the payload: it is the arrivals joined in order. */
  lemma {:induction false} BufferedPayload(arrivals: seq<seq<byte>>)
    ensures Concat(Buffered(arrivals)) == Concat(arrivals)
  {
    if arrivals != [] {
      var init, last := arrivals[..|arrivals| - 1], arrivals[|arrivals| - 1];
      BufferedPayload(init);
      ConcatAppend(Buffered(init), Kept(last));
      assert Concat([last]) == last by {
        assert [last][..0] == [];
      }
    }
  }

  // ---------------------------------------------------------------------------------------
  // Upload result and history entry

  const ThumbnailHost: string := "https://res.cloudinary.com/"
  const ThumbnailPath: string := "/video/upload/so_0/"
  const ThumbnailExt: string := ".jpg"

  /** The still at time zero of the uploaded video, addressed by its `public_id`. */
  function ThumbnailUrl(cloudName: string, publicId: string): (r: string)
    ensures |r| == |ThumbnailHost + cloudName + ThumbnailPath| + |publicId| + |ThumbnailExt|
    ensures r[..|ThumbnailHost + cloudName + ThumbnailPath|] == ThumbnailHost + cloudName + ThumbnailPath
    ensures r[|ThumbnailHost + cloudName + ThumbnailPath|..|r| - |ThumbnailExt|] == publicId
    ensures r[|r| - |ThumbnailExt|..] == ThumbnailExt
  {
    var prefix := ThumbnailHost + cloudName + ThumbnailPath;
    var r := prefix + publicId + ThumbnailExt;
    assert r[..|prefix|] == prefix;
    assert r[|prefix|..|r| - |ThumbnailExt|] == publicId;
    assert r[|r| - |ThumbnailExt|..] == ThumbnailExt;
    r
  }

  /** Different videos of one cloud get different thumbnails. */
  lemma ThumbnailUrlInjective(cloudName: string, a: string, b: string)
    requires ThumbnailUrl(cloudName, a) == ThumbnailUrl(cloudName, b)
    ensures a == b
  {
  }

  /** The shareable link: the viewer page with the encoded `secure_url` as its `v` parameter. */
  function ViewerUrl(config: Config, encodeComponent: string -> string, secureUrl: string): string {
    config.viewerBaseUrl + "?v=" + encodeComponent(secureUrl)
  }

  /** The history entry written after a successful upload. */
  function NewRecording(config: Config, encodeComponent: string -> string, publicId: string, secureUrl: string,
                        date: string, seconds: nat): Recording
  {
    Recording(publicId, ViewerUrl(config, encodeComponent, secureUrl), date, seconds, ThumbnailUrl(config.cloudName, publicId))
  }

  // ---------------------------------------------------------------------------------------
  // The controller's state as a value, and the transitions the page's handlers make

  /** Every module-level variable of the page that the handlers read or write, plus what the
      page shows: the section, the alerts raised so far and the link in the URL box. The timer
      text and the camera preview are not stored: the text always shows the counter
      (`TimerText`) and the preview is on exactly while a camera stream is held
      (`PreviewVisible`). */
  datatype ControllerState = ControllerState(
    cameraEnabled: bool,
    micEnabled: bool,
    screenStream: Option<MediaStream>,
    cameraStream: Option<MediaStream>,
    micStream: Option<MediaStream>,
    mediaRecorder: Option<MediaRecorder>,
    chunks: seq<seq<byte>>,
    seconds: nat,
    timerRunning: bool,
    section: Section,
    alerts: seq<string>,
    urlText: string)

  /** The page's state when it opens. */
  const InitialState: ControllerState :=
    ControllerState(true, true, None, None, None, None, [], 0, false, IdleSection, [], "")

  /** The text of the timer element. */
  function TimerText(s: ControllerState): string {
    ClockText(s.seconds)
  }

  /** Whether the camera preview is displayed. */
  predicate PreviewVisible(s: ControllerState) {
    s.cameraStream.Some?
  }

  /** The page opens showing `00:00` and no preview. */
  lemma InitialView()
    ensures TimerText(InitialState) == ClockReset && !PreviewVisible(InitialState)
  {
    ClockResetIsZero();
  }

  /** What every handler keeps: a device handle is held only while the recorder is active (no
      source outlives its session) and the buffer holds only non-empty fragments. */
  ghost predicate Consistent(s: ControllerState) {
    && (s.screenStream.Some? || s.cameraStream.Some? || s.micStream.Some? ==> IsActive(s.mediaRecorder))
    && (forall c :: c in s.chunks ==> |c| > 0)
  }

  /** The devices the start sequence asks for once the screen is granted and the microphone,
      if enabled, too. */
  function Requested(micEnabled: bool, cameraEnabled: bool): seq<Device> {
    [Screen] + (if micEnabled then [Microphone] else []) + (if cameraEnabled then [Camera] else [])
  }

  /** The state once the screen and, when enabled, the microphone are granted: the camera is
      held (and so previewed) only when it is enabled and granted; a refused camera is ignored. */
  function Acquired(s: ControllerState, screen: MediaStream, mic: Acquisition, camera: Acquisition): ControllerState
    requires !s.micEnabled || mic.Granted?
  {
    s.(screenStream := Some(screen),
       micStream := if s.micEnabled then Some(mic.stream) else s.micStream,
       cameraStream := if s.cameraEnabled && camera.Granted? then Some(camera.stream) else s.cameraStream)
  }

  /** The state once the recorder is built on the composed tracks and started with an empty
      buffer; the recording section and the clock follow only when the screen has a video track
      to watch for its end. */
  function Armed(s: ControllerState, screen: MediaStream, isTypeSupported: string -> bool): ControllerState {
    var recorder := MediaRecorder(ComposeTracks(screen, s.micStream), OptionsFor(ChooseMimeType(isTypeSupported)),
                             FlushIntervalMs, Active);
    var r := s.(mediaRecorder := Some(recorder), chunks := []);
    if |OfKind(screen.tracks, Video)| == 0 then r
    else r.(section := RecordingSection, seconds := 0, timerRunning := true)
  }

  /** The state after a start sequence whose mandatory sources were all granted. */
  function Started(s: ControllerState, screen: MediaStream, mic: Acquisition, camera: Acquisition,
                   isTypeSupported: string -> bool): ControllerState
    requires !s.micEnabled || mic.Granted?
  {
    Armed(Acquired(s, screen, mic, camera), screen, isTypeSupported)
  }

  /** The state a click on the start button leaves: a refused screen raises an alert unless the
      picker was cancelled; a refused required microphone raises an alert and drops the screen;
      otherwise the session starts. */
  function StartAttempt(s: ControllerState, screen: Acquisition, mic: Acquisition, camera: Acquisition,
                        isTypeSupported: string -> bool): ControllerState
  {
    if screen.Thrown? then
      if screen.error.name == NotAllowedError then s
      else s.(alerts := s.alerts + [ScreenFailurePrefix + screen.error.message])
    else if s.micEnabled && mic.Thrown? then
      s.(screenStream := None, alerts := s.alerts + [MicDeniedMessage])
    else Started(s, screen.stream, mic, camera, isTypeSupported)
  }

  /** The devices a click on the start button asks for, in order: the screen, then the enabled
      microphone and camera, stopping at the first required device refused. */
  function AskedFor(s: ControllerState, screen: Acquisition, mic: Acquisition): seq<Device> {
    if screen.Thrown? then [Screen]
    else if s.micEnabled && mic.Thrown? then [Screen, Microphone]
    else Requested(s.micEnabled, s.cameraEnabled)
  }

  /** A completed start sequence holds the screen, keeps the alerts, empties the buffer and
      leaves an active recorder flushing every second, with the chosen options, encoding only
      tracks of the screen and of the held microphone. */
  lemma StartedRecorder(s: ControllerState, screen: MediaStream, mic: Acquisition, camera: Acquisition,
                        isTypeSupported: string -> bool)
    requires !s.micEnabled || mic.Granted?
    ensures var r := Started(s, screen, mic, camera, isTypeSupported);
      && r.alerts == s.alerts && r.chunks == [] && r.screenStream == Some(screen)
      && IsActive(r.mediaRecorder) && r.mediaRecorder.value.timeslice == FlushIntervalMs
      && r.mediaRecorder.value.options == OptionsFor(ChooseMimeType(isTypeSupported))
      && forall t :: t in r.mediaRecorder.value.tracks ==>
           t in screen.tracks || (r.micStream.Some? && t in r.micStream.value.tracks)
  {
    ComposeTracksMembers(screen, Acquired(s, screen, mic, camera).micStream);
  }

  /** A start attempt keeps the controller's invariant, whatever the devices answer. */
  lemma StartKeepsConsistent(s: ControllerState, screen: Acquisition, mic: Acquisition, camera: Acquisition,
                             isTypeSupported: string -> bool)
    requires Consistent(s)
    ensures Consistent(StartAttempt(s, screen, mic, camera, isTypeSupported))
  {
    if screen.Granted? && !(s.micEnabled && mic.Thrown?) {
      StartedRecorder(s, screen.stream, mic, camera, isTypeSupported);
    }
  }

  /** A refused screen or a refused required microphone builds no recorder and takes no new
      handle: only the alerts change, by at most one (none only for a cancelled picker), and the
      microphone's refusal also drops the screen. */
  lemma StartAbortKeepsSession(s: ControllerState, screen: Acquisition, mic: Acquisition, camera: Acquisition,
                               isTypeSupported: string -> bool)
    requires screen.Thrown? || (s.micEnabled && mic.Thrown?)
    ensures var r := StartAttempt(s, screen, mic, camera, isTypeSupported);
      && r.(alerts := s.alerts, screenStream := s.screenStream) == s
      && (if screen.Thrown? then r.screenStream == s.screenStream else r.screenStream.None?)
      && |s.alerts| <= |r.alerts| <= |s.alerts| + 1
      && (r.alerts == s.alerts <==> screen.Thrown? && screen.error.name == NotAllowedError)
  {
  }

  /** The state after the teardown. */
  function AfterStop(s: ControllerState): (r: ControllerState)
    ensures !IsActive(r.mediaRecorder)
    ensures r.screenStream.None? && r.cameraStream.None? && r.micStream.None?
    ensures !r.timerRunning && !PreviewVisible(r) && r.section == UploadingSection
    ensures r.seconds == s.seconds && r.chunks == s.chunks && r.alerts == s.alerts
  {
    s.(mediaRecorder := Deactivate(s.mediaRecorder), screenStream := None, cameraStream := None, micStream := None,
       timerRunning := false, section := UploadingSection)
  }

  /** The state after one timer tick: the counter advances only while the interval runs. */
  function Ticked(s: ControllerState): ControllerState {
    if s.timerRunning then s.(seconds := s.seconds + 1) else s
  }

  /** The state after `n` timer ticks. */
  function Ticks(s: ControllerState, n: nat): ControllerState {
    if n == 0 then s else Ticked(Ticks(s, n - 1))
  }

  /** The teardown keeps the controller's invariant. */
  lemma StopKeepsConsistent(s: ControllerState)
    requires Consistent(s)
    ensures Consistent(AfterStop(s))
  {
  }

  /** Stopping twice is stopping once. */
  lemma AfterStopIdempotent(s: ControllerState)
    ensures AfterStop(AfterStop(s)) == AfterStop(s)
  {
  }

  /** A camera stream the platform hands over is never encoded: its video tracks, distinct from
      the screen's, are not among the recorder's. */
  lemma CameraNeverRecorded(s: ControllerState, screen: MediaStream, mic: Acquisition, camera: Acquisition,
                            isTypeSupported: string -> bool)
    requires !s.micEnabled || mic.Granted?
    requires camera.Granted?
    requires forall t :: t in camera.stream.tracks ==> t.kind == Video && t !in screen.tracks
    ensures forall t :: t in camera.stream.tracks ==> t !in Started(s, screen, mic, camera, isTypeSupported).mediaRecorder.value.tracks
  {
    ComposeTracksMembers(screen, Acquired(s, screen, mic, camera).micStream);
  }

  /** While the interval runs, each tick adds exactly one second. */
  lemma {:induction false} TicksWhileRunning(s: ControllerState, n: nat)
    requires s.timerRunning
    ensures Ticks(s, n) == s.(seconds := s.seconds + n)
  {
    if n > 0 {
      TicksWhileRunning(s, n - 1);
    }
  }

  /** Once the interval is cleared, ticks change nothing. */
  lemma {:induction false} TicksWhileStopped(s: ControllerState, n: nat)
    requires !s.timerRunning
    ensures Ticks(s, n) == s
  {
    if n > 0 {
      TicksWhileStopped(s, n - 1);
    }
  }

  /** The duration a session records is the number of ticks between its start and its stop,
      whatever ticks arrive afterwards. */
  lemma DurationCountsTicks(s: ControllerState, screen: MediaStream, mic: Acquisition, camera: Acquisition,
                            isTypeSupported: string -> bool, n: nat, late: nat)
    requires !s.micEnabled || mic.Granted?
    requires |OfKind(screen.tracks, Video)| > 0
    ensures Ticks(AfterStop(Ticks(Started(s, screen, mic, camera, isTypeSupported), n)), late).seconds == n
  {
    var started := Started(s, screen, mic, camera, isTypeSupported);
    TicksWhileRunning(started, n);
    TicksWhileStopped(AfterStop(Ticks(started, n)), late);
  }

  // ---------------------------------------------------------------------------------------
  // The page's controller

  /** The page's controller. Its module-level variables and what it shows are held together in
      `state`, which every handler updates step by step. */
  class Controller {
    const config: Config
    const encodeComponent: string -> string
    const store: Storage
    var state: ControllerState

    ghost predicate Valid()
      reads this
    {
      Consistent(state)
    }

    /** Every track of every device handle the page holds. */
    ghost function HeldTracks(): set<Track>
      reads this
    {
      (if state.screenStream.Some? then TrackSet(state.screenStream.value) else {}) +
      (if state.cameraStream.Some? then TrackSet(state.cameraStream.value) else {}) +
      (if state.micStream.Some? then TrackSet(state.micStream.value) else {})
    }

    constructor (config: Config, encodeComponent: string -> string, store: Storage)
      ensures Valid() && state == InitialState
      ensures this.config == config && this.encodeComponent == encodeComponent && this.store == store
    {
      this.config, this.encodeComponent, this.store := config, encodeComponent, store;
      state := InitialState;
    }

    /** The camera toggle. */
    method ToggleCamera()
      requires Valid()
      modifies this
      ensures Valid() && state == old(state).(cameraEnabled := !old(state.cameraEnabled))
    {
      state := state.(cameraEnabled := !state.cameraEnabled);
    }

    /** The microphone toggle. */
    method ToggleMic()
      requires Valid()
      modifies this
      ensures Valid() && state == old(state).(micEnabled := !old(state.micEnabled))
    {
      state := state.(micEnabled := !state.micEnabled);
    }

    /** The "new recording" button. */
    method NewSession()
      requires Valid()
      modifies this
      ensures Valid() && state == old(state).(section := IdleSection)
    {
      state := state.(section := IdleSection);
    }

    /** The start sequence. `screen`, `mic` and `camera` are what the platform answers when asked
        for that device; `asked` lists the devices actually asked for, in order. */
    method StartRecording(screen: Acquisition, mic: Acquisition, camera: Acquisition,
                          isTypeSupported: string -> bool) returns (asked: seq<Device>)
      requires Valid()
      modifies this, TracksOf(screen)
      ensures Valid()
      ensures asked == AskedFor(old(state), screen, mic)
      ensures state == StartAttempt(old(state), screen, mic, camera, isTypeSupported)
      // A refused required microphone releases the screen; otherwise its tracks are left alone.
      ensures screen.Granted? && old(state.micEnabled) && mic.Thrown? ==> forall t :: t in screen.stream.tracks ==> !t.live
      ensures screen.Granted? && !(old(state.micEnabled) && mic.Thrown?) ==>
        forall t :: t in screen.stream.tracks ==> t.live == old(t.live)
    {
      StartKeepsConsistent(state, screen, mic, camera, isTypeSupported);
      asked := [Screen];
      if screen.Thrown? {
        if screen.error.name != NotAllowedError {
          state := state.(alerts := state.alerts + [ScreenFailurePrefix + screen.error.message]);
        }
        return;
      }
      ghost var before := state;
      state := state.(screenStream := Some(screen.stream));
      if state.micEnabled {
        asked := asked + [Microphone];
        var granted := AskMicrophone(screen.stream, mic);
        if !granted {
          return;
        }
      }
      if state.cameraEnabled {
        asked := asked + [Camera];
        if camera.Granted? {
          state := state.(cameraStream := Some(camera.stream));
        }
      }
      assert state == Acquired(before, screen.stream, mic, camera);
      BeginRecording(screen.stream, isTypeSupported);
    }

    /** The microphone step of the start sequence, once the screen is held: a granted stream is
        kept; a refusal raises the alert, stops the screen's tracks and drops the screen. */
    method AskMicrophone(screen: MediaStream, mic: Acquisition) returns (granted: bool)
      modifies this, TrackSet(screen)
      ensures granted == mic.Granted?
      ensures granted ==> state == old(state).(micStream := Some(mic.stream))
      ensures granted ==> forall t :: t in screen.tracks ==> t.live == old(t.live)
      ensures !granted ==> state == old(state).(screenStream := None, alerts := old(state.alerts) + [MicDeniedMessage])
      ensures !granted ==> forall t :: t in screen.tracks ==> !t.live
    {
      granted := mic.Granted?;
      if !granted {
        state := state.(alerts := state.alerts + [MicDeniedMessage]);
        StopAll(screen);
        state := state.(screenStream := None);
        return;
      }
      state := state.(micStream := Some(mic.stream));
    }

    /** The second half of the start sequence: the recorder is built on the screen's video and
        the held microphone's audio with the first supported profile, started with an empty
        buffer, and, when the screen has a video track, the recording section and the clock
        start. */
    method BeginRecording(screen: MediaStream, isTypeSupported: string -> bool)
      modifies this
      ensures state == Armed(old(state), screen, isTypeSupported)
    {
      var tracks := ComposeTracks(screen, state.micStream);
      var mimeType := ChooseMimeType(isTypeSupported);
      state := state.(mediaRecorder := Some(MediaRecorder(tracks, OptionsFor(mimeType), FlushIntervalMs, Active)),
                      chunks := []);
      if |OfKind(screen.tracks, Video)| == 0 {
        // Watching the first video track for its end fails here; the handler stops early.
        return;
      }
      state := state.(section := RecordingSection);
      StartTimer();
    }

    /** `startTimer`: the counter and its text are reset and the one-second interval runs. */
    method StartTimer()
      modifies this
      ensures state == old(state).(seconds := 0, timerRunning := true)
      ensures TimerText(state) == ClockReset
    {
      state := state.(seconds := 0, timerRunning := true);
      ClockResetIsZero();
    }

    /** The encoder's `dataavailable` event. */
    method OnDataAvailable(data: seq<byte>)
      requires Valid()
      modifies this
      ensures Valid()
      ensures state == old(state).(chunks := old(state.chunks) + Kept(data))
    {
      if |data| > 0 {
        state := state.(chunks := state.chunks + [data]);
      }
    }

    /** The teardown, run by the stop button and by the end of the shared screen. `stopped` tells
        whether the recorder was stopped (and so will hand its fragments to the upload). */
    method StopRecording() returns (stopped: bool)
      requires Valid()
      modifies this, HeldTracks()
      ensures Valid()
      ensures stopped == IsActive(old(state.mediaRecorder))
      ensures state == AfterStop(old(state))
      ensures forall t :: t in old(HeldTracks()) ==> !t.live
    {
      stopped := IsActive(state.mediaRecorder);
      if stopped {
        state := state.(mediaRecorder := Some(state.mediaRecorder.value.(state := Inactive)));
      }
      ReleaseHeld();
      state := state.(screenStream := None, cameraStream := None, micStream := None);
      StopTimer();
      state := state.(section := UploadingSection);
    }

    /** Stops every track of the screen, camera and microphone streams the page holds. */
    method ReleaseHeld()
      modifies HeldTracks()
      ensures forall t :: t in old(HeldTracks()) ==> !t.live
    {
      if state.screenStream.Some? {
        StopAll(state.screenStream.value);
      }
      if state.cameraStream.Some? {
        StopAll(state.cameraStream.value);
      }
      if state.micStream.Some? {
        StopAll(state.micStream.value);
      }
    }

    /** `stopTimer`: the interval is cleared; the counter keeps its value. */
    method StopTimer()
      modifies this
      ensures state == old(state).(timerRunning := false)
    {
      state := state.(timerRunning := false);
    }

    /** One firing of the one-second interval. */
    method Tick()
      requires Valid()
      modifies this
      ensures Valid()
      ensures state == Ticked(old(state))
    {
      if state.timerRunning {
        state := state.(seconds := state.seconds + 1);
      }
    }

    /** The recorder's `stop` event: post the buffered fragments and act on the answer. `now` is
        the clock reading used as the record's date. */
    method UploadVideo(response: UploadResponse, now: string) returns (form: UploadForm)
      requires Valid()
      modifies this, store
      ensures Valid()
      ensures form == UploadForm(Concat(state.chunks), "recording.webm", "video/webm", config.uploadPreset)
      ensures response.Rejected? ==>
        && state == old(state).(alerts := old(state.alerts) + [UploadFailurePrefix + response.message],
                                section := IdleSection)
        && store.recordings == old(store.recordings)
      ensures response.Uploaded? ==>
        var rec := NewRecording(config, encodeComponent, response.publicId, response.secureUrl, now, old(state.seconds));
        && state == old(state).(urlText := rec.viewerUrl, section := DoneSection)
        && store.recordings == Some(Prepend(rec, old(store.recordings)))
    {
      form := UploadForm(Concat(state.chunks), "recording.webm", "video/webm", config.uploadPreset);
      match response
      case Rejected(message) =>
        state := state.(alerts := state.alerts + [UploadFailurePrefix + message]);
        state := state.(section := IdleSection);
      case Uploaded(publicId, secureUrl) =>
        var viewerUrl := ViewerUrl(config, encodeComponent, secureUrl);
        state := state.(urlText := viewerUrl);
        var recording := Recording(publicId, viewerUrl, now, state.seconds, ThumbnailUrl(config.cloudName, publicId));
        var recordings := Load(store.recordings);
        recordings := [recording] + recordings;
        store.recordings := Some(recordings);
        state := state.(section := DoneSection);
    }
  }

  /** A second stop after a first one stops nothing and changes nothing. */
  method StopTwice(c: Controller) returns (first: bool, second: bool)
    requires c.Valid()
    modifies c, c.HeldTracks()
    ensures c.Valid() && !second
    ensures first == IsActive(old(c.state.mediaRecorder))
    ensures c.state == AfterStop(old(c.state))
  {
    first := c.StopRecording();
    second := c.StopRecording();
    AfterStopIdempotent(old(c.state));
  }
}
