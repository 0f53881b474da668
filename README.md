# Screen recorder extension: controller and history model

A Dafny model of the two pages of a browser extension that records the screen, uploads the
recording and keeps a history of uploads.

- **Recorder page** (`extension/recorder.js`). The start sequence asks the platform for the
  screen, which is mandatory. It then asks for the microphone, whose refusal is fatal when the
  microphone is enabled, and for the camera, which is best effort. It composes the screen's video
  tracks and the microphone's audio tracks and picks the first encoding profile the platform
  supports. It starts an encoder that flushes a fragment every second and buffers the non-empty
  fragments. The teardown stops the encoder only when it is active and releases every held
  device. A one-second clock is rendered as `mm:ss`. The upload answer selects the next section
  and, on success, prepends a history entry.
- **History page** (`extension/recordings.js`). The stored list is rendered as an empty-state
  message or as one card per recording. Each card carries its position and a `m分s秒` duration.
  A delete button removes the entry at its card's position from the stored list and renders
  again.

Modules:

- `Base`: `Option` and `byte`.
- `Text`: decimal rendering and parsing, `padStart(2, '0')`, and the first occurrence of a character.
- `Media`: tracks, streams, acquisition outcomes, track composition, the choice of MIME type, and
  the encoder's start/stop state.
- `Store`: the persisted list of recordings, with `unshift` and `splice`.
- `Recorder`: the recorder page as a `Controller` class whose handlers update its state step by
  step. Each handler is proved equal to a pure transition on the state (`StartAttempt`,
  `AfterStop`, `Ticked`, ...), and the properties of the page are proved about those transitions.
- `Recordings`: the history page as a `HistoryPage` class, together with `FormatDuration` and
  its inverse.

The page's module-level variables (`mediaRecorder`, `chunks`, the three stream handles,
`seconds`, the running interval, both toggles) and what the page shows (the section, the alerts
raised, the URL box) are grouped in one `state` record of the controller. The timer text is not
stored: it is `ClockText(seconds)`, and `ClockResetIsZero` shows this agrees with the literal
`00:00` written at start. The camera preview is shown exactly while a camera stream is held.

Device prompts, the encoder's `isTypeSupported` oracle, the upload answer, the current date and
`encodeURIComponent` are parameters. Timer ticks and fragment arrivals are discrete method calls.

Behaviour of the code worth noting:

- The thumbnail URL is built from `public_id` (`extension/recorder.js:178`), not from `secure_url`.
- The fragment buffer is cleared only at the next start (`extension/recorder.js:113`), not after
  the upload.
- No check rejects a composition without tracks before `new MediaRecorder` (`extension/recorder.js:104-112`).
- `getVideoTracks()[0].onended` throws when the shared screen has no video track
  (`extension/recorder.js:121`). When the held microphone still gives the encoder an audio
  track, the encoder has already started, but the recording section and the clock are not
  started (`Armed`).
- A tick changes nothing once the interval is cleared.

## Model

| member | source | states |
|---|---|---|
| Recorder.Controller.constructor | extension/recorder.js:1-9 | The page starts with both toggles on, no handles, no recorder, an empty buffer, a zero counter and the idle section |
| Recorder.InitialView | extension/recorder.js:7 | With the counter at 0 and no camera stream, the derived timer text is `00:00` and no preview is shown. That the page's markup opens this way is an assumption: the markup is not part of this model |
| Recorder.Controller.ToggleCamera | extension/recorder.js:30-34 | The camera toggle flips only `cameraEnabled` |
| Recorder.Controller.ToggleMic | extension/recorder.js:37-41 | The microphone toggle flips only `micEnabled` |
| Recorder.Controller.NewSession | extension/recorder.js:53 | The new-recording button only returns to the idle section |
| Recorder.Controller.StartRecording | extension/recorder.js:66-125 | The start handler asks for the screen, then the enabled microphone, then the enabled camera, stopping at the first required refusal. Its new state is `StartAttempt` of the old one. A microphone refusal stops every screen track; otherwise the screen's tracks are untouched. The invariant is kept |
| Recorder.Controller.AskMicrophone | extension/recorder.js:81-90 | A granted microphone is held. A refusal raises the microphone alert, stops every screen track and drops the screen handle |
| Recorder.Controller.BeginRecording | extension/recorder.js:103-125 | The encoder is built on the composed tracks with the chosen options and started with an empty buffer. The section and clock start only when the screen has a video track |
| Recorder.StartAbortKeepsSession | extension/recorder.js:68-89 | A refused screen or refused required microphone builds no recorder and takes no handle. Only the alerts change, by at most one, and none exactly when the picker was cancelled (`NotAllowedError`). A microphone refusal also drops the screen |
| Recorder.StartedRecorder | extension/recorder.js:103-119 | A completed start holds the screen, keeps the alerts, empties the buffer and leaves an active recorder flushing every 1000 ms. The recorder uses the chosen options and encodes only screen and held-microphone tracks |
| Recorder.StartKeepsConsistent | extension/recorder.js:66-125 | Every start outcome keeps the invariant: a handle is held only while the recorder is active, and the buffer holds no empty fragment |
| Recorder.CameraNeverRecorded | extension/recorder.js:93-107 | No track of a granted camera stream is among the recorder's tracks |
| Media.OfKindMembers | extension/recorder.js:104-105 | `getVideoTracks`/`getAudioTracks` keep exactly the stream's tracks of that kind |
| Media.ComposeTracksMembers | extension/recorder.js:103-107 | The composed list is exactly the screen's video tracks and the held microphone's audio tracks, with every video track before every audio track. It has no extra tracks when there is no microphone |
| Media.FindSupportedFirst | extension/recorder.js:109-110 | `find` returns the first candidate the oracle accepts, and returns nothing exactly when the oracle accepts none |
| Media.ChooseMimeTypeFirst | extension/recorder.js:109-110 | The MIME type is `''` exactly when no preference is supported; otherwise it is the first supported preference |
| Media.OptionsForChoice | extension/recorder.js:109-112 | The recorder gets empty options exactly when no preference is supported; otherwise its options name the first supported preference |
| Recorder.Controller.OnDataAvailable | extension/recorder.js:115-117 | A fragment is appended only when it is non-empty, and nothing else changes |
| Recorder.Buffered | extension/recorder.js:113-117 | The buffer after a series of arrivals into an empty buffer holds only non-empty fragments, and no more of them than arrived |
| Recorder.BufferedPayload | extension/recorder.js:115-117 | Dropping empty fragments leaves the payload equal to all arrivals joined in arrival order |
| Recorder.ConcatSize | extension/recorder.js:156 | The assembled payload is as long as all buffered fragments together |
| Recorder.ConcatAppend | extension/recorder.js:156 | Joining two runs of fragments joins their payloads |
| Media.Deactivate | extension/recorder.js:128 | The stop guard leaves the recorder inactive. It changes an existing active recorder only in its state and leaves any other recorder as it was |
| Media.StopAll | extension/recorder.js:129-131 | `getTracks().forEach(t => t.stop())` stops every track of the stream and restarts none |
| Recorder.Controller.StopRecording | extension/recorder.js:127-138 | The encoder is stopped exactly when it was active. The new state is `AfterStop` of the old. Every previously held track is stopped. The invariant is kept |
| Recorder.Controller.ReleaseHeld | extension/recorder.js:129-131 | Every track of every held stream is stopped |
| Recorder.AfterStop | extension/recorder.js:127-138 | After the teardown the recorder is inactive, all three handles are null, the preview is hidden, the clock is stopped and the uploading section is on show. The counter, buffer and alerts are kept |
| Recorder.StopKeepsConsistent | extension/recorder.js:127-138 | The teardown keeps the invariant |
| Recorder.AfterStopIdempotent | extension/recorder.js:127-138 | A second teardown changes nothing |
| Recorder.StopTwice | extension/recorder.js:127-138 | A second stop right after a first one does not stop the encoder and leaves the state the first stop left |
| Recorder.Controller.StartTimer | extension/recorder.js:140-143 | The counter is reset to 0, the interval runs and the timer text is `00:00` |
| Recorder.ClockResetIsZero | extension/recorder.js:141-142 | The literal `00:00` is the rendering of the counter 0 |
| Recorder.Controller.Tick | extension/recorder.js:143-148 | A tick adds one to the counter while the interval runs and otherwise changes nothing |
| Recorder.TicksWhileRunning | extension/recorder.js:143-144 | `n` ticks of a running clock add exactly `n` |
| Recorder.ClockTextFields | extension/recorder.js:145-147 | The timer text is a minutes field, `:` and a two-digit seconds field. The fields read back as `floor(s/60)` and `s % 60`, and the text is exactly five characters below 100 minutes |
| Recorder.ParseClockText | extension/recorder.js:145-147 | Minutes times sixty plus seconds, read from the timer text, is the counter |
| Text.NatToString | extension/recorder.js:145-146 | `String(n)` is a non-empty run of digits without a leading zero, one digit exactly below 10 and at most two below 100 |
| Text.ParseNatToString | extension/recorder.js:145-146 | Parsing `String(n)` gives back `n` |
| Text.Pad2Value | extension/recorder.js:145-146 | `padStart(2, '0')` gives at least two digits, exactly two below 100, and reads back as `n` |
| Recorder.Controller.StopTimer | extension/recorder.js:151-153 | Clearing the interval stops the clock and keeps the counter |
| Recorder.TicksWhileStopped | extension/recorder.js:151-153 | Ticks after the interval is cleared change nothing |
| Recorder.DurationCountsTicks | extension/recorder.js:140-153 | A session's counter after the stop is the number of ticks between start and stop, whatever ticks come later |
| Recorder.Controller.UploadVideo | extension/recorder.js:155-191 | The form carries the buffered fragments joined in order, `recording.webm` and the upload preset. An error alerts with its message, returns to idle and leaves the history alone. Success shows the viewer link, switches to done and prepends the new record (id `public_id`, duration the counter) to the stored list |
| Recorder.ThumbnailUrl | extension/recorder.js:178 | The thumbnail URL is the cloud's `so_0` prefix, then the `public_id`, then `.jpg` |
| Recorder.ThumbnailUrlInjective | extension/recorder.js:178 | Different `public_id`s in one cloud get different thumbnail URLs |
| Store.MissingListIsEmpty | extension/recordings.js:72 | A missing list behaves as a stored empty list: it reads as empty, an upload makes it the one-entry list, and a delete writes back the empty list |
| Store.Prepend | extension/recorder.js:180-184 | `unshift` puts the new record first and shifts every stored record one place down; a missing list is taken as empty |
| Store.RemoveNewestUndoesPrepend | extension/recorder.js:182 | Removing position 0 right after an `unshift` gives back the list as it was |
| Store.RemoveAt | extension/recordings.js:73 | `splice(i, 1)` inside the list removes exactly element `i`: the length drops by one, earlier elements stay, later ones move up one place and the multiset loses that element. An index past the end leaves the list unchanged |
| Recordings.FormatDurationShape | extension/recordings.js:11-15 | The duration text ends in `秒` and holds `分` exactly when the duration is at least a minute |
| Recordings.FormatDurationUnderMinute | extension/recordings.js:12-14 | Under a minute only the `s秒` form is produced |
| Recordings.DecodeFormatDuration | extension/recordings.js:11-15 | The duration text reads back as minutes times sixty plus seconds, which is the stored duration |
| Recordings.BuildCards | extension/recordings.js:32-48 | The `forEach` produces exactly one card per recording, in order, with card `k` built from recording `k` and carrying index `k` |
| Recordings.HistoryPage.RenderList | extension/recordings.js:17-51 | An empty list shows the empty state. Otherwise the grid holds one card per recording with its own index |
| Recordings.HistoryPage.constructor | extension/recordings.js:80-83 | Opening the page renders the stored list, a missing list showing the empty state |
| Recordings.HistoryPage.DeleteCard | extension/recordings.js:68-77 | A delete writes back the stored list (missing read as empty) with position `i` spliced out and renders that list |
| Recordings.DeleteShiftsCards | extension/recordings.js:68-77 | After a delete, cards before `i` are unchanged and later cards move up one place with their index renumbered. The empty state appears exactly when the only recording was deleted |
| Recordings.DeleteRemovesShownRecording | extension/recordings.js:70-74 | When the stored list is the one shown, the delete removes exactly the recording of card `i` and keeps the others in order |

## Left out

- Page markup, button texts and classes, and `showSection` beyond the section value it selects.
- The copy buttons and `navigator.clipboard`, with their two-second `setTimeout` resets: host APIs.
- The list buttons, which use `chrome.tabs.create` and `chrome.runtime.getURL`: host APIs.
- `getDisplayMedia` and `getUserMedia`: each is replaced by its outcome (a stream or an error with
  its name and message). Their capture constraints are not modelled.
- Encoding inside `MediaRecorder`: the recorder is a value with its tracks, options, flush
  interval and active/inactive state. No pause state is modelled, because the page never pauses.
- The `fetch`, the JSON parsing and `FormData`: the answer is an `UploadResponse`, and a transport
  or parsing failure is a `Rejected` answer with its message.
- `encodeURIComponent` and `new Date().toISOString()` are parameters.
- `formatDate` on the history page depends on the locale, so a card keeps the stored date text.
- Real time: the one-second interval and the encoder's flushes are discrete calls, and their
  interleaving is not modelled. A second `startTimer` leaving an older interval running is not
  modelled either: one running flag stands for the interval.
- The asynchronous storage calls: the read-modify-write of the history is one atomic step.
  Concurrent writes from the two pages are not modelled.
- The `!recordings` test in `renderList`: every caller passes a list, so the parameter is a sequence.
- `parseInt` of the card's `data-index`: the index is the natural number the card was built with.
- The alert dialogs are recorded as a list of messages.
- `CONFIG` and `recorder.html` are not part of this model. The configuration is a `Config` value.
- A start whose composed track list is empty: the screen has no video track and no microphone
  audio track is held. The platform then refuses `start(1000)` (`extension/recorder.js:119`),
  and the encoder stays inactive while the acquired handles stay held. The model treats every
  built encoder as started.
- Clicks that run while the start handler waits for a device prompt
  (`extension/recorder.js:69`, `83`, `95`): a toggle or a second start in the middle of the
  sequence. `StartAttempt` reads both toggles once, at the click.
- The `onended` handler set on the screen's first video track is not stored: the end of the
  shared screen is a call of `StopRecording`.
