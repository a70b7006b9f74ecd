# Study timer extension: a Dafny model

The study-timer browser extension times 25-minute study sessions. During a
session it logs the active tab at the start, every five minutes, and at the
end. Each entry holds a title, a URL and a screenshot. The log lives under the
`logs` key of extension storage, and the popup can export it as an HTML
report. This project models the three scripts that carry that logic:

- `background.js` is the session coordinator. The model has the `timerState`
  record, the derived snapshot (`getTimerState`), guarded start and stop, the
  one-second tick that stops the session itself, the five-minute capture, the
  capture pipeline with its URL denylist, and the message dispatcher.
- `popup.js` is the popup page. The model has the `MM:SS` formatter, the
  popup's own capture pipeline with its recovery path, its local countdown,
  the structure of the HTML report, and the export and clear actions.
- `offscreen.js` is the offscreen audio document. The model has the repeat
  counter that rings the completion sound a given number of times, including
  its `ended` listeners and `setTimeout` retries.

Layout:

- `common.dfy` (module `Common`) holds what both pages share:
  - the browser's answers (`Tab`, `TabQuery`, `Capture`, bundled as a `Probe`);
  - the `LogEntry` record;
  - the denylist `IsProtectedUrl`, with a proof that it protects exactly four URL schemes;
  - `title || 'Unknown'` and `Math.round(ms / 60000)`;
  - the `logs` storage key as the class `LogStore`.
- `background.dfy` (module `Background`) holds:
  - the pure snapshot function `ComputeSnapshot` and its lemmas;
  - the entry function `CaptureEntry`;
  - the class `Coordinator`. Its fields are `timerState`'s fields. The interval handles are booleans. Messages sent to other pages are recorded in `outbox`.
- `popup.dfy` holds two modules:
  - module `Popup` has the formatter with its parse-back lemma, the entry function `PopupEntry`, the report datatypes, and the class `PopupController`;
  - module `CapturePipelines` compares what the two pages log for the same browser answers.
- `offscreen.dfy` (module `Offscreen`) holds:
  - pure step functions on a `Player` state, one per handler, with lemmas about whole ringing sequences;
  - the class `SoundLoop`. It holds the document's module variables, and each of its methods is proved equal to the matching step function.

Modelling conventions:

- The clock (`Date.now()`) is a `nat` of milliseconds, passed to each operation that reads it.
- Each page's answers to `tabs.query`, `captureVisibleTab` and `toISOString` are inputs, bundled as a `Probe`.
- `toLocaleString` is a function parameter.
- JavaScript's `undefined`/`null` is `None`.
- `Math.floor(x / 1000)` with an integer `x` is Dafny's `/`, which is exact here because the divisor is positive.
- `Math.round(ms / 60000)` is `(2*ms + 60000) / 120000`. This is the exact integer form of rounding half up.

Behaviour of the code worth knowing when reading the model:

- `popup.js` runs its own countdown and its own capture interval, and it sends the worker no messages. The popup therefore has its own class, `PopupController`.
- Only the worker's capture replaces a missing or empty title with "Unknown" (background.js:205). The popup saves the tab's title as it is (popup.js:54, 68, 84). `CapturePipelines.PagesAgreeUpToTitle` states the difference.
- A session logs two entries only when both captures resolve a tab with a URL. The worker logs nothing when no tab resolves (background.js:185). It also logs nothing for a tab without a URL, because `tab.url.startsWith` throws into the outer catch (background.js:190, 218). `Background.CompletedSession` assumes both captures produce an entry.
- The tick stops the session once less than one second is left, possibly before `endTime`, because it tests `floor((endTime - now)/1000) <= 0` (background.js:62, 130). `Background.Coordinator.Tick` states this.
- The worker sends `timerStopped` before the completion-sound request. `playCompletionSound` is called first, but it sends only after awaiting `createOffscreenDocument` (background.js:99-101), while the `timerStopped` push at background.js:170 is synchronous.
- The snapshot also carries `totalMinutes` (background.js:73).

## Model

| member | source | states |
|---|---|---|
| Common.TitleOrUnknown | background.js:205 | the title is never empty; it is the tab's title when that is non-empty, otherwise "Unknown" |
| Common.IsProtectedUrl | background.js:190-193 | a URL is protected exactly when it starts with one of the four schemes chrome, chrome-extension, moz-extension or file followed by "://"; popup.js:45-48 applies the same test |
| Common.RoundedMinutes | background.js:73 | the result is the whole number of minutes nearest to the elapsed milliseconds, within half a minute either way |
| Common.SchemeEnd | background.js:190-193 | the first position at or after `i` where "://" starts, or none when no later position starts it |
| Common.SchemeOfPrefix | background.js:190-193 | a URL that starts with a colon-free `s` followed by "://" has scheme `s` |
| Common.ProtectedIffScheme | background.js:190-193 | the four-prefix denylist holds exactly when the URL's scheme is chrome, chrome-extension, moz-extension or file |
| Common.Appended | background.js:211-214 | a capture with an entry adds exactly that entry at the end and keeps every earlier entry; a capture without one leaves the log as it was |
| Common.LogStore.constructor | background.js:211 | a read of `logs` before anything is stored yields the default empty sequence |
| Common.LogStore.Append | popup.js:30-35 | the read-modify-write push leaves the old log followed by exactly the new entry |
| Common.LogStore.Clear | popup.js:190-191 | writing back an empty array empties the log |
| Background.WholeSecondsLeft | background.js:62 | below one second the result is 0; otherwise it is the whole number of seconds in `ms`, rounded down |
| Background.ComputeSnapshot | background.js:55-75 | when idle or without an end time, left and elapsed are 0; when running, elapsed + left = 1500, left is the whole seconds until `endTime`, and left is 0 exactly when less than a second remains; `totalMinutes` is the rounded minutes since `startTime`, or 0 without one |
| Background.SnapshotWithinSession | background.js:61-64 | while a session runs and the clock has not gone back past its start, 0 <= left <= 1500, 0 <= elapsed <= 1500, and left is 0 once the clock reaches `endTime` |
| Background.SecondsLeftNonIncreasing | background.js:62 | a later clock never shows more seconds left |
| Background.CaptureEntry | background.js:181-221 | an entry exists exactly when a tab resolves and has a URL; it carries the time stamp, the URL and the title or "Unknown"; it has a screenshot exactly when the URL is not protected and the capture succeeded, and then it is that capture |
| Background.Coordinator.constructor | background.js:10-16 | a fresh coordinator is idle, has no start or end time, has no intervals armed and has sent nothing |
| Background.Coordinator.GetTimerState | background.js:55-75 | the snapshot echoes the record; when idle it shows 0 left and 0 elapsed of 1500; when running it shows the whole seconds until `endTime`, and within the session left + elapsed = 1500 |
| Background.Coordinator.CaptureAndLog | background.js:181-221 | the log gains exactly `CaptureEntry` of the browser's answers, or nothing when there is none |
| Background.Coordinator.StartStudySession | background.js:109-140 | while running it changes nothing; from idle it sets start = now and end = now + 1500000, arms both intervals, sends nothing, and logs one capture |
| Background.Coordinator.StopStudySession | background.js:143-179 | while idle it changes nothing; while running it disarms both intervals, logs one capture, clears the end time, keeps the start time, and sends `timerStopped` with the idle snapshot and then the completion-sound request |
| Background.Coordinator.Tick | background.js:118-133 | each firing pushes `timerUpdate` with the current snapshot; when no whole second is left it then performs exactly the stop transition, otherwise it changes nothing else |
| Background.Coordinator.CaptureTick | background.js:137 | each firing of the capture interval logs one capture |
| Background.Coordinator.HandleMessage | background.js:33-53 | `startTimer` and `stopTimer` perform the start or stop transition and reply success with the resulting snapshot; `getTimerState` replies with the snapshot and changes nothing; any other action replies "Unknown action" and changes nothing |
| Background.CompletedSession | background.js:109-179 | on a fresh worker, a start followed by a tick with less than a second left ends idle, with exactly the opening and the closing entry logged, and the messages update, stopped and ring, in that order |
| Background.EarlyTick | background.js:118-133 | a tick while a whole second is left keeps the session running, logs nothing more, and reports between 1 and 1500 seconds left |
| Popup.DigitChar | popup.js:20-21 | the character is a decimal digit whose value is `d` |
| Popup.DecimalString | popup.js:20-21 | `String(n)` is a non-empty digit string denoting `n` with no leading zero; it has one character exactly when n < 10, and at most two when n < 100 |
| Popup.PadStart | popup.js:20-21 | the result has length max(|s|, width); it ends with `s` and every character before `s` is the fill |
| Popup.LeadingZero | popup.js:20-21 | a leading "0" changes neither whether a string is all digits nor the number it denotes |
| Popup.ZeroPadValue | popup.js:20-21 | padding a digit string with zeros keeps it all digits and keeps its value |
| Popup.TwoDigitField | popup.js:20-21 | the field has at least two digits, denotes `n`, and has exactly two digits when n < 100 |
| Popup.SecondsToMMSS | popup.js:19-23 | the clock has at least five characters, and exactly five below 6000 seconds; `ClockFormat` and `ClockRoundTrip` state its fields |
| Popup.ClockFields | popup.js:22 | joining minutes, ":" and a two-character seconds field puts the colon third from the end, and both fields can be read back |
| Popup.ClockFormat | popup.js:19-23 | the clock is the full minutes (at least two digits, never cut), a colon, and exactly two digits of seconds in 00..59; below 6000 seconds it is five characters with the colon at index 2 |
| Popup.ClockRoundTrip | popup.js:19-23 | reading the clock back as 60 * minutes + seconds gives the seconds it was made from |
| Popup.RecoveryEntry | popup.js:78-89 | the catch path saves an entry exactly when the second tab query finds a tab; the entry carries that tab's title and URL, the time stamp and no screenshot |
| Popup.PopupEntry | popup.js:38-94 | no tab gives no entry; a protected URL gives an entry without a screenshot and the raw title; a successful capture gives an entry with it; a failed query, a tab without a URL or a failed capture gives the recovery path's entry |
| Popup.ProtectedPageIgnoresCapture | popup.js:45-59 | on a protected page the screenshot answer is never consulted, and the entry exists without a screenshot |
| Popup.PopupController.constructor | popup.js:8-10 | a fresh popup has no intervals armed and no start stamp |
| Popup.PopupController.CaptureAndLog | popup.js:38-94 | the log gains exactly `PopupEntry` of the browser's answers, or nothing when there is none |
| Popup.PopupController.StartSession | popup.js:97-117 | the start stamp is now, the countdown starts at 1500 and is shown, both intervals are armed, and one capture is logged |
| Popup.PopupController.EndSession | popup.js:119-129 | both intervals are disarmed, the countdown and stamp are untouched, and one capture is logged |
| Popup.PopupController.Tick | popup.js:107-112 | each firing takes one second off and shows it; the session ends with one more capture exactly when the count reaches 0, and otherwise nothing else changes |
| Popup.PopupController.CaptureTick | popup.js:116 | each firing of the capture interval logs one capture |
| Popup.PopupController.BuildHtmlReport | popup.js:132-167 | the report gives the rounded minutes since the start stamp (0 without one) and the entry count; it has one block per entry in order, numbered from 1, with the formatted time, the title or "Unknown", the URL, and an image exactly when the screenshot is truthy |
| Popup.PopupController.ExportReport | popup.js:169-187 | an empty log gives no report; otherwise the report covers every entry, numbered in order |
| Popup.PopupController.ClearLogs | popup.js:190-194 | the log is empty afterwards |
| Popup.CountdownAfter | popup.js:104-111 | after k firings (1 <= k <= 1500) the popup shows 1500 - k and stays armed exactly while k < 1500; the 1500th firing ends the session with a second capture |
| CapturePipelines.PagesAgreeUpToTitle | popup.js:38-89 | on a tab with a URL, when a second tab query would answer like the first, the popup saves the worker's entry except that it keeps the tab's raw title |
| CapturePipelines.MissingUrlOnlyPopupLogs | popup.js:75-89 | on a tab without a URL the worker logs nothing, while the popup's recovery path saves an entry without URL or screenshot |
| Offscreen.LoopsRequested | offscreen.js:9 | a missing or zero loop count means 3; any other count is used as given |
| Offscreen.Initial | offscreen.js:3-5 | the document loads with count 0, target 3, nothing scheduled, nothing attached and nothing played |
| Offscreen.PlayNext | offscreen.js:24-49 | once the count reaches the target, or without an audio element, nothing changes; otherwise the sound starts once more with one more listener attached, and the count is unchanged |
| Offscreen.StartLoop | offscreen.js:18-22 | the target becomes `n` and the count 0 before the first attempt; the sound starts exactly when n > 0 and the audio element exists |
| Offscreen.TimerIds | offscreen.js:38-40 | exactly the ids from `first` up to `last` |
| Offscreen.Ended | offscreen.js:33-41 | every attached listener detaches, adds one to the count and schedules one retry with the next timer id; the remembered timeout is the last one scheduled, or the old one when no listener was attached; target and play count are unchanged |
| Offscreen.Fire | offscreen.js:38-40 | a retry that fires is no longer pending and leaves the count unchanged; below the target and with an audio element it starts the sound once more with one more listener, and otherwise nothing else changes |
| Offscreen.Stop | offscreen.js:51-62 | the remembered timeout is cancelled and forgotten, the sound pauses, and the count is forced to the target |
| Offscreen.Receive | offscreen.js:7-16 | `playCompletionSound` sets the target to the requested count and resets the count, and starts the sound when the target is positive and the audio element exists; `stopCompletionSound` forces the count to the target and forgets the timeout; any other action changes nothing |
| Offscreen.StoppedStaysSilent | offscreen.js:25-27 | after a stop, neither a play attempt nor a surviving retry starts the sound |
| Offscreen.RoundStep | offscreen.js:33-41 | in a single sequence each `ended` adds exactly 1 to the count, and the retry rings again exactly while the count stays below the target |
| Offscreen.RunOutRings | offscreen.js:24-41 | a single sequence runs on to the target, starting the sound once for each remaining ring, and ends silent |
| Offscreen.LoopRingsExactly | offscreen.js:18-41 | with an audio element, a loop of n rings started on a quiet document starts the sound exactly n times and ends with count n |
| Offscreen.StopCancelsRetry | offscreen.js:51-55 | a stop between a ring and its retry cancels the retry, silences the sound and forces the count to the target |
| Offscreen.StaleListenerCountsTwice | offscreen.js:33-43 | a stop during a ring leaves its listener attached, so the next loop's first `ended` adds 2 to the count |
| Offscreen.SoundLoop.constructor | offscreen.js:3-5 | the module variables start in the `Initial` state |
| Offscreen.SoundLoop.PlayNextSound | offscreen.js:24-49 | the new state is `PlayNext` of the old |
| Offscreen.SoundLoop.PlayCompletionSoundLoop | offscreen.js:18-22 | the new state is `StartLoop` of the old |
| Offscreen.SoundLoop.OnEnded | offscreen.js:33-41 | running the attached listeners one after another gives `Ended` of the old state |
| Offscreen.SoundLoop.FireTimeout | offscreen.js:38-40 | the new state is `Fire` of the old |
| Offscreen.SoundLoop.StopCompletionSound | offscreen.js:51-63 | the new state is `Stop` of the old |
| Offscreen.SoundLoop.OnMessage | offscreen.js:7-16 | `playCompletionSound` starts a loop of the requested length and `stopCompletionSound` stops; both reply, any other action neither changes the state nor replies |

## Left out

- Browser APIs are inputs or recorded effects, because their behaviour is not part of this code:
  - `chrome.tabs.query` and `captureVisibleTab` are the `Probe` inputs;
  - `chrome.storage.local` is `LogStore`;
  - `runtime.sendMessage` from the worker is the `outbox`;
  - `offscreen.createDocument` and the `offscreenDocumentCreated` flag are not modelled, and the completion-sound request is recorded as sent.
- Timer scheduling is explicit. `setInterval`, `setTimeout` and their clearing are armed flags or pending ids, and each firing is a method call (`Tick`, `CaptureTick`, `FireTimeout`, `OnEnded`).
- Asynchronous ordering is not modelled. Each `captureAndLog` completes within the call that starts it, although the code awaits the browser and appends later. Overlapping captures, and the lost appends of the read-modify-write on `logs`, are therefore not modelled either.
- Storage and message-delivery failures are not modelled; the code ignores them.
- `Date.now`, `toISOString` and `toLocaleString` are parameters, because date and locale formatting are library behaviour.
- Console output and the `onInstalled`/`onStartup` listeners are left out; they do nothing observable.
- DOM effects are left out: button `disabled` flags, status text, `alert`, the Blob download and its file name, and the `ended` listener wiring beyond its count.
- Audio playback is reduced to the play count and a playing flag. `audio.play`, `pause` and `currentTime` are not modelled, and a rejected `play()` is not modelled.
- The report is its block structure, not its markup. HTML layout and the absence of escaping are not modelled.
- Popup.SecondsToMMSS: takes a `nat` because the popup only passes it counts from 0 to 1500. `String(n)` for negative, fractional or very large (exponent-notation) numbers is not modelled.
- Popup.PopupController.StartSession: requires that no countdown runs. The start button is disabled while one does, so a second start is never dispatched.
- Background.Coordinator.Tick: requires the one-second interval to be armed, because only an armed interval fires.
- Popup.PopupController.Tick: requires the countdown to be armed, for the same reason.
- Offscreen.LoopsRequested: takes an optional integer. Non-numeric `loops` values, which JavaScript would also accept, are not modelled; the worker never sends a count.
- Offscreen.LoopRingsExactly: covers a single ringing sequence only. A stop during a ring leaves a stale listener, and a later loop then counts two per `ended` (`StaleListenerCountsTwice`), so the exact count does not hold across such a stop.
