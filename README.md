# Recording-session core, modelled in Dafny

The system is a desktop application (a Tauri back end in Rust and a Svelte
front end in TypeScript). It records the screen and the user's input while the
user works through a "quest", then uploads the recording for grading. This
project models the decision-heavy core of that application and proves
properties of the model:

- **`FFmpeg`** (`ffmpeg.dfy`) models the FFmpeg screen-capture recorder:
  - the argument list it launches FFmpeg with;
  - the diagnosis of a process that exits immediately;
  - the one-slot process handle, which `stop` takes before it checks the video file on disk.

  The process and the disk are abstract:
  `Launch`/`ExitProbe` say what spawning and the liveness probe report, and
  `FileSystem` maps each existing path to its size.
- **`Input`** (`input.dfy`) models the input listener:
  - the mapping from OS hook events and raw-device events to `{event, data}` records;
  - the log entry written for each record;
  - the listener's running flag and thread list, and the process-wide listener slot;
  - what a listener thread does with the events it observes, including a stop that arrives while it runs.
- **`Record`** (`record.dfy`) models the recording session, a state machine over a recorder cell and a logger cell:
  - the single-active-session guard;
  - display choice (primary, else first);
  - session file names;
  - the recorder chosen for each platform;
  - the ordered start and stop sequences, recorded as a trace of steps whose `Status` entries are the "recording-status" events;
  - logging, which does nothing when no logger is open.
- **`Forge`** (`forge.dfy`) models the app/task catalogue the client shows:
  - the history built from completed recordings;
  - scores attached from submissions;
  - the merge with the apps the API lists;
  - the "every seen app plus a few unseen ones" selection;
  - the limits on the gym list.

  A JavaScript `Map` is a map plus its key insertion order.
- **`UploadManager`** (`uploads.dfy`) models the upload queue:
  - per-recording status entries and their fixed transitions;
  - the pollers that follow a submission;
  - the delayed removal of completed entries;
  - the "any upload active" predicate.

  Timer callbacks are explicit steps. A poller's firing (`PollFire`) and the reply to its status query (`PollAnswer`) are separate steps, so other writes can come between them. `PollTick` is a firing answered at once, and `FireRemoval` is the delayed removal.
- **`Text`** (`text.dfy`) and **`Wrappers`** (`wrappers.dfy`) are support modules:
  - decimal rendering, with its round trip;
  - zero-padded fields;
  - substring search;
  - JavaScript `split` pieces;
  - a strict order on strings;
  - `Option`, `Result` and `Outcome`.

Where the source's own comments and messages and its code disagree, the model follows the code. The one exception is the row under "## Findings": there the model carries the corrected behaviour, next to a member that models the code as written. The code is followed in these cases:

- `stop_recording` announces "stopped" only when every step succeeded. A failing poller stop returns before the recorder is touched and leaves it held.
- A stop while idle still announces "stopping" and "stopped".
- An error after the recorder started leaves the recorder held. These errors are a failing logger creation, a failing input-listener start or a failing poller start.
- "recording" is announced before the platform check. An unsupported platform therefore fails after that announcement.

## Model

| member | source | states |
|---|---|---|
| Text.NatToDecimal | src-tauri/src/ffmpeg.rs:342-344 | Rust's decimal rendering of an unsigned number: non-empty, all digits, no leading zero, one digit exactly below 10 |
| Text.DecimalRoundTrip | src-tauri/src/ffmpeg.rs:342-344 | reading the decimal text of n back gives n |
| Text.DecimalInjective | src-tauri/src/ffmpeg.rs:342-344 | distinct numbers render to distinct texts |
| Text.Padded | src-tauri/src/record.rs:58 | a chrono `%m`/`%d`/`%H`/`%M`/`%S`/`%Y` field has exactly its width, all digits |
| Text.PaddedRoundTrip | src-tauri/src/record.rs:58 | a padded field reads back as its value when the value fits the width |
| Text.IndexFrom | src-tauri/src/ffmpeg.rs:464-466 | the first occurrence of a pattern at or after a position, or none when there is none |
| Text.SplitFirst | src/lib/api/forge.ts:46 | `split(sep)[0]` is a prefix of the text; no `sep` starts at any position before its end, so it is the part before the FIRST `sep`; when shorter than the text, `sep` follows it; when it is the whole text, the text holds no `sep` |
| Text.SplitSecond | src/lib/api/forge.ts:46 | `split(sep)[1]` is undefined exactly when `sep` does not occur |
| Text.LessIrreflexive | src/lib/api/forge.ts:66 | the string order used for sorting never ranks a string before itself |
| Text.LessTransitive | src/lib/api/forge.ts:66 | the string order is transitive |
| Text.LessTotal | src/lib/api/forge.ts:66 | any two distinct strings are ordered one way or the other |
| FFmpeg.FileSystem.constructor | src-tauri/src/ffmpeg.rs:548-561 | the disk seen by the recorder holds the files and sizes given |
| FFmpeg.PlatformFlags | src-tauri/src/ffmpeg.rs:347-363 | `gdigrab` adds the mouse/offset/probe/queue flags, `avfoundation` adds `-capture_cursor 1`, any other format adds nothing |
| FFmpeg.InputArgs | src-tauri/src/ffmpeg.rs:336-380 | with format and device: `-f F -video_size WxH -framerate R`, the platform flags, `-i D`; otherwise the rgb24 raw-video block reading `-` |
| FFmpeg.CaptureArgs | src-tauri/src/ffmpeg.rs:334-400 | with format and device: `-f F -video_size WxH -framerate R`, the platform flags, `-i D`; otherwise the rgb24 raw-video block reading `-`; always the fixed encoder block and then the output path last |
| FFmpeg.VideoSizeInjective | src-tauri/src/ffmpeg.rs:342 | `WxH` determines width and height |
| FFmpeg.CaptureArgsDetermineInputs | src-tauri/src/ffmpeg.rs:334-400 | the argument list determines format, device, size, frame rate and output path |
| FFmpeg.ImmediateExitMessage | src-tauri/src/ffmpeg.rs:451-474 | the message starts with the exit status; it is exactly that when the error text is empty or unreadable; otherwise it carries the error text right after the status |
| FFmpeg.ImmediateExitHints | src-tauri/src/ffmpeg.rs:463-472 | on Windows the missing-device hint wins over the permission hint, and output with neither phrase gets no hint; no other platform gets a hint |
| FFmpeg.AsWrittenExitMessageOmitsStderr | src-tauri/src/ffmpeg.rs:434-474 | as written, the immediate-exit message is the status alone, whatever FFmpeg printed |
| FFmpeg.AsWrittenPermissionHintLost | src-tauri/src/ffmpeg.rs:455-470 | as written, a Windows "Permission denied" exit loses both the error text and the administrator hint |
| FFmpeg.ArtifactVerdict | src-tauri/src/ffmpeg.rs:547-569 | stop succeeds iff the output exists, its size is readable and non-zero; a missing file and an empty file give their own errors |
| FFmpeg.FFmpegRecorder.NewWithInput | src-tauri/src/ffmpeg.rs:297-322 | a new recorder holds no process and has format and device both set |
| FFmpeg.FFmpegRecorder.BuildArgs | src-tauri/src/ffmpeg.rs:334-400 | the block-by-block argument building yields `CaptureArgs` of the recorder's settings |
| FFmpeg.FFmpegRecorder.Start | src-tauri/src/ffmpeg.rs:324-523 | succeeds iff the binary is set, the spawn works, the process is still running and (on Windows) the output directory is usable; only then is the process retained with the capture arguments; each error message; an immediate exit removes the partial output file and reports the status with the error text and hints; corrected diagnosis (see Findings); the result is `StartOutcome` of the same inputs and the files are `FilesAfterStart` |
| FFmpeg.FilesAfterStart | src-tauri/src/ffmpeg.rs:476-484 | only the output file can go: every other file keeps its size, and the output survives unless the process exited at once |
| FFmpeg.StartOutcome | src-tauri/src/ffmpeg.rs:324-523 | what a start reports: success iff the binary is set, the spawn works, the process is still running and (on Windows) the output directory is usable; otherwise the first failing check's message |
| FFmpeg.FileSystem.Remove | src-tauri/src/ffmpeg.rs:476-484 | the partial output file is gone afterwards, every other file kept |
| FFmpeg.FFmpegRecorder.Retain | src-tauri/src/ffmpeg.rs:489-516 | on Windows a directory that cannot be created, then one that cannot be written, gives its error; the process is retained iff the checks pass |
| FFmpeg.FFmpegRecorder.Stop | src-tauri/src/ffmpeg.rs:525-580 | the slot is empty afterwards; with no process the result is Ok; otherwise the artifact verdict |
| FFmpeg.StopTwice | src-tauri/src/ffmpeg.rs:527 | a second stop finds no process and succeeds |
| Input.ToLogEntry | src-tauri/src/core/input.rs:60-66 | a log entry has exactly the keys event, data and time, with event and data copied unchanged |
| Input.EventOfLogEntry | src-tauri/src/core/input.rs:60-66 | reading a record out of an entry takes its data field |
| Input.LogEntryRoundTrip | src-tauri/src/core/input.rs:60-66 | the entry gives back the record it was made from |
| Input.FromHook | src-tauri/src/core/input.rs:206-247 | every hook event yields a well-formed record: key press/release → keydown/keyup `{key}`, button → mousedown/mouseup `{button}`, wheel → mousewheel `{delta}`, move → mousemove `{x, y}`, each kind its own tag |
| Input.HookRoundTrip | src-tauri/src/core/input.rs:231-239 | the record keeps everything about a hook event except the horizontal wheel delta |
| Input.FromHookInjective | src-tauri/src/core/input.rs:206-247 | two hook events give the same record exactly when they differ at most in the horizontal wheel delta |
| Input.FromRaw | src-tauri/src/core/input.rs:95-157 | a raw event yields a record iff it is one of the recognised kinds; keyboard, mouse-button, wheel, mousedelta `{x, y}` with the device's deltas, joystick button `{id, button}` and axis `{id, axis, value}` payloads |
| Input.MousePositionOf | src-tauri/src/core/input.rs:174-186 | the Windows companion hook handles only mouse moves, as the unified mapping does |
| Input.WorkersFor | src-tauri/src/core/input.rs:83-268 | Windows runs two listener threads, every other platform one |
| Input.InputListener.constructor | src-tauri/src/core/input.rs:21-26 | a new listener is running with no threads |
| Input.InputListener.Stop | src-tauri/src/core/input.rs:28-32 | stop clears the flag and forgets the threads without joining; repeating it changes nothing further |
| Input.InputListener.AddThread | src-tauri/src/core/input.rs:169 | a spawned thread's handle is appended, the flag untouched |
| Input.InputService.constructor | src-tauri/src/core/input.rs:42-44 | the listener slot starts empty |
| Input.InputService.StartInputListener | src-tauri/src/core/input.rs:69-272 | returns Ok; with a listener installed nothing changes; otherwise a fresh running listener with the platform's threads is installed |
| Input.InputService.StopInputListener | src-tauri/src/core/input.rs:274-282 | returns Ok and leaves the slot empty whether or not a listener existed; a listener it held is stopped |
| Input.Step | src-tauri/src/core/input.rs:93-167 | one tick's record: the decoded event with its time, when the flag is set and the tick is a delivery the mapping recognises; nothing otherwise |
| Input.Handled | src-tauri/src/core/input.rs:93-167 | the records a thread handles: each recognised delivery while the flag is set, in order, and nothing after a stop request; its laws are the lemmas NothingHandledWhenStopped, NothingAfterStop, HandledWhileRunning and EveryHookEventHandled |
| Input.Entries | src-tauri/src/core/input.rs:164 | one log entry per handled record, in order, with the record's time |
| Input.Events | src-tauri/src/core/input.rs:160 | one emitted record per handled record, in order |
| Input.NothingHandledWhenStopped | src-tauri/src/core/input.rs:189-192 | a thread whose flag is clear handles nothing, whatever arrives |
| Input.NothingAfterStop | src-tauri/src/core/input.rs:93 | nothing delivered after a stop request is handled |
| Input.HandledWhileRunning | src-tauri/src/core/input.rs:93-167 | while the flag stays set, handling splits over any cut of the event stream |
| Input.EveryHookEventHandled | src-tauri/src/core/input.rs:249-255 | with the unified hook, N events delivered while running give N records, in order, each with its time |
| Input.WorkerTick | src-tauri/src/core/input.rs:93-167 | one tick: a stop request clears the flag and handles nothing; a delivered event is handled as the mapping says, and only while the flag is set; a stop request also forgets the thread handles, a delivery leaves them |
| Input.RunWorker | src-tauri/src/core/input.rs:93-167 | a thread logs exactly the entries of the records it handles and emits them when it publishes; its flag ends clear iff a stop arrived; the thread handles are forgotten iff a stop arrived |
| Record.FindPrimary | src-tauri/src/record.rs:84-86 | the index of the first primary display, or none when no display is primary |
| Record.ChooseDisplay | src-tauri/src/record.rs:84-88 | none iff there is no display; the first primary display if any, else the first display |
| Record.Timestamp | src-tauri/src/record.rs:58 | `%Y%m%d_%H%M%S` has 15 characters, digits around `_`, when the time fits the fields |
| Record.TimestampRoundTrip | src-tauri/src/record.rs:58 | the timestamp determines the time it was taken |
| Record.VideoPath | src-tauri/src/record.rs:78 | `<recordings>/recording_<timestamp>.mp4` |
| Record.VideoPathNamesStartTime | src-tauri/src/record.rs:53-78 | the video path names the time the session started |
| Record.PlanRecorder | src-tauri/src/record.rs:100-125 | macOS gets the native recorder, Windows FFmpeg `gdigrab`/`desktop`, Linux `x11grab`/`:0.0`, anything else "Unsupported platform" |
| Record.MacOSRecorder.constructor | src-tauri/src/record.rs:101 | a native recorder for the video path, not capturing |
| Record.MacOSRecorder.Start | src-tauri/src/record.rs:18 | the native recorder reports its own start result and captures only on success |
| Record.MacOSRecorder.Stop | src-tauri/src/record.rs:26 | the native recorder reports its own stop result and stops capturing |
| Record.Logger.constructor | src-tauri/src/record.rs:133 | a new logger has logged nothing |
| Record.Logger.LogEvent | src-tauri/src/record.rs:190 | returns what the file write reports; the input entry is appended exactly when the write passes |
| Record.Logger.LogFFmpeg | src-tauri/src/record.rs:199 | returns what the file write reports; the output line is appended exactly when the write passes |
| Record.InitFFmpeg | src-tauri/src/record.rs:74 | the binary path is kept once set, otherwise resolved |
| Record.Preflight | src-tauri/src/record.rs:52-88 | the checks before "recording", in the code's order: binary, data directory, recordings directory, display query, a display; Ok iff all pass; on Ok the display is the one the primary-else-first choice picks, the binary path is the one the FFmpeg initialisation returned, and the video path is the session's; each failure gives its own message, with the underlying error appended: the initialisation error, "Failed to get app data directory: ", "Failed to create recordings directory: ", "Failed to get display info: ", and "No display found" for an empty list |
| Record.LaunchRecorder | src-tauri/src/record.rs:100-127 | the created recorder carries the display size, 30 fps, the video path and the platform's format and device, and has started iff its start succeeded; the start's result is the planned recorder's own report (`StartReport`: the native result, or the FFmpeg start's outcome with its error message), and the files are those that start leaves (an immediate FFmpeg exit removes the partial output) |
| Record.StartReport | src-tauri/src/record.rs:100-127 | the planned recorder's start report passes iff the recorder comes up |
| Record.StartFiles | src-tauri/src/record.rs:127 | the files the planned start leaves: every file but the video keeps its size; the video survives unless an FFmpeg start exited at once |
| Record.TailSteps | src-tauri/src/record.rs:131-142 | the steps after the recorder is held: the input listener starts iff a logger was open or one could be created; a logger is opened iff there was none and creation passed; polling starts only when the input listener does |
| Record.StopSteps | src-tauri/src/record.rs:146-185 | a stop whose poller stopped: "stopping" first, the recorder stopped iff one was held, "stopped" iff the stop succeeded |
| Record.HaltRecorder | src-tauri/src/record.rs:22-28 | the recorder's own stop result, and it no longer captures |
| Record.Session.constructor | src-tauri/src/record.rs:43-46 | no recorder, no logger, nothing announced |
| Record.Session.StartRecording | src-tauri/src/record.rs:63-143 | "Recording already in progress" with nothing changed while a recorder is held; a failed check changes nothing; then the objectives reset and "recording" is announced; a recorder that fails to start gives back its own error (`StartReport`) with the slot empty, and the files are those its start leaves; the recorder is held only once started, configured as planned; the logger is created only if none exists; then input and polling start, in that order |
| Record.Session.Prepare | src-tauri/src/record.rs:74-88 | the preflight result, with the binary path remembered once resolved |
| Record.Session.BeginCapture | src-tauri/src/record.rs:100-140 | an unsupported platform gives "Unsupported platform" with the files untouched; a recorder that fails to start gives back its own error (`StartReport`) and leaves the slot empty; the files are those the start leaves; otherwise the recorder is held and the start finishes |
| Record.Session.FinishStart | src-tauri/src/record.rs:131-142 | an existing logger is kept, a missing one is created (or its error returned), then the input listener and the poller start |
| Record.Session.StopRecording | src-tauri/src/record.rs:146-185 | "stopping", then logger cleared, input stopped, polling stopped, and the recorder taken and stopped last; the slot is empty afterwards even if that stop fails; "stopped" only on success |
| Record.Session.ReleaseRecorder | src-tauri/src/record.rs:169-184 | the recorder, if any, is taken and stopped; the slot is empty afterwards even if that stop fails; "stopped" only on success |
| Record.Session.LogInput | src-tauri/src/record.rs:187-194 | with no logger open, Ok and nothing logged; otherwise the write's own result, passed on as `?` does, with the entry appended only when the write passes |
| Record.Session.LogFFmpeg | src-tauri/src/record.rs:196-203 | with no logger open, Ok and nothing logged; otherwise the write's own result, passed on as `?` does, with the line appended only when the write passes |
| Record.StartTwice | src-tauri/src/record.rs:68-71 | after a successful start, a second start is refused with "Recording already in progress" and the session still holds the recorder the first start put there |
| Forge.Values | src/lib/api/forge.ts:66 | `Array.from(map.values())` lists the entries in insertion order |
| Forge.SetApp | src/lib/api/forge.ts:44 | `map.set` puts a new key last and keeps an existing key's place |
| Forge.DomainOf | src/lib/api/forge.ts:46 | the domain is undefined (JavaScript throws) iff the URL has no `domain=`; it never holds `&` |
| Forge.AddRecording | src/lib/api/forge.ts:40-62 | one recording's effect: it fails iff it is a completed recording with a quest whose app is new and whose icon URL has no `domain=`; otherwise the keys gain at most that app and every other app is untouched |
| Forge.History | src/lib/api/forge.ts:36-63 | the map built from the recordings in order; its laws are HistoryIsShaped, HistoryKeys, HistoryFails, HistoryHasTitles, HistoryTasksRecorded and HistoryErrSticks |
| Forge.DomainOfFavicon | src/lib/api/forge.ts:46 | `<prefix>domain=<d>` followed by nothing or `&...` yields `d` |
| Forge.FirstQuestFirst | src/lib/api/forge.ts:40-43 | the quest of an app is None iff no completed recording with a quest opens that app; otherwise it is the quest of the FIRST such recording: an earlier recording of the same app never wins |
| Forge.HistoryIsShaped | src/lib/api/forge.ts:43-61 | every history app is seen, with empty description, categories and pool, unique prompts, and tasks that are completed with a recording id and no score |
| Forge.HistoryKeys | src/lib/api/forge.ts:41-53 | one app per app name of a completed recording, with the domain of the first such recording's icon URL |
| Forge.HistoryFails | src/lib/api/forge.ts:43-46 | the history throws exactly when an app is first met on an icon URL without `domain=` |
| Forge.HistoryHasTitles | src/lib/api/forge.ts:54-61 | every completed recording's title is a task of its app |
| Forge.HistoryTasksRecorded | src/lib/api/forge.ts:54-61 | every task of the history comes from a completed recording of that app, with that title and recording id |
| Forge.HistoryErrSticks | src/lib/api/forge.ts:40-63 | once the history throws, later recordings do not matter |
| Forge.InsertByName | src/lib/api/forge.ts:66 | inserting adds exactly one app |
| Forge.InsertSorted | src/lib/api/forge.ts:66 | inserting into a name-sorted list keeps it sorted |
| Forge.SortByName | src/lib/api/forge.ts:66 | the sort is a permutation and sorted by name |
| Forge.HistoryListNames | src/lib/api/forge.ts:66 | the sorted list names exactly the apps that have a completed recording |
| Forge.AppsForHistory | src/lib/api/forge.ts:34-67 | fails iff the history throws; otherwise the history apps sorted by name, one per recorded app |
| Forge.FindSubmission | src/lib/api/forge.ts:86 | the first submission whose metadata id is the recording id |
| Forge.AttachScore | src/lib/api/forge.ts:84-92 | only the score changes, only for a task with a recording id, and only to a truthy clamped score of the first matching submission |
| Forge.ScoredApp | src/lib/api/forge.ts:84-92 | every task gets its score attached, nothing else changes |
| Forge.AddApiTasks | src/lib/api/forge.ts:109-116 | the existing tasks stay first, unchanged; every task after them is a not-completed copy of an API task whose prompt the existing tasks lack |
| Forge.AddApiTasksUnique | src/lib/api/forge.ts:109-116 | prompts stay unique and every API prompt ends up present |
| Forge.MergeApiApp | src/lib/api/forge.ts:101-128 | one API app merged: the keys gain its name, every other app is untouched, and the map stays consistent |
| Forge.MergeAll | src/lib/api/forge.ts:101-128 | the API apps merged one after another in the API's order; its laws are MergeOrdered, MergeKept, MergeAdded, MergeOverwrites and MergeUntouched |
| Forge.LastNamed | src/lib/api/forge.ts:101-102 | the last API app of a name, or none |
| Forge.MergeOrdered | src/lib/api/forge.ts:101-128 | merging keeps the map consistent, extends its order, and its keys become the old keys plus the API names |
| Forge.MergeKept | src/lib/api/forge.ts:103-116 | an existing app keeps its seen flag, pool and tasks as a prefix, and gains only tasks not completed |
| Forge.MergeAdded | src/lib/api/forge.ts:117-126 | an app the merge adds is unseen with every task not completed |
| Forge.MergeOverwrites | src/lib/api/forge.ts:105-107 | an app the API names takes the API's domain, description and categories |
| Forge.MergeUntouched | src/lib/api/forge.ts:101-128 | an app the API does not name is left as it was |
| Forge.MergeApiApps | src/lib/api/forge.ts:101-128 | the nested merge loops compute the merge |
| Forge.SeenApps | src/lib/api/forge.ts:143 | an app is kept iff it is in the input and seen; the result is no longer than the input |
| Forge.UnseenApps | src/lib/api/forge.ts:144 | an app is kept iff it is in the input and not seen; the result is no longer than the input |
| Forge.FiltersKeepOrder | src/lib/api/forge.ts:143-144 | both filters distribute over concatenation, so they keep the input's order |
| Forge.FilterSingle | src/lib/api/forge.ts:143-144 | a single app is kept by the filter that matches its seen flag and dropped by the other |
| Forge.SeenUnseenSplit | src/lib/api/forge.ts:143-144 | the two filters split the list |
| Forge.UnseenQuota | src/lib/api/forge.ts:153 | at most two unseen apps, none past three apps in all, two when at most one app is seen |
| Forge.TakeShuffled | src/lib/api/forge.ts:23 | a shuffled prefix has the length of the limit or of the list, and draws only from the list |
| Forge.SelectApps | src/lib/api/forge.ts:138-155 | nothing from nothing; otherwise every seen app, in order, then exactly min(quota, unseen count) unseen ones |
| Forge.SeenSelected | src/lib/api/forge.ts:147 | a selection keeps every seen app |
| Forge.SelectedListed | src/lib/api/forge.ts:143-155 | a selection lists only apps it was given |
| Forge.ValuesAreEntries | src/lib/api/forge.ts:135 | the values of the map are exactly its entries |
| Forge.HistoryListSeen | src/lib/api/forge.ts:51 | every app of the history list is seen |
| Forge.ScoredCatalogue | src/lib/api/forge.ts:82-94 | writing the scored history apps one by one keeps the map's key order consistent with its keys |
| Forge.ScoredKeys | src/lib/api/forge.ts:82-94 | the scored map's keys are exactly the names of the history's apps |
| Forge.ScoredEntries | src/lib/api/forge.ts:82-94 | each entry is the LAST history app of that name with its scores attached, as repeated `set` on a `Map` leaves it |
| Forge.HistoryCatalogue | src/lib/api/forge.ts:82-94 | the loop builds exactly the scored map; its keys are the history's names and every entry is seen |
| Forge.SkillsMap | src/lib/api/forge.ts:69-137 | the scored history merged with the API apps is a consistent map |
| Forge.AppsForSkills | src/lib/api/forge.ts:69-158 | fails iff the history throws or the wallet's submission query fails; on Ok every listed app is the merged map's entry for its name (with its scores and merged tasks); every recorded app is listed; every listed app was recorded or is an unseen API app; an empty map gives an empty list; otherwise the seen apps come first, in order, the apps after them are drawn from the map's unseen apps, and the count is the seen apps plus the unseen quota capped by the unseen apps available |
| Forge.ChosenEntries | src/lib/api/forge.ts:143-155 | every app the selection lists is the map's own entry for its name |
| Forge.SkillsListing | src/lib/api/forge.ts:82-155 | the facts behind the skills list |
| Forge.AppsForGym | src/lib/api/forge.ts:9-32 | fails iff the fetch gave no apps: a rejected fetch or an unreadable body passes on its own error, a response that is not ok raises "Failed to fetch apps"; with a pool id the apps are returned unchanged; otherwise at most six apps drawn from the list, each otherwise unchanged with at most three of its own tasks |
| UploadManager.HasActiveUploads | src/lib/uploadManager.ts:18-23 | some entry of the queue is queued, uploading or processing; its laws are ActiveAfterPut and ActiveAfterDelete |
| UploadManager.OrDefault | src/lib/uploadManager.ts:70 | `error \|\| fallback` |
| UploadManager.UploadSteps | src/lib/uploadManager.ts:116-171 | the writes made for one upload: queued, uploading 0, then 30 and 60, then processing 80 with the submission id; a throw while zipping stops after the third write with the failed entry and the thrown message (default "Failed to upload recording"); a throw from the upload gives the same failed entry as the fifth write; every entry is one the queue can hold |
| UploadManager.PolledEntry | src/lib/uploadManager.ts:45-98 | from the entry or, when none, a queued default: completed → progress 100, error kept; failed → the reported error or "Upload failed", progress kept; processing → progress 50, error kept; a throw → failed with the thrown message or "Failed to check status", progress kept; any other status leaves the entry alone; submission id and name are kept |
| UploadManager.UploadManager.constructor | src/lib/uploadManager.ts:7-26 | empty queue, no pollers |
| UploadManager.UploadManager.Put | src/lib/uploadManager.ts:116-119 | one entry written |
| UploadManager.UploadManager.Delete | src/lib/uploadManager.ts:176-180 | one entry deleted |
| UploadManager.UploadManager.PollSubmissionStatus | src/lib/uploadManager.ts:36-41 | at most one poller per recording: starting one replaces the previous |
| UploadManager.UploadManager.HandleUpload | src/lib/uploadManager.ts:103-172 | without a wallet the entry only fails with "Please connect your wallet first"; otherwise the upload steps in order, and a poller once a submission id came back; no other entry touched |
| UploadManager.UploadManager.Upload | src/lib/uploadManager.ts:115-135 | with a wallet: queued, uploading at 0, and a failed entry if zipping throws, else the rest of the steps |
| UploadManager.UploadManager.Begin | src/lib/uploadManager.ts:115-126 | queued, then uploading at 0, nothing else changed |
| UploadManager.UploadManager.Send | src/lib/uploadManager.ts:140-171 | uploading at 30 and 60, then a failed entry on a throw, or processing at 80 with the submission id and a poller on it |
| UploadManager.UploadManager.PollFire | src/lib/uploadManager.ts:41-43 | a running poller sends its query, which is then in flight; nothing else changes |
| UploadManager.UploadManager.PollAnswer | src/lib/uploadManager.ts:43-98 | a reply to a query in flight is acted on whatever happened meanwhile: the report rewrites whatever entry is there now, a final report drops whatever poller the recording has now, completed schedules the removal; no other entry touched; with no query in flight nothing changes |
| UploadManager.UploadManager.PollTick | src/lib/uploadManager.ts:41-99 | a firing answered at once: a running poller rewrites its entry by the report; a final report stops the poller; completed schedules the removal; no other entry touched; nothing stays in flight |
| UploadManager.ReplyAfterRemoval | src/lib/uploadManager.ts:76-84 | a "processing" reply after the recording was removed re-creates a nameless processing entry with no poller left, so uploads stay active |
| UploadManager.ReplyAfterReplacement | src/lib/uploadManager.ts:36-55 | a completed reply to a replaced poller's query removes the poller that replaced it |
| UploadManager.UploadManager.FireRemoval | src/lib/uploadManager.ts:58-64 | the delayed removal deletes exactly that entry |
| UploadManager.UploadManager.RemoveFromQueue | src/lib/uploadManager.ts:175-187 | deletes exactly that key and its poller, others unchanged; a query already in flight stays in flight |
| UploadManager.UploadManager.CleanupIntervals | src/lib/uploadManager.ts:29-33 | every poller is cleared while its handle stays listed |
| UploadManager.UploadEndsActiveIffSubmitted | src/lib/uploadManager.ts:18-23 | an upload leaves its entry active iff a submission id came back |
| UploadManager.ActiveAfterPut | src/lib/uploadManager.ts:18-23 | writing an active entry makes uploads active; writing a settled one into an inactive queue keeps it inactive |
| UploadManager.ActiveAfterDelete | src/lib/uploadManager.ts:18-23 | removing an entry ends activity only if that entry was the active one |
| UploadManager.UploadAndComplete | src/lib/uploadManager.ts:103-161 | upload, a completed grade and the removal: the entry and its poller are gone, other entries untouched |

## Left out

- `init_ffmpeg`, `download_file` and `get_temp_dir` (downloading, unpacking and locating the FFmpeg binary): the model takes the resolved path, or the resolution error, as an input.
- Subprocess behaviour is left out: the spawn, the `try_wait` race, the stdout/stderr reader threads, the `q` sent on stdin, the 2-second sleep and `wait_with_output`. What they report is an input (`Launch`, `ExitProbe`, the file sizes).
- FFmpeg.FFmpegRecorder.Start: a failure to remove the partial output file is only logged by the recorder; the model always removes it.
- FFmpeg.FFmpegRecorder.Start: the Windows `.test_write` probe file is not modelled as a file; only the write error is.
- FFmpeg.FFmpegRecorder.Start: on the Windows directory errors and on a probe error, the spawned process is dropped without being killed; the model does not track the orphaned process.
- Paths are strings joined with `/`: `PathBuf::join`, `parent()` (always present for these paths) and `to_str().unwrap()` are not modelled.
- Threads, `rdev::listen`, the `multiinput` queue, `Arc<AtomicBool>` and `Mutex` semantics (including lock poisoning) are left out. A thread is the sequence of ticks it observes, and the shared flag is the listener's `running` field.
- Input.FromHook: `delta_y as f32` and mouse coordinates are copied as opaque integers; the float conversion is not modelled.
- The key and button debug names (`format!("{:?}")`) are given strings.
- `chrono::Local::now` and `timestamp_millis` are given values.
- Record.Timestamp: only times whose fields fit their widths are proved to round-trip; years of five or more digits follow chrono's `+` sign rule, but nothing is proved about them.
- Tauri `emit` is an append to the session trace.
- The `Logger` file, the accessibility-tree poller and the macOS recorder are collaborators whose internals are not part of this model. They appear as the `Outcome`s they report; a logger write's report is an input to `LogInput` and `LogFFmpeg`.
- Record.Logger.LogEvent: what a failing write leaves in the file is not known to the model; it records nothing for that write.
- The display query is an input.
- `MacOSScreenRecorder` is not part of this model beyond its start and stop results.
- forge.ts network wrappers (`listPools`, `createPool`, `updatePool`, `getBalance`, `getReward`, `uploadRecording`, `getSubmissionStatus`, `listSubmissions`, `refreshPool`) only call the HTTP API. Their results are inputs.
- The request URL of `getAppsForGym` is not modelled; only the pool-id test is.
- Forge.SortByName: `localeCompare` is modelled as code-point order; locale collation rules are not modelled.
- Forge.TakeShuffled: `Math.random` shuffles are an arbitrary permutation; the model proves bounds and membership but says nothing about the order or its distribution.
- ForgeApp and ForgeTask fields that the core never reads are left out.
- A thrown `fetch` and a non-ok response on the API merge are both "no API apps". Either way the merge is skipped.
- A missing wallet address is the empty string. `null` and `""` are both falsy where the source tests the wallet.
- The Svelte store is a map plus the list of writes its subscribers see. `setInterval`/`setTimeout` become the explicit steps `PollFire`, `PollAnswer` and `FireRemoval`.
- Interleavings of the asynchronous `handleUpload` with other store writes are left out, as is a wallet change between its two reads. A poller's query and its reply are modelled as separate steps.
- UploadManager.UploadManager.PollAnswer: the console message "Failed to get submission status" is logging only and is left out.
- `src/lib/api/core/client.ts`, `src/lib/gym.ts` and `src/lib/types/gym.ts` hold HTTP plumbing and type declarations only.

## Findings

| source | as written | input that shows it | evidently intended | confidence | as-written member | corrected member |
|---|---|---|---|---|---|---|
| src-tauri/src/ffmpeg.rs:434-474 | the stderr reader thread takes `process.stderr` at line 434, so the second `take()` at line 455 is always `None` | on Windows, FFmpeg exits at once with status "exit code: 1" after printing "Permission denied" | the message carries FFmpeg's error output and, on Windows, the matching hint | not executed | FFmpeg.AsWrittenPermissionHintLost | FFmpeg.FFmpegRecorder.Start |
