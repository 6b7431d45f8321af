/** The recording session: the single-active-session guard, the choice of
    display and of recorder, the session's file names, the ordered start and
    stop sequences over the recorder and logger cells, and logging that does
    nothing when no logger is open.  Collaborators whose internals are not
    part of this model (binary resolution, the logger's file, the
    accessibility poller, the macOS recorder, display and clock queries)
    appear as the results they report. */
module Record {
  import opened Wrappers
  import opened Text
  import FFmpeg
  import Input

  datatype Platform = MacOS | Windows | Linux | OtherPlatform

  // ---------------------------------------------------------------------
  // Display selection.

  datatype Display = Display(width: FFmpeg.U32, height: FFmpeg.U32, isPrimary: bool)

  /** The index of the first primary display. */
  function FindPrimary(displays: seq<Display>, from: nat): (r: Option<nat>)
    ensures r.Some? ==> from <= r.value < |displays| && displays[r.value].isPrimary
    ensures r.Some? ==> forall j :: from <= j < r.value ==> !displays[j].isPrimary
    ensures r.None? ==> forall j :: from <= j < |displays| ==> !displays[j].isPrimary
    decreases |displays| - from
  {
    if from >= |displays| then None
    else if displays[from].isPrimary then Some(from)
    else FindPrimary(displays, from + 1)
  }

  /** The display to capture: the first primary one, else the first one;
      none when there is no display. */
  function ChooseDisplay(displays: seq<Display>): (r: Option<Display>)
    ensures r.None? <==> displays == []
    ensures r.Some? ==> r.value in displays
    ensures (exists i :: 0 <= i < |displays| && displays[i].isPrimary) ==>
      exists i :: 0 <= i < |displays| && displays[i] == r.value && r.value.isPrimary
        && forall j :: 0 <= j < i ==> !displays[j].isPrimary
    ensures displays != [] && (forall i :: 0 <= i < |displays| ==> !displays[i].isPrimary) ==>
      r == Some(displays[0])
  {
    match FindPrimary(displays, 0)
    case Some(i) => Some(displays[i])
    case None => if displays == [] then None else Some(displays[0])
  }

  // ---------------------------------------------------------------------
  // Session file names.

  /** Local wall-clock time, as the clock reports it. */
  datatype DateTime = DateTime(year: nat, month: nat, day: nat, hour: nat, minute: nat, second: nat)

  /** The time fits the fixed-width fields of the session name. */
  predicate Fits(t: DateTime) {
    t.year < 10000 && t.month < 100 && t.day < 100 && t.hour < 100 && t.minute < 100 && t.second < 100
  }

  /** chrono's `%Y`: four digits, and a sign before a longer year. */
  function YearText(year: nat): string {
    if year < 10000 then Padded(year, 4) else "+" + NatToDecimal(year)
  }

  /** `%Y%m%d_%H%M%S`. */
  function Timestamp(t: DateTime): (s: string)
    ensures Fits(t) ==> |s| == 15 && s[8] == '_' && AllDigits(s[..8]) && AllDigits(s[9..])
  {
    var date := YearText(t.year) + Padded(t.month, 2) + Padded(t.day, 2);
    var time := Padded(t.hour, 2) + Padded(t.minute, 2) + Padded(t.second, 2);
    JoinAt(date, time);
    date + "_" + time
  }

  /** The pieces around the `_` of `date + "_" + time`. */
  lemma JoinAt(date: string, time: string)
    ensures (date + "_" + time)[..|date|] == date && (date + "_" + time)[|date|] == '_'
    ensures (date + "_" + time)[|date| + 1..] == time
  {
  }

  /** Reads a session timestamp back. */
  function ParseTimestamp(s: string): Option<DateTime> {
    if |s| == 15 && s[8] == '_' && AllDigits(s[..8]) && AllDigits(s[9..]) then
      Some(DateTime(DecimalValue(s[0..4]), DecimalValue(s[4..6]), DecimalValue(s[6..8]),
                    DecimalValue(s[9..11]), DecimalValue(s[11..13]), DecimalValue(s[13..15])))
    else None
  }

  /** Within the fixed widths a timestamp determines the time it was taken. */
  lemma TimestampRoundTrip(t: DateTime)
    requires Fits(t)
    ensures ParseTimestamp(Timestamp(t)) == Some(t)
  {
    var s := Timestamp(t);
    assert s[0..4] == Padded(t.year, 4);
    assert s[4..6] == Padded(t.month, 2);
    assert s[6..8] == Padded(t.day, 2);
    assert s[9..11] == Padded(t.hour, 2);
    assert s[11..13] == Padded(t.minute, 2);
    assert s[13..15] == Padded(t.second, 2);
    PaddedRoundTrip(t.year, 4);
    PaddedRoundTrip(t.month, 2);
    PaddedRoundTrip(t.day, 2);
    PaddedRoundTrip(t.hour, 2);
    PaddedRoundTrip(t.minute, 2);
    PaddedRoundTrip(t.second, 2);
  }

  /** The recordings directory under the application's data directory. */
  function RecordingsDir(dataDir: string): string {
    dataDir + "/recordings"
  }

  const VideoPrefix: string := "/recording_"
  const VideoSuffix: string := ".mp4"

  /** `<recordings>/recording_<timestamp>.mp4`. */
  function VideoPath(recordingsDir: string, timestamp: string): (p: string)
    ensures recordingsDir + VideoPrefix <= p
    ensures |p| == |recordingsDir| + |VideoPrefix| + |timestamp| + |VideoSuffix|
    ensures p[|p| - |VideoSuffix|..] == VideoSuffix
  {
    recordingsDir + VideoPrefix + timestamp + VideoSuffix
  }

  /** The time a session's video file name records, given its directory. */
  function TimeOfVideoPath(recordingsDir: string, path: string): Option<DateTime> {
    var head := |recordingsDir| + |VideoPrefix|;
    if |path| == head + 15 + |VideoSuffix| then ParseTimestamp(path[head..head + 15]) else None
  }

  /** The video path names the time the session started. */
  lemma VideoPathNamesStartTime(recordingsDir: string, t: DateTime)
    requires Fits(t)
    ensures TimeOfVideoPath(recordingsDir, VideoPath(recordingsDir, Timestamp(t))) == Some(t)
  {
    var head := |recordingsDir| + |VideoPrefix|;
    var p := VideoPath(recordingsDir, Timestamp(t));
    assert p[head..head + 15] == Timestamp(t);
    TimestampRoundTrip(t);
  }

  // ---------------------------------------------------------------------
  // Recorder selection.

  const SessionFps: FFmpeg.U32 := 30

  datatype RecorderPlan = NativePlan | FFmpegPlan(format: string, device: string)

  /** The capture each platform uses. */
  function PlanRecorder(p: Platform): (r: Result<RecorderPlan>)
    ensures r.Err? <==> p == OtherPlatform
    ensures r.Err? ==> r.error == "Unsupported platform"
    ensures r == Ok(NativePlan) <==> p == MacOS
    ensures p == Windows ==> r == Ok(FFmpegPlan("gdigrab", "desktop"))
    ensures p == Linux ==> r == Ok(FFmpegPlan("x11grab", ":0.0"))
  {
    match p
    case MacOS => Ok(NativePlan)
    case Windows => Ok(FFmpegPlan("gdigrab", "desktop"))
    case Linux => Ok(FFmpegPlan("x11grab", ":0.0"))
    case OtherPlatform => Err("Unsupported platform")
  }

  /** The platform-native recorder; its internals are not part of this
      model, so its start and stop report what they are given. */
  class MacOSRecorder {
    const outputPath: string
    var capturing: bool

    constructor (outputPath: string)
      ensures this.outputPath == outputPath && !capturing
    {
      this.outputPath := outputPath;
      capturing := false;
    }

    method Start(result: Outcome) returns (r: Outcome)
      modifies this
      ensures r == result && capturing == result.Pass?
    {
      capturing := result.Pass?;
      r := result;
    }

    method Stop(result: Outcome) returns (r: Outcome)
      modifies this
      ensures r == result && !capturing
    {
      capturing := false;
      r := result;
    }
  }

  /** The recorder of a session: one variant, fixed for the session. */
  datatype Recorder = UsesFFmpeg(ffmpeg: FFmpeg.FFmpegRecorder) | UsesMacOS(macos: MacOSRecorder)

  function RecorderObjects(r: Option<Recorder>): set<object> {
    if r.None? then {}
    else match r.value
      case UsesFFmpeg(f) => {f}
      case UsesMacOS(m) => {m}
  }

  // ---------------------------------------------------------------------
  // The session log.

  datatype LogRecord = InputRecord(entry: Input.Value) | FFmpegOutput(line: string, isStderr: bool)

  /** The session's append-only log; its file is not part of this model. */
  class Logger {
    var records: seq<LogRecord>

    constructor ()
      ensures records == []
    {
      records := [];
    }

    /** Writes an input entry; `write` is what the file write reports,
        and only a write that passes adds the record. */
    method LogEvent(entry: Input.Value, write: Outcome) returns (r: Outcome)
      modifies this
      ensures r == write
      ensures records == old(records) + (if write.Pass? then [InputRecord(entry)] else [])
    {
      if write.Pass? {
        records := records + [InputRecord(entry)];
      }
      r := write;
    }

    /** Writes a line of FFmpeg output, reporting as `LogEvent` does. */
    method LogFFmpeg(line: string, isStderr: bool, write: Outcome) returns (r: Outcome)
      modifies this
      ensures r == write
      ensures records == old(records) + (if write.Pass? then [FFmpegOutput(line, isStderr)] else [])
    {
      if write.Pass? {
        records := records + [FFmpegOutput(line, isStderr)];
      }
      r := write;
    }
  }

  function LoggerObjects(l: Option<Logger>): set<object> {
    if l.Some? then {l.value} else {}
  }

  // ---------------------------------------------------------------------
  // The session.

  /** What the session does with its collaborators, in order; the
      `Status` steps are the "recording-status" events the host sees. */
  datatype Step =
    | Status(state: string)
    | RecorderStarted
    | LoggerOpened
    | InputStarted
    | PollingStarted
    | LoggerClosed
    | InputStopped
    | PollingStopped
    | RecorderStopped

  /** What the host and the collaborators report during one start:
      the binary resolution (the path found, or its error), the data
      directory and the error creating the recordings directory, the clock,
      the display query, what launching FFmpeg meets, the macOS recorder's
      start, the logger's creation and the poller's start. */
  datatype StartEnv = StartEnv(
    ffmpegInit: Result<string>,
    dataDir: Result<string>,
    mkdirError: Option<string>,
    now: DateTime,
    displays: Result<seq<Display>>,
    launch: FFmpeg.Launch,
    dir: FFmpeg.DirCheck,
    macosStart: Outcome,
    loggerNew: Outcome,
    pollingStart: Outcome)

  /** What the collaborators report during one stop: the poller's stop, the
      error reading the video's size (if any) and the macOS recorder's stop. */
  datatype StopEnv = StopEnv(pollingStop: Outcome, metadataError: Option<string>, macosStop: Outcome)

  /** What the session has resolved when it is ready to create its recorder. */
  datatype Prepared = Prepared(ffmpegPath: string, display: Display, videoPath: string)

  /** The binary path after initialisation: kept once set, else resolved. */
  function InitFFmpeg(current: Option<string>, found: Result<string>): (r: Result<string>)
    ensures current.Some? ==> r == Ok(current.value)
    ensures current.None? ==> r == found
  {
    if current.Some? then Ok(current.value) else found
  }

  /** The checks a start makes before it announces "recording", in order:
      binary, data directory, recordings directory, display query, display. */
  function Preflight(current: Option<string>, env: StartEnv): (r: Result<Prepared>)
    ensures r.Ok? <==> InitFFmpeg(current, env.ffmpegInit).Ok? && env.dataDir.Ok? && env.mkdirError.None?
                       && env.displays.Ok? && env.displays.value != []
    ensures r.Ok? ==> Some(r.value.display) == ChooseDisplay(env.displays.value)
    ensures r.Ok? ==> r.value.ffmpegPath == InitFFmpeg(current, env.ffmpegInit).value
    ensures InitFFmpeg(current, env.ffmpegInit).Err? ==> r == Err(InitFFmpeg(current, env.ffmpegInit).error)
    ensures InitFFmpeg(current, env.ffmpegInit).Ok? && env.dataDir.Err? ==>
      r == Err("Failed to get app data directory: " + env.dataDir.error)
    ensures InitFFmpeg(current, env.ffmpegInit).Ok? && env.dataDir.Ok? && env.mkdirError.Some? ==>
      r == Err("Failed to create recordings directory: " + env.mkdirError.value)
    ensures InitFFmpeg(current, env.ffmpegInit).Ok? && env.dataDir.Ok? && env.mkdirError.None? && env.displays.Err? ==>
      r == Err("Failed to get display info: " + env.displays.error)
    ensures r.Ok? ==> r.value.videoPath == VideoPath(RecordingsDir(env.dataDir.value), Timestamp(env.now))
    ensures (InitFFmpeg(current, env.ffmpegInit).Ok? && env.dataDir.Ok? && env.mkdirError.None?
             && env.displays == Ok([])) ==> r == Err("No display found")
  {
    var init := InitFFmpeg(current, env.ffmpegInit);
    if init.Err? then Err(init.error)
    else if env.dataDir.Err? then Err("Failed to get app data directory: " + env.dataDir.error)
    else if env.mkdirError.Some? then Err("Failed to create recordings directory: " + env.mkdirError.value)
    else if env.displays.Err? then Err("Failed to get display info: " + env.displays.error)
    else match ChooseDisplay(env.displays.value)
      case None => Err("No display found")
      case Some(d) => Ok(Prepared(init.value, d, VideoPath(RecordingsDir(env.dataDir.value), Timestamp(env.now))))
  }

  /** Whether the recorder a start creates comes up, given the plan. */
  function RecorderComesUp(plan: RecorderPlan, platform: Platform, env: StartEnv): bool {
    match plan
    case NativePlan => env.macosStart.Pass?
    case FFmpegPlan(_, _) =>
      env.launch.Spawned? && env.launch.probe.StillRunning? && (platform == Windows ==> FFmpeg.DirUsable(env.dir))
  }

  /** What the planned recorder's start reports: the native recorder's own
      result on macOS, the FFmpeg start's outcome elsewhere. */
  function StartReport(p: Prepared, plan: RecorderPlan, platform: Platform, env: StartEnv): (r: Outcome)
    ensures r.Pass? <==> RecorderComesUp(plan, platform, env)
  {
    match plan
    case NativePlan => env.macosStart
    case FFmpegPlan(_, _) => FFmpeg.StartOutcome(Some(p.ffmpegPath), env.launch, platform == Windows, env.dir)
  }

  /** The files left by the planned recorder's start. */
  function StartFiles(files: map<string, nat>, p: Prepared, plan: RecorderPlan, env: StartEnv): (r: map<string, nat>)
    ensures forall q :: q in r ==> q in files && r[q] == files[q]
    ensures forall q :: q in files && q != p.videoPath ==> q in r
    ensures p.videoPath in r <==>
      p.videoPath in files && !(plan.FFmpegPlan? && env.launch.Spawned? && env.launch.probe.ExitedWith?)
  {
    if plan.NativePlan? then files else FFmpeg.FilesAfterStart(files, p.videoPath, Some(p.ffmpegPath), env.launch)
  }

  /** The recorder a start created carries the session's settings. */
  ghost predicate Configured(rec: Recorder, p: Prepared, plan: RecorderPlan)
    reads RecorderObjects(Some(rec))
  {
    match rec
    case UsesFFmpeg(f) =>
      && plan.FFmpegPlan?
      && f.width == p.display.width && f.height == p.display.height && f.fps == SessionFps
      && f.outputPath == p.videoPath
      && f.inputFormat == Some(plan.format) && f.inputDevice == Some(plan.device)
    case UsesMacOS(m) =>
      plan.NativePlan? && m.outputPath == p.videoPath
  }

  /** The recorder is capturing. */
  ghost predicate Capturing(rec: Recorder)
    reads RecorderObjects(Some(rec))
  {
    match rec
    case UsesFFmpeg(f) => f.process.Some?
    case UsesMacOS(m) => m.capturing
  }

  /** Creates the planned recorder and starts it. */
  method LaunchRecorder(p: Prepared, plan: RecorderPlan, platform: Platform, env: StartEnv, fs: FFmpeg.FileSystem)
    returns (rec: Recorder, started: Outcome)
    modifies fs
    ensures fresh(RecorderObjects(Some(rec)))
    ensures Configured(rec, p, plan)
    ensures started.Pass? <==> RecorderComesUp(plan, platform, env)
    ensures started.Pass? ==> Capturing(rec)
    ensures started == StartReport(p, plan, platform, env)
    ensures fs.files == StartFiles(old(fs.files), p, plan, env)
  {
    if plan.NativePlan? {
      var m := new MacOSRecorder(p.videoPath);
      started := m.Start(env.macosStart);
      rec := UsesMacOS(m);
    } else {
      var f := new FFmpeg.FFmpegRecorder.NewWithInput(p.display.width, p.display.height, SessionFps,
                                                      p.videoPath, plan.format, plan.device);
      started := f.Start(Some(p.ffmpegPath), env.launch, platform == Windows, env.dir, fs);
      rec := UsesFFmpeg(f);
    }
  }

  /** What stopping a capturing recorder reports: the artifact check for
      FFmpeg, the native recorder's own report on macOS. */
  ghost function StopVerdict(rec: Recorder, fs: FFmpeg.FileSystem, env: StopEnv): Outcome
    reads RecorderObjects(Some(rec)), fs
  {
    match rec
    case UsesFFmpeg(f) =>
      if f.process.None? then Pass else FFmpeg.ArtifactVerdict(fs.files, f.outputPath, env.metadataError)
    case UsesMacOS(_) => env.macosStop
  }

  /** Stops the recorder taken out of the session. */
  method HaltRecorder(rec: Recorder, env: StopEnv, fs: FFmpeg.FileSystem) returns (r: Outcome)
    modifies RecorderObjects(Some(rec))
    ensures r == old(StopVerdict(rec, fs, env))
    ensures !Capturing(rec)
  {
    if rec.UsesFFmpeg? {
      r := rec.ffmpeg.Stop(fs, env.metadataError);
    } else {
      r := rec.macos.Stop(env.macosStop);
    }
  }

  /** The steps of a start after its recorder is held. */
  function TailSteps(hadLogger: bool, env: StartEnv): (r: seq<Step>)
    ensures InputStarted in r <==> hadLogger || env.loggerNew.Pass?
    ensures LoggerOpened in r <==> !hadLogger && env.loggerNew.Pass?
    ensures PollingStarted in r ==> InputStarted in r
  {
    if !hadLogger && env.loggerNew.Fail? then []
    else (if hadLogger then [] else [LoggerOpened]) + [InputStarted]
         + (if env.pollingStart.Pass? then [PollingStarted] else [])
  }

  /** The steps of a stop whose poller stopped. */
  function StopSteps(hadRecorder: bool, r: Outcome): (steps: seq<Step>)
    ensures |steps| >= 4 && steps[0] == Status("stopping")
    ensures Status("stopped") in steps <==> r.Pass?
    ensures RecorderStopped in steps <==> hadRecorder
  {
    [Status("stopping"), LoggerClosed, InputStopped, PollingStopped]
    + (if hadRecorder then [RecorderStopped] else []) + (if r.Pass? then [Status("stopped")] else [])
  }

  class Session {
    const platform: Platform
    const input: Input.InputService
    var recorder: Option<Recorder>
    var logger: Option<Logger>
    var objectivesCompleted: int
    var ffmpegPath: Option<string>
    var trace: seq<Step>

    /** A session that is not recording, with no logger. */
    constructor (platform: Platform, input: Input.InputService)
      ensures this.platform == platform && this.input == input
      ensures recorder == None && logger == None && trace == [] && ffmpegPath == None
    {
      this.platform := platform;
      this.input := input;
      recorder := None;
      logger := None;
      objectivesCompleted := 0;
      ffmpegPath := None;
      trace := [];
    }

    /** Starts a session.  Refuses while a recorder is held; otherwise
        resolves the binary, the video path and the display, resets the
        objectives counter and announces "recording" before it creates and
        starts the platform's recorder.  The recorder is held only once it
        has started; the logger is created only if there is none; then the
        input listener and the poller start.  A failure after the recorder
        started leaves it held. */
    method StartRecording(env: StartEnv, fs: FFmpeg.FileSystem) returns (r: Outcome)
      modifies this, input, fs
      ensures old(recorder).Some? ==>
        r == Fail("Recording already in progress") && recorder == old(recorder) && logger == old(logger)
        && trace == old(trace) && objectivesCompleted == old(objectivesCompleted) && ffmpegPath == old(ffmpegPath)
        && input.slot == old(input.slot) && fs.files == old(fs.files)
      ensures old(recorder).None? ==>
        ffmpegPath == if old(ffmpegPath).Some? then old(ffmpegPath)
                      else if env.ffmpegInit.Ok? then Some(env.ffmpegInit.value) else None
      ensures old(recorder).None? && Preflight(old(ffmpegPath), env).Err? ==>
        r == Fail(Preflight(old(ffmpegPath), env).error) && recorder == None && logger == old(logger)
        && trace == old(trace) && objectivesCompleted == old(objectivesCompleted) && input.slot == old(input.slot)
      ensures old(recorder).None? && Preflight(old(ffmpegPath), env).Ok? ==>
        objectivesCompleted == 0 && old(trace) + [Status("recording")] <= trace
      ensures old(recorder).None? && Preflight(old(ffmpegPath), env).Ok? && PlanRecorder(platform).Err? ==>
        r == Fail("Unsupported platform") && recorder == None && logger == old(logger)
        && trace == old(trace) + [Status("recording")] && input.slot == old(input.slot)
      ensures old(recorder).None? && Preflight(old(ffmpegPath), env).Ok? && PlanRecorder(platform).Ok?
              && !RecorderComesUp(PlanRecorder(platform).value, platform, env) ==>
        r == StartReport(Preflight(old(ffmpegPath), env).value, PlanRecorder(platform).value, platform, env)
        && recorder == None && logger == old(logger) && trace == old(trace) + [Status("recording")]
        && input.slot == old(input.slot)
      ensures old(recorder).None? && Preflight(old(ffmpegPath), env).Ok? && PlanRecorder(platform).Ok? ==>
        fs.files == StartFiles(old(fs.files), Preflight(old(ffmpegPath), env).value, PlanRecorder(platform).value, env)
      ensures old(recorder).None? && (Preflight(old(ffmpegPath), env).Err? || PlanRecorder(platform).Err?) ==>
        fs.files == old(fs.files)
      ensures old(recorder).None? && Preflight(old(ffmpegPath), env).Ok? && PlanRecorder(platform).Ok?
              && RecorderComesUp(PlanRecorder(platform).value, platform, env) ==>
        && recorder.Some? && fresh(RecorderObjects(recorder))
        && Configured(recorder.value, Preflight(old(ffmpegPath), env).value, PlanRecorder(platform).value)
        && Capturing(recorder.value)
        && (old(logger).Some? ==> logger == old(logger))
        && (old(logger).None? && env.loggerNew.Fail? ==>
              r == env.loggerNew && logger == None && input.slot == old(input.slot))
        && (old(logger).Some? || env.loggerNew.Pass? ==>
              r == env.pollingStart && logger.Some? && input.slot.Some?
              && (old(input.slot).Some? ==> input.slot == old(input.slot)))
        && trace == old(trace) + [Status("recording"), RecorderStarted] + TailSteps(old(logger).Some?, env)
      ensures r.Pass? ==> recorder.Some? && logger.Some? && input.slot.Some?
    {
      if recorder.Some? {
        return Fail("Recording already in progress");
      }
      var pre := Prepare(env);
      if pre.Err? {
        return Fail(pre.error);
      }

      objectivesCompleted := 0;
      trace := trace + [Status("recording")];

      r := BeginCapture(pre.value, env, fs);
    }

    /** The part of a start after "recording" is announced: pick, create and
        start the platform's recorder, hold it once it runs, then finish. */
    method BeginCapture(p: Prepared, env: StartEnv, fs: FFmpeg.FileSystem) returns (r: Outcome)
      requires recorder == None
      modifies this, input, fs
      ensures objectivesCompleted == old(objectivesCompleted) && ffmpegPath == old(ffmpegPath)
      ensures PlanRecorder(platform).Err? || !RecorderComesUp(PlanRecorder(platform).value, platform, env) ==>
        r.Fail? && recorder == None && logger == old(logger) && trace == old(trace) && input.slot == old(input.slot)
      ensures PlanRecorder(platform).Err? ==> r == Fail("Unsupported platform") && fs.files == old(fs.files)
      ensures PlanRecorder(platform).Ok? ==> fs.files == StartFiles(old(fs.files), p, PlanRecorder(platform).value, env)
      ensures PlanRecorder(platform).Ok? && !RecorderComesUp(PlanRecorder(platform).value, platform, env) ==>
        r == StartReport(p, PlanRecorder(platform).value, platform, env)
      ensures PlanRecorder(platform).Ok? && RecorderComesUp(PlanRecorder(platform).value, platform, env) ==>
        && recorder.Some? && fresh(RecorderObjects(recorder))
        && Configured(recorder.value, p, PlanRecorder(platform).value)
        && Capturing(recorder.value)
        && (old(logger).Some? ==> logger == old(logger))
        && (old(logger).None? && env.loggerNew.Fail? ==>
              r == env.loggerNew && logger == None && input.slot == old(input.slot))
        && (old(logger).Some? || env.loggerNew.Pass? ==>
              r == env.pollingStart && logger.Some? && input.slot.Some?
              && (old(input.slot).Some? ==> input.slot == old(input.slot)))
        && trace == old(trace) + [RecorderStarted] + TailSteps(old(logger).Some?, env)
    {
      var plan := PlanRecorder(platform);
      if plan.Err? {
        return Fail(plan.error);
      }
      var rec, started := LaunchRecorder(p, plan.value, platform, env, fs);
      if started.Fail? {
        return started;
      }
      recorder := Some(rec);
      trace := trace + [RecorderStarted];
      r := FinishStart(env);
    }

    /** Resolves the binary, once for the process, then the rest of what a
        start needs before it announces "recording". */
    method Prepare(env: StartEnv) returns (pre: Result<Prepared>)
      modifies this
      ensures pre == Preflight(old(ffmpegPath), env)
      ensures ffmpegPath == if old(ffmpegPath).Some? then old(ffmpegPath)
                            else if env.ffmpegInit.Ok? then Some(env.ffmpegInit.value) else None
      ensures recorder == old(recorder) && logger == old(logger) && trace == old(trace)
      ensures objectivesCompleted == old(objectivesCompleted)
    {
      var current := ffmpegPath;
      var init := InitFFmpeg(current, env.ffmpegInit);
      if init.Err? {
        return Err(init.error);
      }
      ffmpegPath := Some(init.value);
      pre := Preflight(current, env);
    }

    /** The part of a start after the recorder is held: open the logger if
        there is none, start the input listener, start the poller. */
    method FinishStart(env: StartEnv) returns (r: Outcome)
      modifies this, input
      ensures recorder == old(recorder) && objectivesCompleted == old(objectivesCompleted)
      ensures ffmpegPath == old(ffmpegPath)
      ensures old(logger).Some? ==> logger == old(logger)
      ensures old(logger).None? && env.loggerNew.Fail? ==> logger == None && input.slot == old(input.slot)
      ensures old(logger).None? && env.loggerNew.Pass? ==> logger.Some? && fresh(logger.value)
      ensures old(logger).Some? || env.loggerNew.Pass? ==>
        input.slot.Some? && (old(input.slot).Some? ==> input.slot == old(input.slot))
      ensures r == if old(logger).None? && env.loggerNew.Fail? then env.loggerNew else env.pollingStart
      ensures trace == old(trace) + TailSteps(old(logger).Some?, env)
    {
      if logger.None? {
        if env.loggerNew.Fail? {
          return env.loggerNew;
        }
        var l := new Logger();
        logger := Some(l);
        trace := trace + [LoggerOpened];
      }

      var listening := input.StartInputListener(platform == Windows);
      trace := trace + [InputStarted];

      if env.pollingStart.Fail? {
        return env.pollingStart;
      }
      trace := trace + [PollingStarted];
      return Pass;
    }

    /** Stops a session, in order: announce "stopping", close the logger,
        stop the input listener, stop the poller, then take and stop the
        recorder; "stopped" is announced only when all of that succeeded.
        A failing poller stop returns before the recorder is touched; once the
        recorder is taken its slot stays empty even if its stop fails. */
    method StopRecording(env: StopEnv, fs: FFmpeg.FileSystem) returns (r: Outcome)
      modifies this, input, Input.Held(input.slot), RecorderObjects(recorder)
      ensures logger == None && input.slot == None
      ensures objectivesCompleted == old(objectivesCompleted) && ffmpegPath == old(ffmpegPath)
      ensures old(input.slot).Some? ==> !old(input.slot).value.running
      ensures env.pollingStop.Fail? ==>
        r == env.pollingStop && recorder == old(recorder)
        && trace == old(trace) + [Status("stopping"), LoggerClosed, InputStopped]
      ensures env.pollingStop.Pass? ==>
        && recorder == None
        && r == (if old(recorder).None? then Pass else old(StopVerdict(recorder.value, fs, env)))
        && (old(recorder).Some? ==> !Capturing(old(recorder).value))
        && trace == old(trace) + StopSteps(old(recorder).Some?, r)
    {
      trace := trace + [Status("stopping")];
      logger := None;
      trace := trace + [LoggerClosed];
      var stopped := input.StopInputListener();
      trace := trace + [InputStopped];
      if env.pollingStop.Fail? {
        return env.pollingStop;
      }
      trace := trace + [PollingStopped];
      ghost var polled := trace;
      r := ReleaseRecorder(env, fs);
      assert trace == polled + StopSteps(old(recorder).Some?, r)[4..];
    }

    /** The part of a stop after the poller stopped: the recorder, if any, is
        taken and stopped, and a clean stop reports "stopped". */
    method ReleaseRecorder(env: StopEnv, fs: FFmpeg.FileSystem) returns (r: Outcome)
      modifies this, RecorderObjects(recorder)
      ensures recorder == None && logger == old(logger)
      ensures objectivesCompleted == old(objectivesCompleted) && ffmpegPath == old(ffmpegPath)
      ensures r == (if old(recorder).None? then Pass else old(StopVerdict(recorder.value, fs, env)))
      ensures old(recorder).Some? ==> !Capturing(old(recorder).value)
      ensures trace == old(trace) + StopSteps(old(recorder).Some?, r)[4..]
    {
      r := Pass;
      if recorder.Some? {
        var rec := recorder.value;
        recorder := None;
        r := HaltRecorder(rec, env, fs);
        trace := trace + [RecorderStopped];
        if r.Fail? {
          return r;
        }
      }
      trace := trace + [Status("stopped")];
    }

    /** Writes an input entry to the open log and passes on the write's
        error; with no logger, does nothing and succeeds. */
    method LogInput(entry: Input.Value, write: Outcome) returns (r: Outcome)
      modifies LoggerObjects(logger)
      ensures logger.None? ==> r == Pass
      ensures logger.Some? ==> r == write
      ensures logger.Some? ==>
        logger.value.records == old(logger.value.records) + (if write.Pass? then [InputRecord(entry)] else [])
    {
      r := Pass;
      if logger.Some? {
        r := logger.value.LogEvent(entry, write);
      }
    }

    /** Writes a line of FFmpeg output to the open log and passes on the
        write's error; with no logger, does nothing and succeeds. */
    method LogFFmpeg(line: string, isStderr: bool, write: Outcome) returns (r: Outcome)
      modifies LoggerObjects(logger)
      ensures logger.None? ==> r == Pass
      ensures logger.Some? ==> r == write
      ensures logger.Some? ==>
        logger.value.records == old(logger.value.records) + (if write.Pass? then [FFmpegOutput(line, isStderr)] else [])
    {
      r := Pass;
      if logger.Some? {
        r := logger.value.LogFFmpeg(line, isStderr, write);
      }
    }
  }

  /** Only one session records at a time: once a start succeeded, a second
      start is refused and leaves the first session's recorder in place. */
  method StartTwice(s: Session, first: StartEnv, second: StartEnv, fs: FFmpeg.FileSystem)
    returns (r1: Outcome, r2: Outcome, ghost held: Option<Recorder>)
    requires s.recorder == None
    modifies s, s.input, fs
    ensures r1.Pass? ==> r2 == Fail("Recording already in progress") && held.Some? && s.recorder == held
  {
    r1 := s.StartRecording(first, fs);
    held := s.recorder;
    r2 := s.StartRecording(second, fs);
  }
}
