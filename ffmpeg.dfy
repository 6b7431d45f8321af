/** The screen-capture recorder that drives an external FFmpeg process:
    the command line it builds, how it diagnoses a process that exits at
    once, and the one-slot process handle that `stop` consumes and checks
    against the artifact on disk.  The process itself and the disk are
    abstract: what they report is passed in. */
module FFmpeg {
  import opened Wrappers
  import opened Text

  /** Width, height and frame rate are `u32` in the recorder. */
  type U32 = x: nat | x < 0x1_0000_0000

  /** The disk as the recorder sees it: every existing file and its size in bytes. */
  class FileSystem {
    var files: map<string, nat>

    constructor (files: map<string, nat>)
      ensures this.files == files
    {
      this.files := files;
    }

    /** Removes a file if it exists. */
    method Remove(path: string)
      modifies this
      ensures files == old(files) - {path}
    {
      if path in files {
        files := files - {path};
      }
    }
  }

  /** A running capture process: the program and the arguments it was launched with. */
  datatype Child = Child(program: string, args: seq<string>)

  /** What the non-blocking liveness probe (`try_wait`) reports right after the spawn. */
  datatype ExitProbe =
    | StillRunning
    | ExitedWith(status: string)
    | ProbeError(reason: string)

  /** The result of launching the tool: the spawn error, or what the probe saw
      and the text the process had written to its error stream by then. */
  datatype Launch =
    | SpawnFailed(reason: string)
    | Spawned(probe: ExitProbe, stderrText: string)

  /** What the Windows output-directory check meets: whether the directory
      exists, the error creating it (if any), the error writing the probe file (if any). */
  datatype DirCheck = DirCheck(parentExists: bool, createError: Option<string>, writeError: Option<string>)

  /** The fixed encoder block: H.264, fastest preset, constant quality 23,
      4:2:0 pixels, streaming-friendly container, high profile, low latency,
      overwrite an existing output. */
  const EncoderArgs: seq<string> := [
    "-c:v", "libx264", "-preset", "ultrafast", "-crf", "23", "-pix_fmt", "yuv420p",
    "-movflags", "+faststart", "-profile:v", "high", "-tune", "zerolatency", "-y"
  ]

  const GdigrabFlags: seq<string> := [
    "-draw_mouse", "1", "-offset_x", "0", "-offset_y", "0",
    "-probesize", "10M", "-thread_queue_size", "1024"
  ]

  const AvfoundationFlags: seq<string> := ["-capture_cursor", "1"]

  /** `format!("{}x{}", width, height)`. */
  function VideoSize(width: nat, height: nat): string {
    NatToDecimal(width) + "x" + NatToDecimal(height)
  }

  /** The flags a capture format adds between the frame rate and `-i`. */
  function PlatformFlags(format: string): (flags: seq<string>)
    ensures format == "gdigrab" ==> flags == GdigrabFlags
    ensures format == "avfoundation" ==> flags == AvfoundationFlags
    ensures format != "gdigrab" && format != "avfoundation" ==> flags == []
  {
    if format == "gdigrab" then GdigrabFlags
    else if format == "avfoundation" then AvfoundationFlags
    else []
  }

  /** The arguments naming the capture input: the device in the given format
      when both are set, raw RGB frames on standard input otherwise. */
  function InputArgs(format: Option<string>, device: Option<string>, width: nat, height: nat,
                     fps: nat): (input: seq<string>)
    ensures format.Some? && device.Some? ==>
      var flags := PlatformFlags(format.value);
      && |input| == 8 + |flags|
      && input[..6] == ["-f", format.value, "-video_size", VideoSize(width, height), "-framerate", NatToDecimal(fps)]
      && input[6..6 + |flags|] == flags
      && input[6 + |flags|..] == ["-i", device.value]
    ensures format.None? || device.None? ==>
      input == ["-f", "rawvideo", "-pixel_format", "rgb24", "-video_size", VideoSize(width, height),
                "-framerate", NatToDecimal(fps), "-i", "-"]
  {
    if format.Some? && device.Some? then
      ["-f", format.value, "-video_size", VideoSize(width, height), "-framerate", NatToDecimal(fps)]
      + PlatformFlags(format.value) + ["-i", device.value]
    else
      ["-f", "rawvideo", "-pixel_format", "rgb24", "-video_size", VideoSize(width, height),
       "-framerate", NatToDecimal(fps), "-i", "-"]
  }

  /** The complete argument list the recorder passes to FFmpeg. */
  function CaptureArgs(format: Option<string>, device: Option<string>, width: nat, height: nat,
                       fps: nat, output: string): (args: seq<string>)
    ensures |args| >= 16 && args[|args| - 1] == output
    ensures args[|args| - 16..] == EncoderArgs + [output]
    ensures format.Some? && device.Some? ==>
      var flags := PlatformFlags(format.value);
      && |args| == 8 + |flags| + 16
      && args[..6] == ["-f", format.value, "-video_size", VideoSize(width, height), "-framerate", NatToDecimal(fps)]
      && args[6..6 + |flags|] == flags
      && args[6 + |flags|..8 + |flags|] == ["-i", device.value]
    ensures format.None? || device.None? ==>
      && |args| == 10 + 16
      && args[..10] == ["-f", "rawvideo", "-pixel_format", "rgb24", "-video_size", VideoSize(width, height),
                        "-framerate", NatToDecimal(fps), "-i", "-"]
  {
    var input := InputArgs(format, device, width, height, fps);
    var args := input + (EncoderArgs + [output]);
    assert args[..|input|] == input && args[|input|..] == EncoderArgs + [output];
    args
  }

  /** A string of digits holds no `x`, so `VideoSize` splits back uniquely. */
  lemma VideoSizeInjective(w1: nat, h1: nat, w2: nat, h2: nat)
    requires VideoSize(w1, h1) == VideoSize(w2, h2)
    ensures w1 == w2 && h1 == h2
  {
    var a, c := NatToDecimal(w1), NatToDecimal(w2);
    var v := VideoSize(w1, h1);
    // the first `x` of `v` sits right after each width's digits
    assert v[|a|] == 'x' && v[|c|] == 'x';
    assert forall i :: 0 <= i < |a| ==> IsDigitChar(v[i]);
    assert forall i :: 0 <= i < |c| ==> IsDigitChar(v[i]);
    assert |a| == |c|;
    assert a == v[..|a|] == c;
    assert NatToDecimal(h1) == v[|a| + 1..] == NatToDecimal(h2);
    DecimalInjective(w1, w2);
    DecimalInjective(h1, h2);
  }

  /** The command line determines the capture it asks for: two recorders with a
      format and a device launch the same arguments only if they agree on format,
      device, size, frame rate and output path. */
  lemma CaptureArgsDetermineInputs(f1: string, d1: string, w1: nat, h1: nat, r1: nat, o1: string,
                                   f2: string, d2: string, w2: nat, h2: nat, r2: nat, o2: string)
    requires CaptureArgs(Some(f1), Some(d1), w1, h1, r1, o1) == CaptureArgs(Some(f2), Some(d2), w2, h2, r2, o2)
    ensures f1 == f2 && d1 == d2 && w1 == w2 && h1 == h2 && r1 == r2 && o1 == o2
  {
    var args := CaptureArgs(Some(f1), Some(d1), w1, h1, r1, o1);
    assert args[1] == f1 && args[1] == f2;
    var n := |PlatformFlags(f1)|;
    assert args[7 + n] == d1 && args[7 + n] == d2;
    assert args[3] == VideoSize(w1, h1) && args[3] == VideoSize(w2, h2);
    VideoSizeInjective(w1, h1, w2, h2);
    assert args[5] == NatToDecimal(r1) && args[5] == NatToDecimal(r2);
    DecimalInjective(r1, r2);
  }

  /** Whether the error stream is still available to the diagnosis once the
      reader thread has been attached: the reader takes the pipe. */
  function StderrAtDiagnosis(readerAttached: bool, stderrText: string): Option<string> {
    if readerAttached then None else Some(stderrText)
  }

  const ExitPrefix: string := "FFmpeg process exited immediately with status: "
  const ErrorOutputLabel: string := "\nFFmpeg error output: "
  const DeviceHint: string := "\nHint: On Windows, make sure you have permission to access screen recording."
  const AdminHint: string := "\nHint: Try running the application as administrator."

  /** The error reported for a process that exited at once, given its exit
      status and the error output the diagnosis could read (`None` when the
      stream was not readable). */
  function ImmediateExitMessage(status: string, stderr: Option<string>, windows: bool): (msg: string)
    ensures ExitPrefix + status <= msg
    ensures (stderr.None? || stderr.value == "") <==> msg == ExitPrefix + status
    ensures stderr.Some? && stderr.value != "" ==>
      OccursAt(msg, ErrorOutputLabel + stderr.value, |ExitPrefix + status|)
  {
    var base := ExitPrefix + status;
    if stderr.None? || stderr.value == "" then base
    else
      var withOutput := base + ErrorOutputLabel + stderr.value;
      assert withOutput[|base|..|base| + |ErrorOutputLabel + stderr.value|] == ErrorOutputLabel + stderr.value;
      if windows && Contains(stderr.value, "Could not find video device") then withOutput + DeviceHint
      else if windows && Contains(stderr.value, "Permission denied") then withOutput + AdminHint
      else withOutput
  }

  /** Which hint the diagnosis appends: on Windows the missing-device hint wins
      over the permission hint and other output gets none, and no other
      platform gets a hint. */
  lemma ImmediateExitHints(status: string, text: string, windows: bool)
    requires text != ""
    ensures var msg := ImmediateExitMessage(status, Some(text), windows);
      var full := ExitPrefix + status + ErrorOutputLabel + text;
      && (windows && Contains(text, "Could not find video device") ==> msg == full + DeviceHint)
      && ((windows && !Contains(text, "Could not find video device") && Contains(text, "Permission denied"))
          ==> msg == full + AdminHint)
      && ((windows && !Contains(text, "Could not find video device") && !Contains(text, "Permission denied"))
          ==> msg == full)
      && (!windows ==> msg == full)
  {
  }

  /** As the recorder is written, the error stream has been handed to the
      reader thread before the diagnosis looks at it, so the message is the
      exit status alone, whatever FFmpeg printed. */
  lemma AsWrittenExitMessageOmitsStderr(status: string, stderrText: string, windows: bool)
    ensures ImmediateExitMessage(status, StderrAtDiagnosis(true, stderrText), windows) == ExitPrefix + status
  {
  }

  /** The concrete case: a Windows permission failure loses its hint. */
  lemma AsWrittenPermissionHintLost()
    ensures var msg := ImmediateExitMessage("exit code: 1", StderrAtDiagnosis(true, "Permission denied"), true);
      msg == ExitPrefix + "exit code: 1" && msg != ExitPrefix + "exit code: 1" + ErrorOutputLabel + "Permission denied" + AdminHint
  {
    var withHint := ExitPrefix + "exit code: 1" + ErrorOutputLabel + "Permission denied" + AdminHint;
    assert |withHint| > |ExitPrefix + "exit code: 1"|;
  }

  /** The verdict `stop` gives on the artifact once the process has exited. */
  function ArtifactVerdict(files: map<string, nat>, path: string, metadataError: Option<string>): (r: Outcome)
    ensures r.Pass? <==> path in files && metadataError.None? && files[path] > 0
    ensures path !in files ==> r == Fail("FFmpeg failed to create output file")
    ensures path in files && metadataError.None? && files[path] == 0 ==> r == Fail("FFmpeg created empty output file")
  {
    if path !in files then Fail("FFmpeg failed to create output file")
    else if metadataError.Some? then Fail("Failed to get output file metadata: " + metadataError.value)
    else if files[path] == 0 then Fail("FFmpeg created empty output file")
    else Pass
  }

  /** On Windows, the output directory is usable for the capture. */
  predicate DirUsable(dir: DirCheck) {
    (dir.parentExists || dir.createError.None?) && dir.writeError.None?
  }

  /** What a start reports, from the binary, the launch and, on Windows, the
      output-directory check, each failure with its own message. */
  function StartOutcome(ffmpegPath: Option<string>, launch: Launch, windows: bool, dir: DirCheck): (r: Outcome)
    ensures r.Pass? <==>
      ffmpegPath.Some? && launch.Spawned? && launch.probe.StillRunning? && (windows ==> DirUsable(dir))
  {
    if ffmpegPath.None? then Fail("FFmpeg not initialized")
    else if launch.SpawnFailed? then Fail("Failed to start FFmpeg: " + launch.reason)
    else match launch.probe
      case ExitedWith(status) => Fail(ImmediateExitMessage(status, Some(launch.stderrText), windows))
      case ProbeError(reason) => Fail("Failed to check FFmpeg process status: " + reason)
      case StillRunning =>
        if windows && !dir.parentExists && dir.createError.Some? then
          Fail("Failed to create output directory: " + dir.createError.value)
        else if windows && dir.writeError.Some? then
          Fail("No write permission in output directory: " + dir.writeError.value)
        else Pass
  }

  /** The files a start leaves behind: a process that exits at once loses
      its partial output file, every other start leaves the files alone. */
  function FilesAfterStart(files: map<string, nat>, outputPath: string, ffmpegPath: Option<string>, launch: Launch)
    : (r: map<string, nat>)
    ensures forall q :: q in r ==> q in files && r[q] == files[q]
    ensures forall q :: q in files && q != outputPath ==> q in r
    ensures outputPath in r <==>
      outputPath in files && !(ffmpegPath.Some? && launch.Spawned? && launch.probe.ExitedWith?)
  {
    if ffmpegPath.Some? && launch.Spawned? && launch.probe.ExitedWith? then files - {outputPath} else files
  }

  class FFmpegRecorder {
    const width: U32
    const height: U32
    const fps: U32
    const outputPath: string
    var process: Option<Child>
    const inputFormat: Option<string>
    const inputDevice: Option<string>

    /** A recorder for one capture: no process yet, format and device both set. */
    constructor NewWithInput(width: U32, height: U32, fps: U32, outputPath: string,
                             inputFormat: string, inputDevice: string)
      ensures this.width == width && this.height == height && this.fps == fps
      ensures this.outputPath == outputPath
      ensures process == None
      ensures this.inputFormat == Some(inputFormat) && this.inputDevice == Some(inputDevice)
    {
      this.width := width;
      this.height := height;
      this.fps := fps;
      this.outputPath := outputPath;
      this.process := None;
      this.inputFormat := Some(inputFormat);
      this.inputDevice := Some(inputDevice);
    }

    /** The argument list, built block by block. */
    method BuildArgs() returns (args: seq<string>)
      ensures args == CaptureArgs(inputFormat, inputDevice, width, height, fps, outputPath)
    {
      args := [];
      if inputFormat.Some? && inputDevice.Some? {
        var format, device := inputFormat.value, inputDevice.value;
        args := args + ["-f", format, "-video_size", VideoSize(width, height), "-framerate", NatToDecimal(fps)];
        if format == "gdigrab" {
          args := args + GdigrabFlags;
        } else if format == "avfoundation" {
          args := args + AvfoundationFlags;
        }
        args := args + ["-i", device];
        assert args == ["-f", format, "-video_size", VideoSize(width, height), "-framerate", NatToDecimal(fps)]
                       + PlatformFlags(format) + ["-i", device];
      } else {
        args := args + ["-f", "rawvideo", "-pixel_format", "rgb24", "-video_size", VideoSize(width, height),
                        "-framerate", NatToDecimal(fps), "-i", "-"];
      }
      assert args == InputArgs(inputFormat, inputDevice, width, height, fps);
      args := args + EncoderArgs;
      args := args + [outputPath];
      assert args == InputArgs(inputFormat, inputDevice, width, height, fps) + (EncoderArgs + [outputPath]);
    }

    /** Launches the capture.  `ffmpegPath` is the resolved binary (unset
        before initialisation), `launch` what the spawn and the liveness probe
        report, `windows` the host platform, `dir` what the Windows directory
        check meets.  The process is retained only when it is running and the
        checks pass; a process that exited at once has its partial output
        removed from `fs`. */
    method Start(ffmpegPath: Option<string>, launch: Launch, windows: bool, dir: DirCheck, fs: FileSystem)
      returns (r: Outcome)
      modifies this, fs
      ensures r.Pass? <==>
        ffmpegPath.Some? && launch.Spawned? && launch.probe.StillRunning? && (windows ==> DirUsable(dir))
      ensures r.Pass? ==>
        process == Some(Child(ffmpegPath.value, CaptureArgs(inputFormat, inputDevice, width, height, fps, outputPath)))
      ensures r.Fail? ==> process == old(process)
      ensures r == StartOutcome(ffmpegPath, launch, windows, dir)
      ensures fs.files == FilesAfterStart(old(fs.files), outputPath, ffmpegPath, launch)
      ensures ffmpegPath.None? ==> r == Fail("FFmpeg not initialized")
      ensures ffmpegPath.Some? && launch.SpawnFailed? ==> r == Fail("Failed to start FFmpeg: " + launch.reason)
      ensures ffmpegPath.Some? && launch.Spawned? && launch.probe.ExitedWith? ==>
        && r == Fail(ImmediateExitMessage(launch.probe.status, Some(launch.stderrText), windows))
        && fs.files == old(fs.files) - {outputPath}
      ensures !(ffmpegPath.Some? && launch.Spawned? && launch.probe.ExitedWith?) ==> fs.files == old(fs.files)
      ensures ffmpegPath.Some? && launch.Spawned? && launch.probe.ProbeError? ==>
        r == Fail("Failed to check FFmpeg process status: " + launch.probe.reason)
      ensures ffmpegPath.Some? && launch.Spawned? && launch.probe.StillRunning? && windows ==>
        if !dir.parentExists && dir.createError.Some? then r == Fail("Failed to create output directory: " + dir.createError.value)
        else if dir.writeError.Some? then r == Fail("No write permission in output directory: " + dir.writeError.value)
        else r == Pass
    {
      if ffmpegPath.None? {
        return Fail("FFmpeg not initialized");
      }
      var args := BuildArgs();
      if launch.SpawnFailed? {
        return Fail("Failed to start FFmpeg: " + launch.reason);
      }
      match launch.probe {
        case ExitedWith(status) =>
          var msg := ImmediateExitMessage(status, Some(launch.stderrText), windows);
          fs.Remove(outputPath);
          return Fail(msg);
        case StillRunning =>
          r := Retain(ffmpegPath.value, args, windows, dir);
        case ProbeError(reason) =>
          return Fail("Failed to check FFmpeg process status: " + reason);
      }
    }

    /** The checks on a process still running after the probe: on Windows the
        output directory must exist or be creatable, and be writable.  The
        process is retained only when they pass. */
    method Retain(path: string, args: seq<string>, windows: bool, dir: DirCheck) returns (r: Outcome)
      modifies this
      ensures r.Pass? <==> (windows ==> DirUsable(dir))
      ensures r.Pass? ==> process == Some(Child(path, args))
      ensures r.Fail? ==> process == old(process)
      ensures windows ==>
        if !dir.parentExists && dir.createError.Some? then r == Fail("Failed to create output directory: " + dir.createError.value)
        else if dir.writeError.Some? then r == Fail("No write permission in output directory: " + dir.writeError.value)
        else r == Pass
    {
      if windows {
        if !dir.parentExists && dir.createError.Some? {
          return Fail("Failed to create output directory: " + dir.createError.value);
        }
        if dir.writeError.Some? {
          return Fail("No write permission in output directory: " + dir.writeError.value);
        }
      }
      process := Some(Child(path, args));
      return Pass;
    }

    /** Ends the capture.  With no process it succeeds and changes nothing;
        otherwise it takes the process (so the slot is empty whatever the
        verdict) and judges the artifact `fs` holds once the process has
        exited; `metadataError` is the error reading the file's size, if any. */
    method Stop(fs: FileSystem, metadataError: Option<string>) returns (r: Outcome)
      modifies this
      ensures process == None
      ensures old(process).None? ==> r == Pass
      ensures old(process).Some? ==> r == ArtifactVerdict(fs.files, outputPath, metadataError)
    {
      if process.Some? {
        process := None;
        if outputPath !in fs.files {
          return Fail("FFmpeg failed to create output file");
        }
        if metadataError.Some? {
          return Fail("Failed to get output file metadata: " + metadataError.value);
        }
        if fs.files[outputPath] == 0 {
          return Fail("FFmpeg created empty output file");
        }
      }
      return Pass;
    }
  }

  /** Stopping twice: the second stop finds no process and succeeds. */
  method StopTwice(rec: FFmpegRecorder, fs: FileSystem, metadataError: Option<string>)
    returns (first: Outcome, second: Outcome)
    modifies rec
    ensures first == (if old(rec.process).Some? then ArtifactVerdict(fs.files, rec.outputPath, metadataError) else Pass)
    ensures second == Pass && rec.process == None
  {
    first := rec.Stop(fs, metadataError);
    second := rec.Stop(fs, metadataError);
  }
}
