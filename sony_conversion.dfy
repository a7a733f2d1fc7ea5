/** The Sony raw conversion stage: it checks its inputs, converts the raw
    clip to a DPX sequence over the editorial range widened by the handles,
    and records what was produced. Under the Windows Subsystem for Linux the
    Windows tool is called through `cmd.exe` with Windows paths. */
module SonyConversion {
  import opened Values
  import opened Strings
  import opened Paths
  import opened Models
  import opened Stages
  import Naming

  const DefaultToolPath := "C:\\Program Files\\Sony\\RAW Viewer\\SonyRawConverter.exe"
  const DefaultDistro := "Ubuntu"
  const DefaultBitDepth: int := 16

  // ---------------------------------------------------------------------------
  // Environment detection and Windows paths
  // ---------------------------------------------------------------------------

  /** Running under WSL: never on Windows itself; otherwise when the
      lower-cased kernel version text mentions `microsoft` or `wsl`. A
      version file that cannot be read (`None`) means no. */
  function DetectWsl(osName: string, procVersion: Option<string>): bool
  {
    if osName == "nt" then false
    else
      match procVersion
      case None => false
      case Some(v) =>
        var version := Lower(v);
        Contains(version, "microsoft") || Contains(version, "wsl")
  }

  /** WSL is detected exactly off Windows, with a readable version text in
      which `microsoft` or `wsl` occurs once lower-cased; the letter case of
      the version text does not matter. */
  lemma DetectWslMeaning(osName: string, procVersion: Option<string>)
    ensures DetectWsl(osName, procVersion) <==>
      osName != "nt" && procVersion.Some?
      && ((exists k :: OccursAt(Lower(procVersion.value), "microsoft", k))
          || (exists k :: OccursAt(Lower(procVersion.value), "wsl", k)))
    ensures procVersion.Some? ==>
      DetectWsl(osName, procVersion) == DetectWsl(osName, Some(Lower(procVersion.value)))
  {
    if procVersion.Some? {
      var v := Lower(procVersion.value);
      ContainsAt(v, "microsoft");
      ContainsAt(v, "wsl");
      LowerIdempotent(procVersion.value);
    }
  }

  /** The distribution name: the environment's value when set, else
      `Ubuntu`. */
  function DistroName(variable: Option<string>): string
  {
    match variable
    case None => DefaultDistro
    case Some(d) => d
  }

  /** Splitting a `/mnt/...` text on `/` gives an empty piece, `mnt`, and
      the pieces of the remainder. */
  lemma MountSplit(s: string)
    requires "/mnt/" <= s
    ensures Split(s, '/') == ["", "mnt"] + Split(s[5..], '/')
  {
    assert s == [] + ['/'] + s[1..];
    SplitAfterSeparator([], '/', s[1..]);
    assert s[1..] == "mnt" + ['/'] + s[5..];
    SplitAfterSeparator("mnt", '/', s[5..]);
  }

  /** A resolved Linux path as Windows sees it: under `/mnt/<drive>/` the
      upper-cased drive letter, `:\` and the remaining components joined
      with backslashes; anything else through the `\\wsl$\<distro>` share,
      with every slash turned into a backslash. */
  function ToWindowsPath(pathStr: string, distro: string): string
  {
    if "/mnt/" <= pathStr then
      MountSplit(pathStr);
      var parts := Split(pathStr, '/');
      var drive := Upper(parts[2]);
      var rest := Join(parts[3..], '\\');
      drive + ":\\" + rest
    else
      "\\\\wsl$\\" + distro + Replace(pathStr, '/', '\\')
  }

  /** `/mnt/<drive>/<rest>` becomes `<DRIVE>:\<rest with backslashes>`. */
  lemma MountedPathRewrite(drive: string, rest: string, distro: string)
    requires '/' !in drive
    ensures ToWindowsPath("/mnt/" + drive + "/" + rest, distro) == Upper(drive) + ":\\" + Replace(rest, '/', '\\')
  {
    var s := "/mnt/" + drive + "/" + rest;
    assert "/mnt/" <= s;
    MountSplit(s);
    assert s[5..] == drive + ['/'] + rest;
    SplitAfterSeparator(drive, '/', rest);
    var parts := Split(s, '/');
    assert parts[2] == drive;
    assert parts[3..] == Split(rest, '/');
    JoinSplitIsReplace(rest, '/', '\\');
  }

  /** `/mnt/<drive>` alone becomes the drive's root `<DRIVE>:\`. */
  lemma MountedDriveRoot(drive: string, distro: string)
    requires '/' !in drive
    ensures ToWindowsPath("/mnt/" + drive, distro) == Upper(drive) + ":\\"
  {
    var s := "/mnt/" + drive;
    assert "/mnt/" <= s;
    MountSplit(s);
    assert s[5..] == drive;
    SplitWithoutSeparator(drive, '/');
  }

  /** Any other path goes through the WSL share of the distribution, with
      its slashes turned into backslashes. */
  lemma SharePathRewrite(pathStr: string, distro: string)
    requires !("/mnt/" <= pathStr)
    ensures ToWindowsPath(pathStr, distro) == "\\\\wsl$\\" + distro + Replace(pathStr, '/', '\\')
    ensures |ToWindowsPath(pathStr, distro)| == 7 + |distro| + |pathStr|
  {
  }

  /** The Windows path holds no forward slash, provided the distribution
      name holds none. */
  lemma WindowsPathHasNoSlash(pathStr: string, distro: string)
    requires '/' !in distro
    ensures '/' !in ToWindowsPath(pathStr, distro)
  {
    if "/mnt/" <= pathStr {
      MountSplit(pathStr);
      var parts := Split(pathStr, '/');
      var drive := Upper(parts[2]);
      assert '/' !in drive by {
        assert '/' !in parts[2];
        forall i | 0 <= i < |drive|
          ensures drive[i] != '/'
        {
          assert parts[2][i] != '/';
        }
      }
      var rest := parts[3..];
      assert forall i :: 0 <= i < |rest| ==> rest[i] == parts[3 + i];
      JoinExcludes(rest, '\\', '/');
      assert ToWindowsPath(pathStr, distro) == drive + ":\\" + Join(rest, '\\');
    } else {
      var r := Replace(pathStr, '/', '\\');
      assert '/' !in r by {
        forall i | 0 <= i < |r|
          ensures r[i] != '/'
        {
        }
      }
    }
  }

  // ---------------------------------------------------------------------------
  // Frames and commands
  // ---------------------------------------------------------------------------

  /** The raw frames requested: the editorial range widened by the head and
      tail handles. */
  function RawFrameRange(e: EditorialCutInfo): (r: (int, int))
    ensures r.1 - r.0 + 1 == e.DurationFrames() + Naming.HeadHandleFrames + Naming.TailHandleFrames
  {
    (e.inPoint - Naming.HeadHandleFrames, e.outPoint + Naming.TailHandleFrames)
  }

  /** For a shot whose last frame was derived from its editorial cut, the
      raw range requested has exactly as many frames as the shot: 16 more
      than the cut. */
  lemma RawRangeMatchesShot(project: string, sequence: string, shot: string, e: EditorialCutInfo,
                            firstFrame: int)
    ensures var s := NewShotRecord(project, sequence, shot, e, Naming.TaskTypePlates, Naming.ElementRawPlate,
                                   1, Naming.RepMain, firstFrame, None, None, None, None, None, None);
      var raw := RawFrameRange(e);
      s.totalFrames == Some(raw.1 - raw.0 + 1)
      && s.lastFrame - s.firstFrame == raw.1 - raw.0
      && raw.1 - raw.0 + 1 == e.DurationFrames() + 16
  {
  }

  /** `str(bit_depth)` for the bit depth given by the keyword arguments,
      16 when none is given. */
  function BitDepthText(ctx: Context): string
  {
    if "dpx_bit_depth" !in ctx then IntToString(DefaultBitDepth)
    else
      match ctx["dpx_bit_depth"]
      case Int(i) => IntToString(i)
      case Str(s) => s
      case Bool(b) => if b then "True" else "False"
      case Null => "None"
      case _ => ""
  }

  /** The tool's arguments after its name. */
  function ToolArguments(source: string, output: string, inFrame: int, outFrame: int, bitDepth: string): seq<string>
  {
    ["-i", source, "-o", output, "-start", IntToString(inFrame), "-end", IntToString(outFrame),
     "-bit_depth", bitDepth, "-format", "dpx", "-colorspace", "linear"]
  }

  /** The command run on Windows itself. */
  function NativeCommand(toolPath: string, source: Path, pattern: Path, inFrame: int, outFrame: int,
                         bitDepth: string): seq<string>
  {
    [toolPath] + ToolArguments(ToString(source), ToString(pattern), inFrame, outFrame, bitDepth)
  }

  /** The command run from WSL: the tool through `cmd.exe`, with both paths
      resolved and turned into Windows paths. */
  function WslCommand(toolPath: string, resolve: Path -> Path, distro: string, source: Path, pattern: Path,
                      inFrame: int, outFrame: int, bitDepth: string): seq<string>
  {
    ["cmd.exe", "/c", toolPath]
      + ToolArguments(ToWindowsPath(ToString(resolve(source)), distro),
                      ToWindowsPath(ToString(resolve(pattern)), distro), inFrame, outFrame, bitDepth)
  }

  /** Both commands name the tool and then ask for the same frame range, bit
      depth, format and colorspace; they differ only in how the tool is
      started and how the two paths are written. */
  lemma CommandsAgree(toolPath: string, resolve: Path -> Path, distro: string, source: Path, pattern: Path,
                      inFrame: int, outFrame: int, bitDepth: string)
    ensures var n := NativeCommand(toolPath, source, pattern, inFrame, outFrame, bitDepth);
      var w := WslCommand(toolPath, resolve, distro, source, pattern, inFrame, outFrame, bitDepth);
      |n| == 15 && |w| == 17 && n[0] == toolPath && w[2] == toolPath
      && n[5..] == w[7..]
      && n[5..9] == ["-start", IntToString(inFrame), "-end", IntToString(outFrame)]
      && n[10] == bitDepth
      && w[4] == ToWindowsPath(ToString(resolve(source)), distro)
  {
  }

  // ---------------------------------------------------------------------------
  // Running the tool
  // ---------------------------------------------------------------------------

  /** How a tool run ended: an exit code with its error output, a timeout,
      a missing executable, or another failure to start it. */
  datatype ToolOutcome =
    | Exited(code: int, stderr: string)
    | TimedOut
    | NotFound(message: string)
    | Failed(message: string)

  /** What a run reports into the result: success only on exit code 0;
      every other ending adds exactly one error. Run natively a missing
      executable is named by its path; through WSL every failure to start
      is an interop error. */
  function ToolReport(viaWsl: bool, toolPath: string, outcome: ToolOutcome, r: ResultRecord): (out: (bool, ResultRecord))
    ensures out.0 <==> outcome.Exited? && outcome.code == 0
    ensures out.0 ==> out.1 == r
    ensures !out.0 ==> exists e :: out.1 == r.WithError(e)
    ensures outcome.Exited? && outcome.code != 0 ==> out.1 == r.WithError("Sony conversion failed: " + outcome.stderr)
    ensures outcome.TimedOut? ==> out.1 == r.WithError("Sony conversion timed out")
  {
    match outcome
    case Exited(code, stderr) =>
      if code != 0 then (false, r.WithError("Sony conversion failed: " + stderr)) else (true, r)
    case TimedOut => (false, r.WithError("Sony conversion timed out"))
    case NotFound(m) =>
      if viaWsl then (false, r.WithError("WSL interop error: " + m))
      else (false, r.WithError("Sony tool not found: " + toolPath))
    case Failed(m) =>
      if viaWsl then (false, r.WithError("WSL interop error: " + m))
      else (false, r.WithError("Conversion error: " + m))
  }

  /** A configured stage: its name, the tool's path and whether it runs
      under WSL. */
  datatype SonyConfig = SonyConfig(name: string, toolPath: string, isWsl: bool)

  /** The stage's configuration on construction: the name defaults to the
      class name, the tool path to the standard install location, and WSL
      is detected once. */
  function NewSonyConfig(name: Option<string>, toolPath: Option<string>, osName: string,
                         procVersion: Option<string>): (c: SonyConfig)
    ensures c.name == StageName(name, "SonyRawConversionStage")
    ensures c.toolPath == (if toolPath.Some? && toolPath.value != "" then toolPath.value else DefaultToolPath)
    ensures c.isWsl == DetectWsl(osName, procVersion)
  {
    SonyConfig(StageName(name, "SonyRawConversionStage"),
               if toolPath.Some? && toolPath.value != "" then toolPath.value else DefaultToolPath,
               DetectWsl(osName, procVersion))
  }

  /** What the stage observes of the world: the file system before the
      conversion, what creating a directory reports, how paths resolve, the
      distribution variable, how a command ends, and which paths exist once
      the tool has run. */
  datatype SonyEnv = SonyEnv(
    fs: FileSystem,
    mkdirFailure: Path -> Option<string>,
    resolve: Path -> Path,
    distroVariable: Option<string>,
    run: seq<string> -> ToolOutcome,
    produced: set<Path>)

  /** The report of the conversion run, natively or through WSL. */
  function ConversionRan(cfg: SonyConfig, env: SonyEnv, source: Path, pattern: Path, inFrame: int,
                         outFrame: int, bitDepth: string, r: ResultRecord): (bool, ResultRecord)
  {
    if cfg.isWsl then
      var cmd := WslCommand(cfg.toolPath, env.resolve, DistroName(env.distroVariable), source, pattern,
                            inFrame, outFrame, bitDepth);
      ToolReport(true, cfg.toolPath, env.run(cmd), r)
    else
      ToolReport(false, cfg.toolPath, env.run(NativeCommand(cfg.toolPath, source, pattern, inFrame, outFrame, bitDepth)), r)
  }

  method RunNative(cfg: SonyConfig, env: SonyEnv, source: Path, pattern: Path, inFrame: int, outFrame: int,
                   bitDepth: string, result: ProcessingResult) returns (ok: bool)
    modifies result
    ensures (ok, result.Record())
         == ToolReport(false, cfg.toolPath, env.run(NativeCommand(cfg.toolPath, source, pattern, inFrame, outFrame, bitDepth)),
                       old(result.Record()))
  {
    var cmd := [cfg.toolPath] + ["-i", ToString(source), "-o", ToString(pattern), "-start", IntToString(inFrame),
               "-end", IntToString(outFrame), "-bit_depth", bitDepth, "-format", "dpx", "-colorspace", "linear"];
    var outcome := env.run(cmd);
    match outcome {
      case Exited(code, stderr) =>
        if code != 0 {
          result.AddError("Sony conversion failed: " + stderr);
          return false;
        }
        return true;
      case TimedOut =>
        result.AddError("Sony conversion timed out");
        return false;
      case NotFound(_) =>
        result.AddError("Sony tool not found: " + cfg.toolPath);
        return false;
      case Failed(m) =>
        result.AddError("Conversion error: " + m);
        return false;
    }
  }

  method RunViaWslInterop(cfg: SonyConfig, env: SonyEnv, source: Path, pattern: Path, inFrame: int,
                          outFrame: int, bitDepth: string, result: ProcessingResult) returns (ok: bool)
    modifies result
    ensures (ok, result.Record())
         == ToolReport(true, cfg.toolPath,
                       env.run(WslCommand(cfg.toolPath, env.resolve, DistroName(env.distroVariable), source,
                                          pattern, inFrame, outFrame, bitDepth)),
                       old(result.Record()))
  {
    var distro := DistroName(env.distroVariable);
    var winSource := ToWindowsPath(ToString(env.resolve(source)), distro);
    var winOutput := ToWindowsPath(ToString(env.resolve(pattern)), distro);
    var cmd := ["cmd.exe", "/c", cfg.toolPath] + ["-i", winSource, "-o", winOutput, "-start", IntToString(inFrame),
               "-end", IntToString(outFrame), "-bit_depth", bitDepth, "-format", "dpx", "-colorspace", "linear"];
    var outcome := env.run(cmd);
    match outcome {
      case Exited(code, stderr) =>
        if code != 0 {
          result.AddError("Sony conversion failed: " + stderr);
          return false;
        }
        return true;
      case TimedOut =>
        result.AddError("Sony conversion timed out");
        return false;
      case NotFound(m) =>
        result.AddError("WSL interop error: " + m);
        return false;
      case Failed(m) =>
        result.AddError("WSL interop error: " + m);
        return false;
    }
  }

  method RunSonyConversion(cfg: SonyConfig, env: SonyEnv, source: Path, pattern: Path, inFrame: int,
                           outFrame: int, bitDepth: string, result: ProcessingResult) returns (ok: bool)
    modifies result
    ensures (ok, result.Record())
         == ConversionRan(cfg, env, source, pattern, inFrame, outFrame, bitDepth, old(result.Record()))
  {
    if cfg.isWsl {
      ok := RunViaWslInterop(cfg, env, source, pattern, inFrame, outFrame, bitDepth, result);
    } else {
      ok := RunNative(cfg, env, source, pattern, inFrame, outFrame, bitDepth, result);
    }
  }

  // ---------------------------------------------------------------------------
  // The stage
  // ---------------------------------------------------------------------------

  /** The stage's input check: the base check, then a source path must be
      set; the first failure adds its one error. */
  function SonyValidated(shot: ShotRecord, r: ResultRecord): (out: (bool, ResultRecord))
    ensures out.0 <==> shot.sourceRawPath.Some?
    ensures out.0 ==> out.1 == r
    ensures !out.0 ==> out.1 == r.WithError("Source raw path not specified")
  {
    var base := ValidatedInputs(true, r);
    if !base.0 then base
    else if shot.sourceRawPath.None? then (false, r.WithError("Source raw path not specified"))
    else (true, r)
  }

  method SonyValidateInputs(shot: ShotInfo, result: ProcessingResult) returns (ok: bool)
    modifies result
    ensures (ok, result.Record()) == SonyValidated(shot.Snapshot(), old(result.Record()))
  {
    ok := ValidateInputs(shot, result);
    if !ok {
      return false;
    }
    if shot.sourceRawPath.None? {
      result.AddError("Source raw path not specified");
      return false;
    }
    return true;
  }

  /** The output directory: the `output_dir` keyword when given, else
      `/tmp/sony_conversion/<shot name>`; a value that is not text cannot
      be made a path. */
  function OutputDir(shotName: string, ctx: Context): (r: Result<Path>)
    ensures ("output_dir" !in ctx || ctx["output_dir"] == Null) ==>
      r == Success(Parse("/tmp/sony_conversion/" + shotName))
    ensures "output_dir" in ctx && ctx["output_dir"].Str? ==> r == Success(Parse(ctx["output_dir"].s))
    ensures "output_dir" in ctx && !ctx["output_dir"].Null? && !ctx["output_dir"].Str? ==>
      r == Failure(PathArgumentError(ctx["output_dir"]))
  {
    if "output_dir" !in ctx || ctx["output_dir"].Null? then Success(Parse("/tmp/sony_conversion/" + shotName))
    else if ctx["output_dir"].Str? then Success(Parse(ctx["output_dir"].s))
    else Failure(PathArgumentError(ctx["output_dir"]))
  }

  /** The message for a sequence that came out short. */
  function ShortfallWarning(created: int, expected: int): string
  {
    "Only " + IntToString(created) + " of " + IntToString(expected) + " frames were created"
  }

  /** The DPX sequence the conversion is expected to produce: named after
      the shot, spanning the shot's frames, padded to four digits. */
  function DpxSequence(shot: ShotRecord, dir: Path): ImageSequence
  {
    ImageSequence(dir, shot.ShotName(), "dpx", shot.firstFrame, shot.lastFrame, 4)
  }

  /** The result after a successful conversion: a warning when fewer frames
      exist than expected, and the sequence, the directory and the count
      recorded either way. */
  function RecordOutputs(shot: ShotRecord, dir: Path, produced: set<Path>, r: ResultRecord): ResultRecord
  {
    var dpx := DpxSequence(shot, dir);
    var frames := dpx.ExistingFrames(produced);
    var warned := if |frames| != dpx.TotalFrames() then r.WithWarning(ShortfallWarning(|frames|, dpx.TotalFrames())) else r;
    warned.(data := warned.data["dpx_sequence" := Dict(dpx.ToDict())]
                               ["output_dir" := Str(ToString(dir))]
                               ["frames_created" := Int(|frames|)])
  }

  /** The steps once the output directory exists: run the tool, and on
      success record what it produced. */
  function ConvertedStep(cfg: SonyConfig, env: SonyEnv, shot: ShotRecord, source: Path, dir: Path, ctx: Context,
                         r: ResultRecord): ResultRecord
  {
    var range := RawFrameRange(shot.editorialInfo);
    var pattern := JoinPath(dir, shot.ShotName() + ".%04d.dpx");
    var ran := ConversionRan(cfg, env, source, pattern, range.0, range.1, BitDepthText(ctx), r);
    if !ran.0 then ran.1 else RecordOutputs(shot, dir, env.produced, ran.1)
  }

  /** The stage's `process`, step by step, stopping at the first step that
      fails. */
  function SonyProcessSpec(cfg: SonyConfig, env: SonyEnv, shot: ShotRecord, r: ResultRecord, ctx: Context): ProcessOutcome
  {
    var valid := SonyValidated(shot, r);
    if !valid.0 then Normal(valid.1)
    else
      var source := shot.sourceRawPath.value;
      var checked := FileChecked(source, env.fs, valid.1);
      if !checked.0 then Normal(checked.1)
      else
        match OutputDir(shot.ShotName(), ctx)
        case Failure(e) => Raised(checked.1, e)
        case Success(dir) =>
          var created := DirectoryCreated(dir, env.mkdirFailure(dir), checked.1);
          if !created.0 then Normal(created.1)
          else Normal(ConvertedStep(cfg, env, shot, source, dir, ctx, created.1))
  }

  /** The stage as the pipeline sees it. */
  function SonyStage(cfg: SonyConfig, env: SonyEnv): Stage
  {
    Stage(cfg.name, (shot, r, ctx) => SonyProcessSpec(cfg, env, shot, r, ctx))
  }

  /** The stage's `process` on the result object; a raise is reported as
      `Some(message)`, with the result left as it was at that point. */
  method SonyProcess(cfg: SonyConfig, env: SonyEnv, shot: ShotInfo, result: ProcessingResult, ctx: Context)
    returns (raised: Option<string>)
    modifies result
    ensures var o := SonyProcessSpec(cfg, env, shot.Snapshot(), old(result.Record()), ctx);
      (o.Normal? ==> raised.None? && result.Record() == o.result)
      && (o.Raised? ==> raised == Some(o.error) && result.Record() == o.partial)
  {
    var ok := SonyValidateInputs(shot, result);
    if !ok {
      return None;
    }
    var sourceFile := shot.sourceRawPath.value;
    ok := VerifyFileExists(sourceFile, env.fs, result);
    if !ok {
      return None;
    }
    var shotName := shot.Snapshot().ShotName();
    var outputDir := OutputDir(shotName, ctx);
    if outputDir.Failure? {
      return Some(outputDir.error);
    }
    var dir := outputDir.value;
    ok := CreateDirectory(dir, env.mkdirFailure(dir), result);
    if !ok {
      return None;
    }
    ConvertAndRecord(cfg, env, shot, sourceFile, dir, ctx, result);
    return None;
  }

  /** The tool run and, when it succeeds, the check of the frames it
      produced and the recording of the sequence. */
  method ConvertAndRecord(cfg: SonyConfig, env: SonyEnv, shot: ShotInfo, sourceFile: Path, dir: Path, ctx: Context,
                          result: ProcessingResult)
    modifies result
    ensures result.Record() == ConvertedStep(cfg, env, shot.Snapshot(), sourceFile, dir, ctx, old(result.Record()))
  {
    var shotName := shot.Snapshot().ShotName();
    var inFrame := shot.editorialInfo.inPoint - Naming.HeadHandleFrames;
    var outFrame := shot.editorialInfo.outPoint + Naming.TailHandleFrames;
    var outputPattern := JoinPath(dir, shotName + ".%04d.dpx");
    var ok := RunSonyConversion(cfg, env, sourceFile, outputPattern, inFrame, outFrame, BitDepthText(ctx), result);
    if ok {
      RecordSequence(shot, dir, env.produced, result);
    }
  }

  /** Counting the frames that exist, warning on a shortfall and recording
      the sequence, its directory and the count. */
  method RecordSequence(shot: ShotInfo, dir: Path, produced: set<Path>, result: ProcessingResult)
    modifies result
    ensures result.Record() == RecordOutputs(shot.Snapshot(), dir, produced, old(result.Record()))
  {
    var shotName := shot.Snapshot().ShotName();
    var dpxSequence := ImageSequence(dir, shotName, "dpx", shot.firstFrame, shot.lastFrame, 4);
    var existingFrames := dpxSequence.VerifyExists(produced);
    var expectedFrames := dpxSequence.TotalFrames();
    if |existingFrames| != expectedFrames {
      result.AddWarning(ShortfallWarning(|existingFrames|, expectedFrames));
    }
    result.data := result.data["dpx_sequence" := Dict(dpxSequence.ToDict())];
    result.data := result.data["output_dir" := Str(ToString(dir))];
    result.data := result.data["frames_created" := Int(|existingFrames|)];
  }

  /** The steps before the tool runs all pass. */
  predicate ReachesConversion(env: SonyEnv, shot: ShotRecord, ctx: Context)
  {
    shot.sourceRawPath.Some?
    && shot.sourceRawPath.value in env.fs.existing
    && shot.sourceRawPath.value in env.fs.regularFiles
    && OutputDir(shot.ShotName(), ctx).Success?
    && env.mkdirFailure(OutputDir(shot.ShotName(), ctx).value).None?
  }

  /** How the tool run ends for a shot that reaches it. */
  function ConversionOutcome(cfg: SonyConfig, env: SonyEnv, shot: ShotRecord, ctx: Context): ToolOutcome
    requires ReachesConversion(env, shot, ctx)
  {
    var dir := OutputDir(shot.ShotName(), ctx).value;
    var range := RawFrameRange(shot.editorialInfo);
    var pattern := JoinPath(dir, shot.ShotName() + ".%04d.dpx");
    var bitDepth := BitDepthText(ctx);
    if cfg.isWsl then
      env.run(WslCommand(cfg.toolPath, env.resolve, DistroName(env.distroVariable), shot.sourceRawPath.value,
                         pattern, range.0, range.1, bitDepth))
    else
      env.run(NativeCommand(cfg.toolPath, shot.sourceRawPath.value, pattern, range.0, range.1, bitDepth))
  }

  /** Each early exit adds exactly its one error and records nothing: a
      missing source path, a missing source file, a failed conversion and a
      timeout. */
  lemma SonyProcessFailures(cfg: SonyConfig, env: SonyEnv, shot: ShotRecord, r: ResultRecord, ctx: Context)
    ensures shot.sourceRawPath.None? ==>
      SonyProcessSpec(cfg, env, shot, r, ctx) == Normal(r.WithError("Source raw path not specified"))
    ensures shot.sourceRawPath.Some? && shot.sourceRawPath.value !in env.fs.existing ==>
      SonyProcessSpec(cfg, env, shot, r, ctx)
        == Normal(r.WithError("File does not exist: " + ToString(shot.sourceRawPath.value)))
    ensures ReachesConversion(env, shot, ctx) && ConversionOutcome(cfg, env, shot, ctx).Exited?
            && ConversionOutcome(cfg, env, shot, ctx).code != 0 ==>
      SonyProcessSpec(cfg, env, shot, r, ctx)
        == Normal(r.WithError("Sony conversion failed: " + ConversionOutcome(cfg, env, shot, ctx).stderr))
    ensures ReachesConversion(env, shot, ctx) && ConversionOutcome(cfg, env, shot, ctx).TimedOut? ==>
      SonyProcessSpec(cfg, env, shot, r, ctx) == Normal(r.WithError("Sony conversion timed out"))
  {
  }

  /** After a successful conversion a frame shortfall only warns: success
      and errors are untouched, exactly one warning is added when fewer
      frames exist than the shot spans and none otherwise, and the sequence,
      directory and frame count are recorded either way. */
  lemma SonyProcessSuccess(cfg: SonyConfig, env: SonyEnv, shot: ShotRecord, r: ResultRecord, ctx: Context)
    requires ReachesConversion(env, shot, ctx)
    requires ConversionOutcome(cfg, env, shot, ctx).Exited? && ConversionOutcome(cfg, env, shot, ctx).code == 0
    ensures var o := SonyProcessSpec(cfg, env, shot, r, ctx);
      var dir := OutputDir(shot.ShotName(), ctx).value;
      var frames := DpxSequence(shot, dir).ExistingFrames(env.produced);
      var total := shot.lastFrame - shot.firstFrame + 1;
      o.Normal?
      && o.result.success == r.success && o.result.errors == r.errors
      && (|frames| != total ==> o.result.warnings == r.warnings + [ShortfallWarning(|frames|, total)])
      && (|frames| == total ==> o.result.warnings == r.warnings)
      && o.result.data.Keys == r.data.Keys + {"dpx_sequence", "output_dir", "frames_created"}
      && o.result.data["frames_created"] == Int(|frames|)
      && o.result.data["output_dir"] == Str(ToString(dir))
  {
    var source := shot.sourceRawPath.value;
    var dir := OutputDir(shot.ShotName(), ctx).value;
    assert SonyValidated(shot, r) == (true, r);
    assert FileChecked(source, env.fs, r) == (true, r);
    assert DirectoryCreated(dir, env.mkdirFailure(dir), r) == (true, r);
    var range := RawFrameRange(shot.editorialInfo);
    var pattern := JoinPath(dir, shot.ShotName() + ".%04d.dpx");
    assert ConversionRan(cfg, env, source, pattern, range.0, range.1, BitDepthText(ctx), r) == (true, r);
    assert SonyProcessSpec(cfg, env, shot, r, ctx) == Normal(RecordOutputs(shot, dir, env.produced, r));
    RecordOutputsFacts(shot, dir, env.produced, r);
  }

  /** Recording the outputs leaves success and errors alone, warns once on a
      shortfall, and adds exactly the three output keys. */
  lemma RecordOutputsFacts(shot: ShotRecord, dir: Path, produced: set<Path>, r: ResultRecord)
    ensures var x := RecordOutputs(shot, dir, produced, r);
      var frames := DpxSequence(shot, dir).ExistingFrames(produced);
      var total := shot.lastFrame - shot.firstFrame + 1;
      x.success == r.success && x.errors == r.errors
      && (|frames| != total ==> x.warnings == r.warnings + [ShortfallWarning(|frames|, total)])
      && (|frames| == total ==> x.warnings == r.warnings)
      && x.data.Keys == r.data.Keys + {"dpx_sequence", "output_dir", "frames_created"}
      && x.data["frames_created"] == Int(|frames|)
      && x.data["output_dir"] == Str(ToString(dir))
  {
  }
}
