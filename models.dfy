/** The records passed between pipeline stages: editorial cut information,
    the shot being ingested, the result of one stage, and image sequences on
    disk. */
module Models {
  import opened Values
  import opened Strings
  import opened Paths
  import Naming

  // ---------------------------------------------------------------------------
  // Editorial cut information
  // ---------------------------------------------------------------------------

  /** Where a shot sits in its source clip. The frame rate is carried as an
      opaque number: nothing here computes with it. */
  datatype EditorialCutInfo = EditorialCutInfo(
    sequence: string,
    shot: string,
    sourceFile: Path,
    inPoint: int,
    outPoint: int,
    sourceTimecodeStart: Option<string> := None,
    sourceFps: real := 24.0,
    metadata: map<string, Value> := map[])
  {
    /** The number of frames from the in-point to the out-point, both
        included. */
    function DurationFrames(): int
    {
      outPoint - inPoint + 1
    }
  }

  /** The frames of the inclusive range `[first, last]`. */
  function FramesBetween(first: int, last: int): (frames: set<int>)
    ensures forall f :: f in frames <==> first <= f <= last
    decreases last - first
  {
    if first > last then {} else FramesBetween(first, last - 1) + {last}
  }

  lemma {:induction false} FramesBetweenCount(first: int, last: int)
    requires first <= last + 1
    ensures |FramesBetween(first, last)| == last - first + 1
    decreases last - first + 1
  {
    if first <= last {
      FramesBetweenCount(first, last - 1);
      assert last !in FramesBetween(first, last - 1);
    }
  }

  /** The editorial duration counts the frames of the cut, in-point and
      out-point included. */
  lemma DurationCountsFrames(e: EditorialCutInfo)
    requires e.inPoint <= e.outPoint + 1
    ensures |FramesBetween(e.inPoint, e.outPoint)| == e.DurationFrames()
  {
    FramesBetweenCount(e.inPoint, e.outPoint);
  }

  // ---------------------------------------------------------------------------
  // Shots
  // ---------------------------------------------------------------------------

  /** A shot's processing status. */
  datatype Status = Pending | Processing | Complete | Error
  {
    /** The status word stored on the shot. */
    function Name(): string
    {
      match this
      case Pending => "pending"
      case Processing => "processing"
      case Complete => "complete"
      case Error => "error"
    }
  }

  /** The frame layout set up on construction: a given last frame is kept
      together with the given total; without one, the total is the
      editorial duration plus both handles and the last frame closes that
      many frames from the first. */
  function PostInitFrames(firstFrame: int, lastFrame: Option<int>, totalFrames: Option<int>,
                          duration: int): (r: (int, Option<int>))
    ensures lastFrame.Some? ==> r == (lastFrame.value, totalFrames)
    ensures lastFrame.None? ==>
      r.1 == Some(duration + Naming.HeadHandleFrames + Naming.TailHandleFrames)
      && r.0 - firstFrame + 1 == r.1.value
  {
    match lastFrame
    case Some(last) => (last, totalFrames)
    case None =>
      var total := duration + Naming.HeadHandleFrames + Naming.TailHandleFrames;
      (firstFrame + total - 1, Some(total))
  }

  /** The state of a shot at one moment, with the names derived from it. */
  datatype ShotRecord = ShotRecord(
    project: string,
    sequence: string,
    shot: string,
    editorialInfo: EditorialCutInfo,
    taskType: string,
    elementName: string,
    version: int,
    representation: string,
    firstFrame: int,
    lastFrame: int,
    totalFrames: Option<int>,
    sourceRawPath: Option<Path>,
    outputSequencePath: Option<Path>,
    outputProxyPath: Option<Path>,
    versionContainerPath: Option<Path>,
    processingStatus: Status)
  {
    function ShotName(): string
    {
      Naming.FormatShotName(sequence, shot)
    }

    function VersionString(): string
    {
      Naming.FormatVersion(version)
    }

    function VersionContainerName(): string
    {
      Naming.VersionContainerName(ShotName(), taskType, elementName, version)
    }

    /** `{first}-{last}`. */
    function FrameRange(): string
    {
      IntToString(firstFrame) + "-" + IntToString(lastFrame)
    }

    function GetBaseFilename(colorspace: string): string
    {
      Naming.BaseFilename(ShotName(), taskType, elementName, version, representation, colorspace)
    }

    function GetSequenceFilename(frame: int, colorspace: string, extension: string): string
    {
      Naming.SequenceFilename(ShotName(), taskType, elementName, version, representation,
                              colorspace, frame, extension)
    }

    /** The proxy movie's name: always the `proxy` representation. */
    function GetProxyFilename(colorspace: string := "sRGB", extension: string := "mov"): string
    {
      Naming.MovieFilename(ShotName(), taskType, elementName, version, Naming.RepProxy,
                           colorspace, extension)
    }
  }

  /** A shot as its constructor leaves it: status pending, frames laid out by
      `PostInitFrames`. */
  function NewShotRecord(project: string, sequence: string, shot: string, editorialInfo: EditorialCutInfo,
                         taskType: string, elementName: string, version: int, representation: string,
                         firstFrame: int, lastFrame: Option<int>, totalFrames: Option<int>,
                         sourceRawPath: Option<Path>, outputSequencePath: Option<Path>,
                         outputProxyPath: Option<Path>, versionContainerPath: Option<Path>): ShotRecord
  {
    var frames := PostInitFrames(firstFrame, lastFrame, totalFrames, editorialInfo.DurationFrames());
    ShotRecord(project, sequence, shot, editorialInfo, taskType, elementName, version, representation,
               firstFrame, frames.0, frames.1, sourceRawPath, outputSequencePath, outputProxyPath,
               versionContainerPath, Pending)
  }

  /** A shot built with every default: pending, the `pla`/`rawPlate` main
      element at version 1, starting at the sequence start frame 993, and
      spanning the editorial duration plus 8 head and 8 tail frames. */
  lemma DefaultShot(project: string, sequence: string, shot: string, e: EditorialCutInfo)
    ensures var r := NewShotRecord(project, sequence, shot, e, Naming.TaskTypePlates, Naming.ElementRawPlate,
                                   1, Naming.RepMain, Naming.SequenceStartFrame, None, None,
                                   None, None, None, None);
      r.processingStatus.Name() == "pending"
      && r.firstFrame == 993
      && r.taskType == "pla" && r.elementName == "rawPlate" && r.version == 1 && r.representation == "main"
      && r.totalFrames == Some(e.DurationFrames() + 16)
      && r.lastFrame == 993 + e.DurationFrames() + 15
      && r.VersionString() == "v001"
  {
    Naming.PaddingExamples();
  }

  /** The frame range reads back, split at its dash, as the first and last
      frame numbers when both are non-negative. */
  lemma FrameRangeSplits(s: ShotRecord)
    requires s.firstFrame >= 0 && s.lastFrame >= 0
    ensures Split(s.FrameRange(), '-') == [IntToString(s.firstFrame), IntToString(s.lastFrame)]
  {
    var a := Digits(s.firstFrame);
    var b := Digits(s.lastFrame);
    DigitsExclude(a, '-');
    DigitsExclude(b, '-');
    assert s.FrameRange() == a + ['-'] + b;
    SplitAfterSeparator(a, '-', b);
    SplitWithoutSeparator(b, '-');
  }

  /** The proxy filename ignores the shot's representation: it is the base
      filename of the `proxy` representation, a dot and the extension, with
      `sRGB` and `mov` as defaults. */
  lemma ProxyFilenameIgnoresRepresentation(s: ShotRecord, rep: string, colorspace: string, extension: string)
    ensures s.(representation := rep).GetProxyFilename(colorspace, extension)
         == s.GetProxyFilename(colorspace, extension)
    ensures s.GetProxyFilename(colorspace, extension)
         == s.(representation := "proxy").GetBaseFilename(colorspace) + "." + extension
    ensures s.GetProxyFilename() == s.(representation := "proxy").GetBaseFilename("sRGB") + ".mov"
  {
  }

  /** The sequence filename does use the shot's representation: it is the
      version container's name, the representation and the colorspace, then
      the padded frame and the extension. */
  lemma SequenceFilenameUsesRepresentation(s: ShotRecord, frame: int, colorspace: string, extension: string)
    ensures s.GetSequenceFilename(frame, colorspace, extension)
         == s.VersionContainerName() + "_" + s.representation + "_" + colorspace
            + "." + Naming.FormatFrame(frame) + "." + extension
  {
    Naming.ContainerPrefixesBase(s.ShotName(), s.taskType, s.elementName, s.version, s.representation, colorspace);
  }

  /** The naming getters of a shot follow the naming rules from its own
      fields: the shot name starts with the sequence, a non-negative version
      string is `v` and digits that read back as the version, the container
      name is the shot name, task, element and version string joined by `_`,
      and it opens every base filename, followed by the representation and
      the colorspace. */
  lemma ShotRecordNames(s: ShotRecord, colorspace: string)
    ensures s.sequence <= s.ShotName() && |s.ShotName()| == |s.sequence| + |s.shot|
    ensures s.version >= 0 ==>
      s.VersionString()[0] == 'v' && DecimalValue(s.VersionString()[1..]) == s.version
    ensures s.VersionContainerName()
         == s.ShotName() + "_" + s.taskType + "_" + s.elementName + "_" + s.VersionString()
    ensures s.GetBaseFilename(colorspace)
         == s.VersionContainerName() + "_" + s.representation + "_" + colorspace
  {
    Naming.ShotNameIsConcatenation(s.sequence, s.shot);
    if s.version >= 0 {
      Naming.FormatVersionShape(s.version);
    }
    Naming.ContainerPrefixesBase(s.ShotName(), s.taskType, s.elementName, s.version, s.representation, colorspace);
  }

  /** The documented examples: shot 100 of sequence `sht`, plates, raw
      plate, version 1, main representation, in ACEScg. */
  lemma ShotRecordNamesExample(s: ShotRecord)
    requires s.sequence == "sht" && s.shot == "100" && s.taskType == "pla"
    requires s.elementName == "rawPlate" && s.version == 1 && s.representation == "main"
    ensures s.ShotName() == "sht100"
    ensures s.VersionString() == "v001"
    ensures s.VersionContainerName() == "sht100_pla_rawPlate_v001"
    ensures s.GetBaseFilename("ACEScg") == "sht100_pla_rawPlate_v001_main_ACEScg"
  {
    Naming.PaddingExamples();
  }

  /** A shot whose fields stages and the orchestrator update in place. */
  class ShotInfo {
    var project: string
    var sequence: string
    var shot: string
    var editorialInfo: EditorialCutInfo
    var taskType: string
    var elementName: string
    var version: int
    var representation: string
    var firstFrame: int
    var lastFrame: int
    var totalFrames: Option<int>
    var sourceRawPath: Option<Path>
    var outputSequencePath: Option<Path>
    var outputProxyPath: Option<Path>
    var versionContainerPath: Option<Path>
    var processingStatus: Status

    /** The fields as a value. */
    function Snapshot(): ShotRecord
      reads this
    {
      ShotRecord(project, sequence, shot, editorialInfo, taskType, elementName, version, representation,
                 firstFrame, lastFrame, totalFrames, sourceRawPath, outputSequencePath, outputProxyPath,
                 versionContainerPath, processingStatus)
    }

    /** Construction with the class's defaults, followed by the frame layout
        of `PostInitFrames`. */
    constructor (project: string, sequence: string, shot: string, editorialInfo: EditorialCutInfo,
                 taskType: string := Naming.TaskTypePlates, elementName: string := Naming.ElementRawPlate,
                 version: int := 1, representation: string := Naming.RepMain,
                 firstFrame: int := Naming.SequenceStartFrame, lastFrame: Option<int> := None,
                 totalFrames: Option<int> := None, sourceRawPath: Option<Path> := None,
                 outputSequencePath: Option<Path> := None, outputProxyPath: Option<Path> := None,
                 versionContainerPath: Option<Path> := None)
      ensures Snapshot() == NewShotRecord(project, sequence, shot, editorialInfo, taskType, elementName,
                                          version, representation, firstFrame, lastFrame, totalFrames,
                                          sourceRawPath, outputSequencePath, outputProxyPath,
                                          versionContainerPath)
    {
      this.project := project;
      this.sequence := sequence;
      this.shot := shot;
      this.editorialInfo := editorialInfo;
      this.taskType := taskType;
      this.elementName := elementName;
      this.version := version;
      this.representation := representation;
      this.firstFrame := firstFrame;
      this.sourceRawPath := sourceRawPath;
      this.outputSequencePath := outputSequencePath;
      this.outputProxyPath := outputProxyPath;
      this.versionContainerPath := versionContainerPath;
      this.processingStatus := Pending;
      if lastFrame.None? {
        var duration := editorialInfo.DurationFrames();
        var handles := Naming.HeadHandleFrames + Naming.TailHandleFrames;
        this.totalFrames := Some(duration + handles);
        this.lastFrame := firstFrame + (duration + handles) - 1;
      } else {
        this.totalFrames := totalFrames;
        this.lastFrame := lastFrame.value;
      }
    }

    /** Record a new processing status; nothing else changes. */
    method SetStatus(status: Status)
      modifies this
      ensures Snapshot() == old(Snapshot()).(processingStatus := status)
    {
      processingStatus := status;
    }
  }

  // ---------------------------------------------------------------------------
  // Stage results
  // ---------------------------------------------------------------------------

  /** The result of one stage, as a value. */
  datatype ResultRecord = ResultRecord(
    stageName: string,
    success: bool,
    message: string,
    data: map<string, Value>,
    errors: seq<string>,
    warnings: seq<string>,
    durationSeconds: Option<real>)
  {
    /** One more error, and the result has failed. */
    function WithError(error: string): (r: ResultRecord)
      ensures r.errors == errors + [error] && !r.success
      ensures r.warnings == warnings && r.stageName == stageName && r.message == message
      ensures r.data == data && r.durationSeconds == durationSeconds
    {
      this.(errors := errors + [error], success := false)
    }

    /** One more warning; success and errors are untouched. */
    function WithWarning(warning: string): (r: ResultRecord)
      ensures r.warnings == warnings + [warning]
      ensures r.success == success && r.errors == errors && r.stageName == stageName
      ensures r.message == message && r.data == data && r.durationSeconds == durationSeconds
    {
      this.(warnings := warnings + [warning])
    }
  }

  /** A result with no data, errors, warnings or duration yet. */
  function NewResult(stageName: string, success: bool, message: string): ResultRecord
  {
    ResultRecord(stageName, success, message, map[], [], [], None)
  }

  /** One call of `add_error` or `add_warning`. */
  datatype Note = ErrorNote(text: string) | WarningNote(text: string)

  /** The result after the notes are added in order. */
  function Annotate(r: ResultRecord, notes: seq<Note>): ResultRecord
    decreases |notes|
  {
    if notes == [] then r
    else
      var next := match notes[0]
        case ErrorNote(e) => r.WithError(e)
        case WarningNote(w) => r.WithWarning(w);
      Annotate(next, notes[1..])
  }

  function ErrorTexts(notes: seq<Note>): seq<string>
  {
    if notes == [] then []
    else (if notes[0].ErrorNote? then [notes[0].text] else []) + ErrorTexts(notes[1..])
  }

  function WarningTexts(notes: seq<Note>): seq<string>
  {
    if notes == [] then []
    else (if notes[0].WarningNote? then [notes[0].text] else []) + WarningTexts(notes[1..])
  }

  /** Errors and warnings accumulate in the order they are added, and a
      result still succeeds afterwards exactly when it succeeded before and
      no error was added: warnings never affect success, and nothing but a
      fresh assignment turns a failure back into success. */
  lemma {:induction false} AnnotateAccumulates(r: ResultRecord, notes: seq<Note>)
    ensures var a := Annotate(r, notes);
      a.errors == r.errors + ErrorTexts(notes)
      && a.warnings == r.warnings + WarningTexts(notes)
      && (a.success <==> r.success && ErrorTexts(notes) == [])
      && a.stageName == r.stageName && a.message == r.message && a.data == r.data
      && a.durationSeconds == r.durationSeconds
    decreases |notes|
  {
    if notes != [] {
      var next := match notes[0]
        case ErrorNote(e) => r.WithError(e)
        case WarningNote(w) => r.WithWarning(w);
      AnnotateAccumulates(next, notes[1..]);
      if notes[0].ErrorNote? {
        assert r.errors + ErrorTexts(notes) == r.errors + [notes[0].text] + ErrorTexts(notes[1..]);
        assert WarningTexts(notes) == WarningTexts(notes[1..]);
      } else {
        assert r.warnings + WarningTexts(notes) == r.warnings + [notes[0].text] + WarningTexts(notes[1..]);
        assert ErrorTexts(notes) == ErrorTexts(notes[1..]);
      }
    }
  }

  /** The result object a stage fills in. */
  class ProcessingResult {
    var stageName: string
    var success: bool
    var message: string
    var data: map<string, Value>
    var errors: seq<string>
    var warnings: seq<string>
    var durationSeconds: Option<real>

    function Record(): ResultRecord
      reads this
    {
      ResultRecord(stageName, success, message, data, errors, warnings, durationSeconds)
    }

    constructor (stageName: string, success: bool, message: string)
      ensures Record() == NewResult(stageName, success, message)
    {
      this.stageName := stageName;
      this.success := success;
      this.message := message;
      data := map[];
      errors := [];
      warnings := [];
      durationSeconds := None;
    }

    /** Append one error and mark the result failed. */
    method AddError(error: string)
      modifies this
      ensures Record() == old(Record()).WithError(error)
    {
      errors := errors + [error];
      success := false;
    }

    /** Append one warning. */
    method AddWarning(warning: string)
      modifies this
      ensures Record() == old(Record()).WithWarning(warning)
    {
      warnings := warnings + [warning];
    }

    /** Overwrite every field, as code that owns the result may. */
    method Assign(r: ResultRecord)
      modifies this
      ensures Record() == r
    {
      stageName := r.stageName;
      success := r.success;
      message := r.message;
      data := r.data;
      errors := r.errors;
      warnings := r.warnings;
      durationSeconds := r.durationSeconds;
    }
  }

  // ---------------------------------------------------------------------------
  // Files and image sequences
  // ---------------------------------------------------------------------------

  /** What can be observed of the file system: the paths that exist and,
      among them, the regular files. */
  datatype FileSystem = FileSystem(existing: set<Path>, regularFiles: set<Path>)

  /** A numbered image sequence `{base}.{frame}.{extension}` in a directory. */
  datatype ImageSequence = ImageSequence(
    directory: Path,
    baseName: string,
    extension: string,
    firstFrame: int,
    lastFrame: int,
    framePadding: int := 4)
  {
    function TotalFrames(): int
    {
      lastFrame - firstFrame + 1
    }

    /** `{base}.%0{padding}d.{extension}`. */
    function Pattern(): string
    {
      baseName + ".%0" + IntToString(framePadding) + "d." + extension
    }

    function FullPattern(): Path
    {
      JoinPath(directory, Pattern())
    }

    /** The file name of one frame: the frame number zero-filled to the
        padding. */
    function FrameFileName(frame: int): string
    {
      baseName + "." + ZFill(IntToString(frame), framePadding) + "." + extension
    }

    function GetFramePath(frame: int): Path
    {
      JoinPath(directory, FrameFileName(frame))
    }

    /** The file of `frame` is among the existing paths. */
    predicate FrameExists(existing: set<Path>, frame: int)
    {
      GetFramePath(frame) in existing
    }

    function ToDict(): map<string, Value>
    {
      map["directory" := Str(Paths.ToString(directory)),
          "base_name" := Str(baseName),
          "extension" := Str(extension),
          "first_frame" := Int(firstFrame),
          "last_frame" := Int(lastFrame),
          "total_frames" := Int(TotalFrames()),
          "pattern" := Str(Pattern()),
          "full_pattern" := Str(Paths.ToString(FullPattern()))]
    }

    /** Whether a frame's file is among the existing paths, as a test on
        frame numbers. */
    function Present(existing: set<Path>): int -> bool
    {
      f => FrameExists(existing, f)
    }

    /** The frames of the range whose file exists, in order. */
    function ExistingFrames(existing: set<Path>): seq<int>
    {
      FramesWhere(Present(existing), firstFrame, lastFrame)
    }

    /** `verify_exists`: walk the range and keep each frame whose file
        exists. */
    method VerifyExists(existing: set<Path>) returns (frames: seq<int>)
      ensures frames == ExistingFrames(existing)
    {
      frames := CollectFrames(Present(existing), firstFrame, lastFrame);
    }
  }

  /** The walk itself: from `first` to `last`, keep each frame that
      `present` admits. */
  method CollectFrames(present: int -> bool, first: int, last: int) returns (frames: seq<int>)
    ensures frames == FramesWhere(present, first, last)
  {
    frames := [];
    var frame := first;
    while frame <= last
      invariant frame == first || frame <= last + 1
      invariant frames + FramesWhere(present, frame, last) == FramesWhere(present, first, last)
      decreases last - frame
    {
      FramesWhereStep(present, frame, last);
      if present(frame) {
        frames := frames + [frame];
      }
      frame := frame + 1;
    }
  }

  /** The frames from `frame` to `last` that `present` admits, in order. */
  function FramesWhere(present: int -> bool, frame: int, last: int): seq<int>
    decreases last - frame
  {
    if frame > last then []
    else (if present(frame) then [frame] else []) + FramesWhere(present, frame + 1, last)
  }

  /** One step of a walk: the frames from `frame` on are `frame` itself when
      admitted, then the frames after it. */
  lemma FramesWhereStep(present: int -> bool, frame: int, last: int)
    requires frame <= last
    ensures FramesWhere(present, frame, last)
         == (if present(frame) then [frame] else []) + FramesWhere(present, frame + 1, last)
  {
  }

  /** Every frame found from `frame` on lies between it and `last` and is
      admitted, and there are no more of them than that stretch has
      frames. */
  lemma {:induction false} FramesWhereInRange(present: int -> bool, frame: int, last: int)
    ensures var fs := FramesWhere(present, frame, last);
      (forall i :: 0 <= i < |fs| ==> frame <= fs[i] <= last && present(fs[i]))
      && |fs| <= (if frame <= last then last - frame + 1 else 0)
    decreases last - frame
  {
    if frame <= last {
      FramesWhereInRange(present, frame + 1, last);
      var rest := FramesWhere(present, frame + 1, last);
      var head := if present(frame) then [frame] else [];
      assert forall i :: 0 <= i < |rest| ==> (head + rest)[|head| + i] == rest[i];
    }
  }

  /** The frames found from `frame` on are strictly ascending. */
  lemma {:induction false} FramesWhereAscending(present: int -> bool, frame: int, last: int)
    ensures var fs := FramesWhere(present, frame, last);
      forall i, j :: 0 <= i < j < |fs| ==> fs[i] < fs[j]
    decreases last - frame
  {
    if frame <= last {
      FramesWhereAscending(present, frame + 1, last);
      FramesWhereInRange(present, frame + 1, last);
      var rest := FramesWhere(present, frame + 1, last);
      var head := if present(frame) then [frame] else [];
      var fs := head + rest;
      assert forall i :: 0 <= i < |rest| ==> fs[|head| + i] == rest[i];
    }
  }

  /** Every admitted frame from `frame` to `last` is found. */
  lemma {:induction false} FramesWhereComplete(present: int -> bool, frame: int, last: int)
    ensures var fs := FramesWhere(present, frame, last);
      forall f :: frame <= f <= last && present(f) ==> f in fs
    decreases last - frame
  {
    if frame <= last {
      FramesWhereComplete(present, frame + 1, last);
      var rest := FramesWhere(present, frame + 1, last);
      var head := if present(frame) then [frame] else [];
      assert forall f :: f in rest ==> f in head + rest;
    }
  }

  /** `verify_exists` returns, in ascending order, exactly the frames of the
      range whose file exists, and never more than the total frame count. */
  lemma ExistingFramesExact(q: ImageSequence, existing: set<Path>)
    ensures var fs := q.ExistingFrames(existing);
      (forall i, j :: 0 <= i < j < |fs| ==> fs[i] < fs[j])
      && (forall i :: 0 <= i < |fs| ==> q.firstFrame <= fs[i] <= q.lastFrame && q.FrameExists(existing, fs[i]))
      && (forall f :: q.firstFrame <= f <= q.lastFrame && q.FrameExists(existing, f) ==> f in fs)
      && |fs| <= (if q.TotalFrames() > 0 then q.TotalFrames() else 0)
  {
    var present := q.Present(existing);
    FramesWhereInRange(present, q.firstFrame, q.lastFrame);
    FramesWhereAscending(present, q.firstFrame, q.lastFrame);
    FramesWhereComplete(present, q.firstFrame, q.lastFrame);
    assert forall f :: present(f) == q.FrameExists(existing, f);
  }

  /** A frame of a sequence named after a shot's base filename, with the
      default padding of four, is the shot's sequence filename for that
      frame: the image-sequence and naming rules agree. */
  lemma FrameFileNameMatchesNaming(s: ShotRecord, colorspace: string, dir: Path, extension: string,
                                   first: int, last: int, frame: int)
    ensures ImageSequence(dir, s.GetBaseFilename(colorspace), extension, first, last).FrameFileName(frame)
         == s.GetSequenceFilename(frame, colorspace, extension)
  {
  }

  /** Distinct non-negative frames of a sequence have distinct file names,
      whatever the padding. */
  lemma FrameFileNamesDistinct(q: ImageSequence, a: nat, b: nat)
    requires q.FrameFileName(a) == q.FrameFileName(b)
    ensures a == b
  {
    var pa := ZeroPadded(a, q.framePadding);
    var pb := ZeroPadded(b, q.framePadding);
    assert q.FrameFileName(a) == (q.baseName + ".") + pa + ("." + q.extension);
    assert q.FrameFileName(b) == (q.baseName + ".") + pb + ("." + q.extension);
    SameAffixes(q.baseName + ".", pa, pb, "." + q.extension);
    ZeroPaddedInjective(a, b, q.framePadding);
  }

  /** A sequence's pattern and each frame's file name share the base name
      and a dot in front and the dot and extension behind; the pattern
      carries `%0{padding}d` where a frame's name has the zero-filled frame.
      When they are plain components, the full pattern and each frame's
      path are the sequence's directory with that one name appended. */
  lemma ImageSequenceNames(q: ImageSequence, frame: int)
    ensures var pre := q.baseName + "."; var post := "." + q.extension;
      pre <= q.Pattern() && pre <= q.FrameFileName(frame)
      && |q.Pattern()| >= |pre| + |post| && |q.FrameFileName(frame)| >= |pre| + |post|
      && q.Pattern()[|q.Pattern()| - |post|..] == post
      && q.FrameFileName(frame)[|q.FrameFileName(frame)| - |post|..] == post
      && q.Pattern()[|pre|..|q.Pattern()| - |post|] == "%0" + IntToString(q.framePadding) + "d"
      && q.FrameFileName(frame)[|pre|..|q.FrameFileName(frame)| - |post|]
         == ZFill(IntToString(frame), q.framePadding)
    ensures IsComponent(q.Pattern()) ==>
      q.FullPattern() == Path(q.directory.absolute, q.directory.parts + [q.Pattern()])
    ensures IsComponent(q.FrameFileName(frame)) ==>
      q.GetFramePath(frame) == Path(q.directory.absolute, q.directory.parts + [q.FrameFileName(frame)])
  {
    var pre := q.baseName + ".";
    var post := "." + q.extension;
    var mid := "%0" + IntToString(q.framePadding) + "d";
    var z := ZFill(IntToString(frame), q.framePadding);
    assert q.Pattern() == pre + mid + post;
    assert q.FrameFileName(frame) == pre + z + post;
    if IsComponent(q.Pattern()) {
      JoinComponent(q.directory, q.Pattern());
    }
    if IsComponent(q.FrameFileName(frame)) {
      JoinComponent(q.directory, q.FrameFileName(frame));
    }
  }

  /** `to_dict` has exactly eight keys: the directory and the full pattern
      as strings, the names, the frame bounds, the frame count and the
      pattern. */
  lemma ImageSequenceToDict(q: ImageSequence)
    ensures var d := q.ToDict();
      d.Keys == {"directory", "base_name", "extension", "first_frame", "last_frame",
                 "total_frames", "pattern", "full_pattern"}
      && d["directory"] == Str(ToString(q.directory))
      && d["base_name"] == Str(q.baseName) && d["extension"] == Str(q.extension)
      && d["first_frame"] == Int(q.firstFrame) && d["last_frame"] == Int(q.lastFrame)
      && d["total_frames"] == Int(q.lastFrame - q.firstFrame + 1)
      && d["pattern"] == Str(q.Pattern())
      && d["full_pattern"] == Str(ToString(q.FullPattern()))
  {
  }

  /** The two path strings of `to_dict` parse back to the directory and the
      full pattern when every component is plain. */
  lemma ImageSequenceToDictPaths(q: ImageSequence)
    ensures (forall i :: 0 <= i < |q.directory.parts| ==> IsComponent(q.directory.parts[i])) ==>
      Parse(q.ToDict()["directory"].s) == q.directory
    ensures (forall i :: 0 <= i < |q.directory.parts| ==> IsComponent(q.directory.parts[i]))
            && IsComponent(q.Pattern()) ==>
      Parse(q.ToDict()["full_pattern"].s) == q.FullPattern()
  {
    ImageSequenceToDict(q);
    if forall i :: 0 <= i < |q.directory.parts| ==> IsComponent(q.directory.parts[i]) {
      ParseToString(q.directory);
      if IsComponent(q.Pattern()) {
        JoinComponent(q.directory, q.Pattern());
        var f := q.FullPattern();
        assert forall i :: 0 <= i < |f.parts| ==> IsComponent(f.parts[i]) by {
          assert f.parts == q.directory.parts + [q.Pattern()];
        }
        ParseToString(f);
      }
    }
  }

}
