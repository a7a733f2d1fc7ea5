/** A pipeline stage: a name and a stage-specific `process` step, wrapped by
    an executor that creates a fresh result, turns any failure of `process`
    into data, overwrites the message and always records the duration. */
module Stages {
  import opened Values
  import opened Paths
  import opened Models

  /** How a stage's `process` ended: normally, leaving the result it was
      handed in some state, or by raising, after having brought the result
      to some state. */
  datatype ProcessOutcome =
    | Normal(result: ResultRecord)
    | Raised(partial: ResultRecord, error: string)

  /** The stage-specific step, given the shot, the fresh result and the
      keyword arguments. */
  type ProcessFn = (ShotRecord, ResultRecord, Context) -> ProcessOutcome

  datatype Stage = Stage(name: string, process: ProcessFn)

  /** A stage's name: the given one, unless it is missing or empty, in
      which case the class name. */
  function StageName(name: Option<string>, className: string): (r: string)
    ensures name.Some? && name.value != "" ==> r == name.value
    ensures name.None? || name.value == "" ==> r == className
  {
    if name.Some? && name.value != "" then name.value else className
  }

  function CompletedMessage(name: string, success: bool): string
  {
    if success then "Stage " + name + " completed successfully"
    else "Stage " + name + " completed with errors"
  }

  function FailureMessage(name: string, error: string): string
  {
    "Stage " + name + " failed with exception: " + error
  }

  /** The result `execute` returns, for clock readings `start` and `end`. */
  function ExecuteSpec(stage: Stage, shot: ShotRecord, ctx: Context, start: real, end: real): ResultRecord
  {
    var initial := NewResult(stage.name, true, "");
    match stage.process(shot, initial, ctx)
    case Normal(r) =>
      r.(message := CompletedMessage(stage.name, r.success), durationSeconds := Some(end - start))
    case Raised(p, e) =>
      var msg := FailureMessage(stage.name, e);
      p.(success := false).WithError(msg).(message := msg, durationSeconds := Some(end - start))
  }

  /** A normal return keeps everything `process` did except the message,
      which says whether the stage succeeded; whatever message `process`
      wrote is discarded. */
  lemma ExecuteNormal(stage: Stage, shot: ShotRecord, ctx: Context, start: real, end: real, m: string)
    requires stage.process(shot, NewResult(stage.name, true, ""), ctx).Normal?
    ensures var r := stage.process(shot, NewResult(stage.name, true, ""), ctx).result;
      var x := ExecuteSpec(stage, shot, ctx, start, end);
      x.success == r.success && x.errors == r.errors && x.warnings == r.warnings && x.data == r.data
      && (x.success ==> x.message == "Stage " + stage.name + " completed successfully")
      && (!x.success ==> x.message == "Stage " + stage.name + " completed with errors")
      && x == ExecuteSpec(Stage(stage.name, (s, r0, c) =>
                            var o := stage.process(s, r0, c);
                            if o.Normal? then Normal(o.result.(message := m)) else o),
                          shot, ctx, start, end)
  {
  }

  /** A raise never escapes: the result fails, carries exactly one more
      error naming the stage and the exception, and that error is also the
      message. */
  lemma ExecuteRaised(stage: Stage, shot: ShotRecord, ctx: Context, start: real, end: real)
    requires stage.process(shot, NewResult(stage.name, true, ""), ctx).Raised?
    ensures var o := stage.process(shot, NewResult(stage.name, true, ""), ctx);
      var x := ExecuteSpec(stage, shot, ctx, start, end);
      var msg := "Stage " + stage.name + " failed with exception: " + o.error;
      !x.success && x.errors == o.partial.errors + [msg] && x.message == msg
      && x.warnings == o.partial.warnings && x.data == o.partial.data
  {
  }

  /** The duration is recorded on every path, and is not negative when the
      clock did not go backwards. */
  lemma ExecuteDuration(stage: Stage, shot: ShotRecord, ctx: Context, start: real, end: real)
    ensures ExecuteSpec(stage, shot, ctx, start, end).durationSeconds == Some(end - start)
    ensures start <= end ==> ExecuteSpec(stage, shot, ctx, start, end).durationSeconds.value >= 0.0
  {
  }

  /** The stage succeeds exactly when `process` returned normally with a
      succeeding result: the executor never turns a failure into success. */
  lemma ExecuteSuccess(stage: Stage, shot: ShotRecord, ctx: Context, start: real, end: real)
    ensures var o := stage.process(shot, NewResult(stage.name, true, ""), ctx);
      ExecuteSpec(stage, shot, ctx, start, end).success <==> o.Normal? && o.result.success
  {
  }

  /** `execute`: a fresh result object, brought to `ExecuteSpec`. The shot
      is read, not changed. */
  method Execute(stage: Stage, shot: ShotInfo, ctx: Context, start: real, end: real)
    returns (result: ProcessingResult)
    ensures fresh(result)
    ensures result.Record() == ExecuteSpec(stage, shot.Snapshot(), ctx, start, end)
  {
    result := new ProcessingResult(stage.name, true, "");
    var outcome := stage.process(shot.Snapshot(), result.Record(), ctx);
    match outcome {
      case Normal(r) =>
        result.Assign(r);
        if result.success {
          result.message := "Stage " + stage.name + " completed successfully";
        } else {
          result.message := "Stage " + stage.name + " completed with errors";
        }
      case Raised(p, e) =>
        result.Assign(p);
        result.success := false;
        var errorMsg := "Stage " + stage.name + " failed with exception: " + e;
        result.AddError(errorMsg);
        result.message := errorMsg;
    }
    result.durationSeconds := Some(end - start);
  }

  // ---------------------------------------------------------------------------
  // Helpers stages call on their result
  // ---------------------------------------------------------------------------

  /** Input validation: without a shot, one error and `false`; with one,
      `true` and the result untouched. */
  function ValidatedInputs(shotPresent: bool, r: ResultRecord): (out: (bool, ResultRecord))
    ensures out.0 == shotPresent
    ensures out.0 ==> out.1 == r
    ensures !out.0 ==> out.1.errors == r.errors + ["Shot info is None"] && !out.1.success
                       && out.1.warnings == r.warnings && out.1.data == r.data && out.1.message == r.message
  {
    if !shotPresent then (false, r.WithError("Shot info is None")) else (true, r)
  }

  method ValidateInputs(shot: ShotInfo?, result: ProcessingResult) returns (ok: bool)
    modifies result
    ensures (ok, result.Record()) == ValidatedInputs(shot != null, old(result.Record()))
  {
    if shot == null {
      result.AddError("Shot info is None");
      return false;
    }
    return true;
  }

  /** The file check: a missing path and a path that is not a regular file
      each add one error naming the path and give `false`; otherwise `true`
      with the result untouched. */
  function FileChecked(path: Path, fs: FileSystem, r: ResultRecord): (out: (bool, ResultRecord))
    ensures out.0 <==> path in fs.existing && path in fs.regularFiles
    ensures out.0 ==> out.1 == r
    ensures path !in fs.existing ==> out.1 == r.WithError("File does not exist: " + ToString(path))
    ensures path in fs.existing && path !in fs.regularFiles ==>
              out.1 == r.WithError("Path is not a file: " + ToString(path))
  {
    if path !in fs.existing then (false, r.WithError("File does not exist: " + ToString(path)))
    else if path !in fs.regularFiles then (false, r.WithError("Path is not a file: " + ToString(path)))
    else (true, r)
  }

  method VerifyFileExists(path: Path, fs: FileSystem, result: ProcessingResult) returns (ok: bool)
    modifies result
    ensures (ok, result.Record()) == FileChecked(path, fs, old(result.Record()))
  {
    if path !in fs.existing {
      result.AddError("File does not exist: " + ToString(path));
      return false;
    }
    if path !in fs.regularFiles {
      result.AddError("Path is not a file: " + ToString(path));
      return false;
    }
    return true;
  }

  /** Directory creation, given what creating it reported: no failure gives
      `true` and the result untouched; a failure adds one error naming the
      path and the reason. */
  function DirectoryCreated(path: Path, failure: Option<string>, r: ResultRecord): (out: (bool, ResultRecord))
    ensures out.0 <==> failure.None?
    ensures failure.None? ==> out.1 == r
    ensures failure.Some? ==>
      out.1 == r.WithError("Failed to create directory " + ToString(path) + ": " + failure.value)
  {
    match failure
    case None => (true, r)
    case Some(e) => (false, r.WithError("Failed to create directory " + ToString(path) + ": " + e))
  }

  method CreateDirectory(path: Path, failure: Option<string>, result: ProcessingResult) returns (ok: bool)
    modifies result
    ensures (ok, result.Record()) == DirectoryCreated(path, failure, old(result.Record()))
  {
    if failure.Some? {
      result.AddError("Failed to create directory " + ToString(path) + ": " + failure.value);
      return false;
    }
    return true;
  }

  // ---------------------------------------------------------------------------
  // Validation stages
  // ---------------------------------------------------------------------------

  /** How a validation check ended. */
  datatype CheckOutcome =
    | Checked(valid: bool, result: ResultRecord)
    | CheckRaised(partial: ResultRecord, error: string)

  type ValidateFn = (ShotRecord, ResultRecord, Context) -> CheckOutcome

  /** The `process` of a validation stage named `name`: the verdict is
      stored under `is_valid`, a negative verdict fails the result, and the
      message says whether validation passed. */
  function ValidationProcess(name: string, validate: ValidateFn): ProcessFn
  {
    (shot, r, ctx) =>
      match validate(shot, r, ctx)
      case CheckRaised(p, e) => Raised(p, e)
      case Checked(ok, v) =>
        var stored := v.(data := v.data["is_valid" := Bool(ok)]);
        if !ok then Normal(stored.(success := false, message := "Validation failed: " + name))
        else Normal(stored.(message := "Validation passed: " + name))
  }

  /** An executed validation stage records the verdict under `is_valid` and
      succeeds exactly when the check passed and reported no error of its
      own; its "Validation passed/failed" message never survives execution. */
  lemma ValidationStageOutcome(name: string, validate: ValidateFn, shot: ShotRecord, ctx: Context,
                               start: real, end: real)
    requires validate(shot, NewResult(name, true, ""), ctx).Checked?
    ensures var c := validate(shot, NewResult(name, true, ""), ctx);
      var x := ExecuteSpec(Stage(name, ValidationProcess(name, validate)), shot, ctx, start, end);
      "is_valid" in x.data && x.data["is_valid"] == Bool(c.valid)
      && (x.success <==> c.valid && c.result.success)
      && x.message == CompletedMessage(name, c.valid && c.result.success)
      && x.errors == c.result.errors
  {
  }
}
