/** The footage ingest pipeline: six standard stages run over one shot with
    stop-on-error, a single-shot entry point, and a stateful front end that
    ingests shots one at a time or in batches and keeps their summaries. */
module FootageIngest {
  import opened Values
  import opened Paths
  import opened Models
  import opened Stages
  import opened Pipelines
  import SonyConversion
  import Naming

  const IngestPipelineName := "FootageIngest"

  /** The class names of the standard stages, in running order. */
  const StandardStageNames: seq<string> :=
    ["SonyRawConversionStage", "OIIOColorTransformStage", "ProxyGenerationStage",
     "ShotTreeOrganizationStage", "KitsuIntegrationStage", "CleanupStage"]

  /** How the stages behave where the pipeline runs. The Sony stage is
      modelled, given the platform it detects and what it observes; the
      other five stages are not part of this model, so their `process` steps
      are parameters. */
  datatype Deployment = Deployment(
    osName: string,
    procVersion: Option<string>,
    sonyEnv: SonyConversion.SonyEnv,
    colorTransform: ProcessFn,
    proxy: ProcessFn,
    shotTree: ProcessFn,
    kitsu: ProcessFn,
    cleanup: ProcessFn)

  /** The standard stages, each built without a name and so named after its
      class. */
  function IngestStages(d: Deployment): (stages: seq<Stage>)
    ensures |stages| == |StandardStageNames|
    ensures forall k :: 0 <= k < |stages| ==> stages[k].name == StandardStageNames[k]
    ensures stages[0].process
         == SonyConversion.SonyStage(SonyConversion.NewSonyConfig(None, None, d.osName, d.procVersion),
                                     d.sonyEnv).process
  {
    [SonyConversion.SonyStage(SonyConversion.NewSonyConfig(None, None, d.osName, d.procVersion), d.sonyEnv),
     Stage(StageName(None, "OIIOColorTransformStage"), d.colorTransform),
     Stage(StageName(None, "ProxyGenerationStage"), d.proxy),
     Stage(StageName(None, "ShotTreeOrganizationStage"), d.shotTree),
     Stage(StageName(None, "KitsuIntegrationStage"), d.kitsu),
     Stage(StageName(None, "CleanupStage"), d.cleanup)]
  }

  /** `create_ingest_pipeline`: a fresh pipeline named `FootageIngest` with
      the standard stages, built through the builder. */
  method CreateIngestPipeline(d: Deployment) returns (p: Pipeline)
    ensures fresh(p)
    ensures p.name == IngestPipelineName && p.stages == IngestStages(d) && p.results == []
  {
    var stages := IngestStages(d);
    var builder := new PipelineBuilder(IngestPipelineName);
    var b := builder.AddStage(stages[0]);
    b := builder.AddStage(stages[1]);
    b := builder.AddStage(stages[2]);
    b := builder.AddStage(stages[3]);
    b := builder.AddStage(stages[4]);
    b := builder.AddStage(stages[5]);
    p := builder.Build();
  }

  // ---------------------------------------------------------------------------
  // One shot
  // ---------------------------------------------------------------------------

  /** What one shot's ingest is asked for. */
  datatype ShotRequest = ShotRequest(
    sequence: string,
    shot: string,
    sourceFile: Path,
    inPoint: int,
    outPoint: int,
    sourceFps: real := 24.0,
    taskType: string := Naming.TaskTypePlates,
    elementName: string := Naming.ElementRawPlate,
    version: int := 1)

  /** The shot an ingest starts from: the editorial cut of the request, the
      source file as raw source, every other field at its default. */
  function IngestShotRecord(project: string, req: ShotRequest): ShotRecord
  {
    var editorial := EditorialCutInfo(req.sequence, req.shot, req.sourceFile, req.inPoint, req.outPoint,
                                      sourceFps := req.sourceFps);
    NewShotRecord(project, req.sequence, req.shot, editorial, req.taskType, req.elementName, req.version,
                  Naming.RepMain, Naming.SequenceStartFrame, None, None, Some(req.sourceFile), None, None, None)
  }

  /** The keyword arguments of the run: only the project id. */
  function IngestKwargs(projectId: Option<string>): (ctx: Context)
    ensures ctx.Keys == {"project_id"}
    ensures projectId.Some? ==> ctx["project_id"] == Str(projectId.value)
    ensures projectId.None? ==> ctx["project_id"] == Null
  {
    map["project_id" := OptionalString(projectId)]
  }

  /** The run of the standard stages over the request's shot, stopping at
      the first failure. */
  function IngestRun(project: string, projectId: Option<string>, req: ShotRequest, d: Deployment,
                     timing: Timing): RunState
  {
    Run(IngestStages(d), IngestShotRecord(project, req), Plain, true, IngestKwargs(projectId), timing)
  }

  /** The summary `ingest_shot` returns. */
  function IngestShotSpec(project: string, projectId: Option<string>, req: ShotRequest, d: Deployment,
                          timing: Timing): Summary
  {
    var R := IngestRun(project, projectId, req, d, timing);
    BuildSummary(IngestPipelineName, IngestShotRecord(project, req).(processingStatus := FinalStatus(R)),
                 timing.runEnd - timing.runStart, |StandardStageNames|, R.results)
  }

  /** `ingest_shot`: a new shot and a new pipeline for every call, run with
      stop-on-error. */
  method IngestSingleShot(project: string, projectId: Option<string>, req: ShotRequest, d: Deployment, timing: Timing)
    returns (summary: Summary)
    ensures summary == IngestShotSpec(project, projectId, req, d, timing)
  {
    var editorial := EditorialCutInfo(req.sequence, req.shot, req.sourceFile, req.inPoint, req.outPoint,
                                      sourceFps := req.sourceFps);
    var shotInfo := new ShotInfo(project, req.sequence, req.shot, editorial, req.taskType, req.elementName,
                                 req.version, sourceRawPath := Some(req.sourceFile));
    var pipeline := CreateIngestPipeline(d);
    summary := pipeline.Execute(shotInfo, IngestKwargs(projectId), timing, true);
  }

  /** Every ingest summary covers the six standard stages, counts a stage
      that did not run as failed, and succeeds exactly when every result
      did; results stop at the first failure; the shot carries the request
      and the default layout, with 16 handle frames around the cut. */
  lemma IngestShotFacts(project: string, projectId: Option<string>, req: ShotRequest, d: Deployment,
                        timing: Timing)
    ensures var s := IngestShotSpec(project, projectId, req, d, timing);
      s.pipelineName == "FootageIngest" && s.totalStages == 6
      && s.successfulStages + s.failedStages == 6
      && |s.stageResults| <= 6
      && (s.overallSuccess <==> AllSucceeded(s.stageResults))
      && (s.overallSuccess <==> s.failedStages == 0)
      && (forall k :: 0 <= k < |s.stageResults| - 1 ==> s.stageResults[k].success)
      && (|s.stageResults| < 6 ==> !s.stageResults[|s.stageResults| - 1].success)
      && s.shotInfo.project == project
      && s.shotInfo.sourceRawPath == Some(req.sourceFile)
      && s.shotInfo.editorialInfo.sourceFile == req.sourceFile
      && s.shotInfo.firstFrame == 993
      && s.shotInfo.totalFrames == Some(req.outPoint - req.inPoint + 1 + 16)
      && s.shotInfo.representation == "main"
      && s.shotInfo.processingStatus in {Complete, Error}
  {
    var R := IngestRun(project, projectId, req, d, timing);
    var stages := IngestStages(d);
    var shot := IngestShotRecord(project, req);
    RunFacts(stages, shot, Plain, true, IngestKwargs(projectId), timing);
    SummaryOfRun(IngestPipelineName, stages, shot, Plain, true, IngestKwargs(projectId), timing);
  }

  /** A missing source file stops the ingest at its first stage: one result,
      failed with the one error naming the file, nothing else run, and the
      shot in error. */
  lemma IngestMissingSource(project: string, projectId: Option<string>, req: ShotRequest, d: Deployment,
                            timing: Timing)
    requires req.sourceFile !in d.sonyEnv.fs.existing
    ensures var s := IngestShotSpec(project, projectId, req, d, timing);
      |s.stageResults| == 1
      && s.stageResults[0].stageName == "SonyRawConversionStage"
      && !s.stageResults[0].success
      && s.stageResults[0].errors == ["File does not exist: " + ToString(req.sourceFile)]
      && !s.overallSuccess && s.successfulStages == 0 && s.failedStages == 6
      && s.shotInfo.processingStatus == Error
  {
    var stages := IngestStages(d);
    var shot := IngestShotRecord(project, req);
    var kwargs := IngestKwargs(projectId);
    var seen := ShotDuringRun(shot, false);
    var cfg := SonyConversion.NewSonyConfig(None, None, d.osName, d.procVersion);
    var initial := NewResult(stages[0].name, true, "");
    SonyConversion.SonyProcessFailures(cfg, d.sonyEnv, seen, initial, kwargs);
    var r := ExecuteSpec(stages[0], seen, kwargs, timing.stageStart(0), timing.stageEnd(0));
    assert stages[0].process(seen, initial, kwargs)
        == Normal(initial.WithError("File does not exist: " + ToString(req.sourceFile)));
    assert !r.success && r.stageName == "SonyRawConversionStage";
    assert r.errors == ["File does not exist: " + ToString(req.sourceFile)];
    var R := Run(stages, shot, Plain, true, kwargs, timing);
    assert R.results == [r];
    assert CountSuccessful(R.results) == 0;
  }

  // ---------------------------------------------------------------------------
  // Shot data from a batch
  // ---------------------------------------------------------------------------

  /** The text of a `KeyError` for `key`. */
  function KeyErrorText(key: string): string
  {
    "'" + key + "'"
  }

  /** The value under an optional key, or its default. */
  function Lookup(data: map<string, Value>, key: string, default: Value): (v: Value)
    ensures key in data ==> v == data[key]
    ensures key !in data ==> v == default
  {
    if key in data then data[key] else default
  }

  /** The error the model reports for a value of a kind it does not carry. */
  function UnsupportedText(key: string): string
  {
    "unsupported value for " + key
  }

  /** A shot's dictionary read as a request, or the exception reading it
      raises: the required keys are read in the order `sequence`, `shot`,
      `source_file`, `in_point`, `out_point`, the source file becomes a path
      before the frame points are read, and the optional keys fall back to
      24.0 frames per second, `pla`, `rawPlate` and version 1. */
  function ParseShotData(data: map<string, Value>): Result<ShotRequest>
  {
    if "sequence" !in data then Failure(KeyErrorText("sequence"))
    else if "shot" !in data then Failure(KeyErrorText("shot"))
    else if "source_file" !in data then Failure(KeyErrorText("source_file"))
    else if !data["source_file"].Str? then
      Failure(PathArgumentError(data["source_file"]))
    else if "in_point" !in data then Failure(KeyErrorText("in_point"))
    else if "out_point" !in data then Failure(KeyErrorText("out_point"))
    else
      var sequence := data["sequence"];
      var shot := data["shot"];
      var inPoint := data["in_point"];
      var outPoint := data["out_point"];
      var fps := Lookup(data, "source_fps", Real(24.0));
      var taskType := Lookup(data, "task_type", Str(Naming.TaskTypePlates));
      var elementName := Lookup(data, "element_name", Str(Naming.ElementRawPlate));
      var version := Lookup(data, "version", Int(1));
      if !sequence.Str? then Failure(UnsupportedText("sequence"))
      else if !shot.Str? then Failure(UnsupportedText("shot"))
      else if !inPoint.Int? then Failure(UnsupportedText("in_point"))
      else if !outPoint.Int? then Failure(UnsupportedText("out_point"))
      else if !(fps.Real? || fps.Int?) then Failure(UnsupportedText("source_fps"))
      else if !taskType.Str? then Failure(UnsupportedText("task_type"))
      else if !elementName.Str? then Failure(UnsupportedText("element_name"))
      else if !version.Int? then Failure(UnsupportedText("version"))
      else
        Success(ShotRequest(sequence.s, shot.s, Parse(data["source_file"].s), inPoint.i, outPoint.i,
                            if fps.Real? then fps.r else fps.i as real, taskType.s, elementName.s, version.i))
  }

  /** A missing required key is reported as a `KeyError` for the first
      missing key in reading order, whatever else the dictionary holds; a
      source file that is not a string fails with pathlib's `TypeError`
      text, before the frame points are read. */
  lemma ParseShotDataMissingKey(data: map<string, Value>)
    ensures "sequence" !in data ==> ParseShotData(data) == Failure("'sequence'")
    ensures "sequence" in data && "shot" !in data ==> ParseShotData(data) == Failure("'shot'")
    ensures "sequence" in data && "shot" in data && "source_file" !in data ==>
      ParseShotData(data) == Failure("'source_file'")
    ensures ("sequence" in data && "shot" in data && "source_file" in data && !data["source_file"].Str?) ==>
      ParseShotData(data) == Failure(PathArgumentError(data["source_file"]))
    ensures ("sequence" in data && "shot" in data && "source_file" in data && data["source_file"].Str?
             && "in_point" !in data) ==> ParseShotData(data) == Failure("'in_point'")
  {
  }

  /** A dictionary with the five required entries alone, of the expected
      kinds, reads as that request with every optional field at its
      default; an optional entry present overrides its default. */
  lemma ParseShotDataDefaults(sequence: string, shot: string, source: string, inPoint: int, outPoint: int)
    ensures var data := map["sequence" := Str(sequence), "shot" := Str(shot), "source_file" := Str(source),
                            "in_point" := Int(inPoint), "out_point" := Int(outPoint)];
      ParseShotData(data) == Success(ShotRequest(sequence, shot, Parse(source), inPoint, outPoint))
      && ParseShotData(data["version" := Int(3)])
         == Success(ShotRequest(sequence, shot, Parse(source), inPoint, outPoint, version := 3))
  {
    var data := map["sequence" := Str(sequence), "shot" := Str(shot), "source_file" := Str(source),
                    "in_point" := Int(inPoint), "out_point" := Int(outPoint)];
    assert "source_fps" !in data && "task_type" !in data && "element_name" !in data && "version" !in data;
    var data3 := data["version" := Int(3)];
    assert "source_fps" !in data3 && "task_type" !in data3 && "element_name" !in data3;
  }

  /** One entry of a batch's results: the ingest summary, or the shot value
      (`None` when absent) with the exception's text. */
  datatype BatchEntry =
    | Ingested(summary: Summary)
    | Failed(shot: Value, error: string)

  /** The entry for one shot's dictionary ingested with `timing`. */
  function BatchEntryFor(project: string, projectId: Option<string>, d: Deployment, data: map<string, Value>,
                         timing: Timing): BatchEntry
  {
    match ParseShotData(data)
    case Failure(e) => Failed(Lookup(data, "shot", Null), e)
    case Success(req) => Ingested(IngestShotSpec(project, projectId, req, d, timing))
  }

  /** How one dictionary of a batch becomes its entry, with its clock. */
  type EntryFn = (map<string, Value>, Timing) -> BatchEntry

  /** The entries of the first `n` dictionaries of a batch, the k-th made
      with `timings(k)`. */
  function BatchEntries(entryFor: EntryFn, shotsData: seq<map<string, Value>>, timings: nat -> Timing,
                        n: nat): seq<BatchEntry>
    requires n <= |shotsData|
  {
    if n == 0 then []
    else BatchEntries(entryFor, shotsData, timings, n - 1) + [entryFor(shotsData[n - 1], timings(n - 1))]
  }

  /** A batch has one entry per dictionary, in order, each made from its
      own dictionary alone. */
  lemma {:induction false} BatchEntriesAt(entryFor: EntryFn, shotsData: seq<map<string, Value>>,
                                          timings: nat -> Timing, n: nat)
    requires n <= |shotsData|
    ensures var es := BatchEntries(entryFor, shotsData, timings, n);
      |es| == n && forall k :: 0 <= k < n ==> es[k] == entryFor(shotsData[k], timings(k))
  {
    if n > 0 {
      BatchEntriesAt(entryFor, shotsData, timings, n - 1);
    }
  }

  /** How the front end turns one dictionary into an entry. */
  function IngestEntryFn(project: string, projectId: Option<string>, d: Deployment): EntryFn
  {
    (data, timing) => BatchEntryFor(project, projectId, d, data, timing)
  }

  /** The entries of an ingest batch: one per dictionary, in order; an entry
      fails exactly when its own dictionary cannot be read, so one bad
      dictionary never stops the others. */
  lemma IngestBatchEntries(project: string, projectId: Option<string>, d: Deployment,
                           shotsData: seq<map<string, Value>>, timings: nat -> Timing)
    ensures var es := BatchEntries(IngestEntryFn(project, projectId, d), shotsData, timings, |shotsData|);
      |es| == |shotsData|
      && (forall k :: 0 <= k < |es| ==> es[k] == BatchEntryFor(project, projectId, d, shotsData[k], timings(k)))
      && (forall k :: 0 <= k < |es| ==> (es[k].Failed? <==> ParseShotData(shotsData[k]).Failure?))
  {
    var f := IngestEntryFn(project, projectId, d);
    BatchEntriesAt(f, shotsData, timings, |shotsData|);
    var es := BatchEntries(f, shotsData, timings, |shotsData|);
    forall k | 0 <= k < |es|
      ensures es[k] == BatchEntryFor(project, projectId, d, shotsData[k], timings(k))
    {
      assert es[k] == f(shotsData[k], timings(k));
    }
  }

  /** The summaries among a batch's entries, in order. */
  function IngestedSummaries(entries: seq<BatchEntry>): (s: seq<Summary>)
    ensures |s| <= |entries|
  {
    if entries == [] then []
    else (if entries[0].Ingested? then [entries[0].summary] else []) + IngestedSummaries(entries[1..])
  }

  /** The summary an entry contributes: its own when ingested, none when
      failed. */
  function Contribution(e: BatchEntry): seq<Summary>
  {
    if e.Ingested? then [e.summary] else []
  }

  lemma {:induction false} IngestedSummariesAppend(entries: seq<BatchEntry>, e: BatchEntry)
    ensures IngestedSummaries(entries + [e]) == IngestedSummaries(entries) + Contribution(e)
  {
    if entries == [] {
      assert entries + [e] == [e];
      assert [e][1..] == [];
    } else {
      var all := entries + [e];
      assert all[0] == entries[0];
      assert all[1..] == entries[1..] + [e];
      IngestedSummariesAppend(entries[1..], e);
      var head := if entries[0].Ingested? then [entries[0].summary] else [];
      assert IngestedSummaries(all) == head + IngestedSummaries(entries[1..] + [e]);
      assert IngestedSummaries(entries) == head + IngestedSummaries(entries[1..]);
    }
  }

  /** Every entry is kept as a summary exactly when it was ingested: the
      summaries are as many as the ingested entries, and a batch with no
      failure keeps one summary per entry. */
  lemma {:induction false} IngestedSummariesCount(entries: seq<BatchEntry>)
    ensures |IngestedSummaries(entries)| == |entries| - CountFailed(entries)
    ensures (forall k :: 0 <= k < |entries| ==> entries[k].Ingested?) ==>
      IngestedSummaries(entries) == seq(|entries|, k requires 0 <= k < |entries| => entries[k].summary)
  {
    if entries != [] {
      IngestedSummariesCount(entries[1..]);
    }
  }

  /** The number of failed entries. */
  function CountFailed(entries: seq<BatchEntry>): (n: nat)
    ensures n <= |entries|
  {
    if entries == [] then 0
    else (if entries[0].Failed? then 1 else 0) + CountFailed(entries[1..])
  }

  // ---------------------------------------------------------------------------
  // The front end
  // ---------------------------------------------------------------------------

  /** The per-project report of `get_summary`. */
  datatype ProjectReport = ProjectReport(
    project: string,
    totalShotsProcessed: int,
    successfulShots: int,
    failedShots: int,
    shots: seq<Summary>)

  /** The number of summaries whose overall success is set. */
  function CountOverallSuccess(summaries: seq<Summary>): (n: nat)
    ensures n <= |summaries|
  {
    if summaries == [] then 0
    else (if summaries[0].overallSuccess then 1 else 0) + CountOverallSuccess(summaries[1..])
  }

  lemma {:induction false} CountOverallSuccessAppend(summaries: seq<Summary>, s: Summary)
    ensures CountOverallSuccess(summaries + [s]) == CountOverallSuccess(summaries) + (if s.overallSuccess then 1 else 0)
  {
    if summaries == [] {
      assert [s][1..] == [];
    } else {
      assert (summaries + [s])[1..] == summaries[1..] + [s];
      CountOverallSuccessAppend(summaries[1..], s);
    }
  }

  /** The stateful front end: a project, its Kitsu id, the stage behaviour,
      and the summaries of every shot ingested through it. */
  class FootageIngestPipeline {
    const project: string
    const projectId: Option<string>
    const deployment: Deployment
    const pipeline: Pipeline
    var processedShots: seq<Summary>

    constructor (project: string, projectId: Option<string>, deployment: Deployment)
      ensures this.project == project && this.projectId == projectId && this.deployment == deployment
      ensures fresh(pipeline) && pipeline.name == IngestPipelineName && pipeline.stages == IngestStages(deployment)
      ensures processedShots == []
    {
      var p := CreateIngestPipeline(deployment);
      this.project := project;
      this.projectId := projectId;
      this.deployment := deployment;
      this.pipeline := p;
      processedShots := [];
    }

    /** Ingest one shot of this project and keep its summary. */
    method IngestShot(req: ShotRequest, timing: Timing) returns (summary: Summary)
      modifies this
      ensures summary == IngestShotSpec(project, projectId, req, deployment, timing)
      ensures processedShots == old(processedShots) + [summary]
    {
      summary := IngestSingleShot(project, projectId, req, deployment, timing);
      processedShots := processedShots + [summary];
    }

    /** EDL ingest is not implemented: it always raises, with this text, and
        changes nothing. */
    method IngestFromEdl(edlFile: Path) returns (raised: string)
      ensures raised == "EDL parsing to be implemented"
    {
      raised := "EDL parsing to be implemented";
    }

    /** One dictionary of a batch: read it, and ingest the shot when that
        succeeds, keeping its summary. */
    method IngestEntry(data: map<string, Value>, timing: Timing) returns (entry: BatchEntry)
      modifies this
      ensures entry == IngestEntryFn(project, projectId, deployment)(data, timing)
      ensures processedShots == old(processedShots) + Contribution(entry)
    {
      match ParseShotData(data) {
        case Failure(e) =>
          entry := Failed(Lookup(data, "shot", Null), e);
        case Success(req) =>
          var summary := IngestShot(req, timing);
          entry := Ingested(summary);
      }
    }

    /** Ingest each dictionary in turn, `timings(k)` being the clock of the
        k-th: a dictionary that cannot be read gives a failed entry and does
        not stop the batch; every ingested shot's summary is also kept. */
    method IngestBatch(shotsData: seq<map<string, Value>>, timings: nat -> Timing) returns (results: seq<BatchEntry>)
      modifies this
      ensures results == BatchEntries(IngestEntryFn(project, projectId, deployment), shotsData, timings, |shotsData|)
      ensures processedShots == old(processedShots) + IngestedSummaries(results)
    {
      ghost var f := IngestEntryFn(project, projectId, deployment);
      results := [];
      var k := 0;
      while k < |shotsData|
        invariant 0 <= k <= |shotsData|
        invariant results == BatchEntries(f, shotsData, timings, k)
        invariant processedShots == old(processedShots) + IngestedSummaries(results)
      {
        var entry := IngestEntry(shotsData[k], timings(k));
        assert BatchEntries(f, shotsData, timings, k + 1) == results + [entry];
        IngestedSummariesAppend(results, entry);
        results := results + [entry];
        k := k + 1;
      }
    }

    /** The report over every shot ingested so far: the successful shots
        are the summaries whose overall success is set, the failed ones all
        the others. */
    function GetSummary(): (r: ProjectReport)
      reads this
      ensures r.project == project && r.shots == processedShots
      ensures r.totalShotsProcessed == |processedShots|
      ensures r.successfulShots == CountOverallSuccess(processedShots)
      ensures r.failedShots == |processedShots| - CountOverallSuccess(processedShots)
      ensures r.successfulShots + r.failedShots == r.totalShotsProcessed
      ensures 0 <= r.successfulShots <= r.totalShotsProcessed
    {
      var total := |processedShots|;
      var successful := CountOverallSuccess(processedShots);
      ProjectReport(project, total, successful, total - successful, processedShots)
    }
  }

  /** Ingesting one more shot adds one to the processed count of the
      report, and one to its successful count exactly when that shot
      succeeded overall, one to its failed count otherwise. */
  lemma ReportAfterIngest(shots: seq<Summary>, s: Summary)
    ensures var before := CountOverallSuccess(shots);
      var after := CountOverallSuccess(shots + [s]);
      (s.overallSuccess ==> after == before + 1)
      && (!s.overallSuccess ==> after == before)
      && (|shots + [s]| - after) == (|shots| - before) + (if s.overallSuccess then 0 else 1)
  {
    CountOverallSuccessAppend(shots, s);
  }
}
