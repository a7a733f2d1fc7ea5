/** The pipeline orchestrator: stages run in list order over one shot, each
    result is collected, the shot's status goes from processing to complete
    or error, later stages receive the data of earlier ones, and a summary
    counts what succeeded. The conditional pipeline may skip stages. */
module Pipelines {
  import opened Values
  import opened Models
  import opened Stages

  /** The clock readings of one run: when the stage at each position started
      and ended, and when the whole run started and ended. */
  datatype Timing = Timing(stageStart: nat -> real, stageEnd: nat -> real, runStart: real, runEnd: real)

  /** A stage condition, asked with the shot and the results so far. */
  type Condition = (ShotRecord, seq<ResultRecord>) -> bool

  /** The plain pipeline, or the conditional one with its conditions keyed
      by stage name. */
  datatype Mode = Plain | Conditional(conditions: map<string, Condition>)

  const SkippedMessage := "Stage skipped (condition not met)"

  /** The result recorded for a stage whose condition was not met. */
  function SkippedResult(name: string): ResultRecord
  {
    NewResult(name, true, SkippedMessage)
  }

  // ---------------------------------------------------------------------------
  // Passing data between stages
  // ---------------------------------------------------------------------------

  /** The context after a stage produced `data`: nothing changes for empty
      data; otherwise a DPX sequence and then an output sequence become the
      next input sequence, a proxy file is passed on, and the whole data is
      kept under `{stage}_output`. */
  function MergeOutputs(ctx: Context, stageName: string, data: map<string, Value>): Context
  {
    if data == map[] then ctx
    else
      var c1 := if "dpx_sequence" in data then ctx["input_sequence" := data["dpx_sequence"]] else ctx;
      var c2 := if "output_sequence" in data then c1["input_sequence" := data["output_sequence"]] else c1;
      var c3 := if "proxy_file" in data then c2["proxy_file" := data["proxy_file"]] else c2;
      c3[stageName + "_output" := Dict(data)]
  }

  /** The key a stage's data is stored under never clashes with the input
      sequence or the proxy file: it ends in `t`, and they end in `e`. */
  lemma OutputKeyIsDistinct(stageName: string)
    ensures stageName + "_output" != "input_sequence"
    ensures stageName + "_output" != "proxy_file"
  {
    var k := stageName + "_output";
    assert k[|k| - 1] == 't';
    assert "input_sequence"[13] == 'e' && "proxy_file"[9] == 'e';
  }

  /** What a merge does, key by key: with data, the stage's output key holds
      all of it, the output sequence wins over the DPX sequence as the next
      input, the proxy file is copied, and every other key is kept; without
      data nothing changes. */
  lemma MergeOutputsEffect(ctx: Context, stageName: string, data: map<string, Value>)
    ensures data == map[] ==> MergeOutputs(ctx, stageName, data) == ctx
    ensures data != map[] ==>
      var r := MergeOutputs(ctx, stageName, data);
      var out := stageName + "_output";
      r.Keys == ctx.Keys + {out}
                + (if "dpx_sequence" in data || "output_sequence" in data then {"input_sequence"} else {})
                + (if "proxy_file" in data then {"proxy_file"} else {})
      && r[out] == Dict(data)
      && ("output_sequence" in data ==> r["input_sequence"] == data["output_sequence"])
      && ("output_sequence" !in data && "dpx_sequence" in data ==> r["input_sequence"] == data["dpx_sequence"])
      && ("proxy_file" in data ==> r["proxy_file"] == data["proxy_file"])
      && (forall k :: k in ctx && k != "input_sequence" && k != "proxy_file" && k != out ==> r[k] == ctx[k])
  {
    OutputKeyIsDistinct(stageName);
  }

  // ---------------------------------------------------------------------------
  // One run, as a function
  // ---------------------------------------------------------------------------

  /** The state of a run: the results so far, whether a stage has failed,
      and the context the next stage receives. */
  datatype RunState = RunState(results: seq<ResultRecord>, failed: bool, context: Context)

  /** The shot as stages and conditions see it during a run: processing,
      or error once a stage has failed. */
  function ShotDuringRun(shot: ShotRecord, failed: bool): ShotRecord
  {
    shot.(processingStatus := if failed then Error else Processing)
  }

  /** The run from the stage at position `i` on. An unmet condition records
      a skipped result; otherwise the stage executes with the current
      context (the plain pipeline merges its data into the context, the
      conditional one never changes it), and a failure with `stopOnError`
      ends the run. */
  function RunFrom(stages: seq<Stage>, i: nat, shot: ShotRecord, mode: Mode, stopOnError: bool,
                   timing: Timing, st: RunState): RunState
    requires i <= |stages|
    decreases |stages| - i
  {
    if i == |stages| then st
    else
      var stage := stages[i];
      var seen := ShotDuringRun(shot, st.failed);
      if mode.Conditional? && stage.name in mode.conditions && !mode.conditions[stage.name](seen, st.results) then
        RunFrom(stages, i + 1, shot, mode, stopOnError, timing,
                st.(results := st.results + [SkippedResult(stage.name)]))
      else
        var r := ExecuteSpec(stage, seen, st.context, timing.stageStart(i), timing.stageEnd(i));
        var next := RunState(st.results + [r], st.failed || !r.success,
                             if mode.Plain? then MergeOutputs(st.context, stage.name, r.data) else st.context);
        if !r.success && stopOnError then next
        else RunFrom(stages, i + 1, shot, mode, stopOnError, timing, next)
  }

  /** A whole run, starting from the keyword arguments with no result. */
  function Run(stages: seq<Stage>, shot: ShotRecord, mode: Mode, stopOnError: bool, kwargs: Context,
               timing: Timing): RunState
  {
    RunFrom(stages, 0, shot, mode, stopOnError, timing, RunState([], false, kwargs))
  }

  /** The shot's status once the run is over. */
  function FinalStatus(st: RunState): Status
  {
    if st.failed then Error else Complete
  }

  predicate AllSucceeded(results: seq<ResultRecord>)
  {
    forall k :: 0 <= k < |results| ==> results[k].success
  }

  lemma AllSucceededAppend(results: seq<ResultRecord>, r: ResultRecord)
    ensures AllSucceeded(results + [r]) <==> AllSucceeded(results) && r.success
  {
    var rs := results + [r];
    assert rs[|results|] == r;
    assert forall k :: 0 <= k < |results| ==> rs[k] == results[k];
  }

  /** A run from any state reached along it: results only grow, by one per
      stage and never beyond the stage list; the run has failed exactly when
      some result failed; without `stopOnError` every stage has a result; and
      the conditional pipeline never changes the context. */
  lemma {:induction false} RunFromShape(stages: seq<Stage>, i: nat, shot: ShotRecord, mode: Mode,
                                        stopOnError: bool, timing: Timing, st: RunState)
    requires i <= |stages| && |st.results| == i
    requires st.failed <==> !AllSucceeded(st.results)
    ensures var R := RunFrom(stages, i, shot, mode, stopOnError, timing, st);
      st.results <= R.results
      && i <= |R.results| <= |stages|
      && (R.failed <==> !AllSucceeded(R.results))
      && (!stopOnError ==> |R.results| == |stages|)
      && (mode.Conditional? ==> R.context == st.context)
    decreases |stages| - i
  {
    if i < |stages| {
      var next := Step(stages[i], i, shot, mode, timing, st);
      RunFromUnfold(stages, i, shot, mode, stopOnError, timing, st);
      StepAppends(stages[i], i, shot, mode, timing, st);
      AllSucceededAppend(st.results, StageResult(stages[i], i, shot, mode, timing, st));
      assert mode.Conditional? ==> next.context == st.context;
      if !StopsAfter(stages[i], i, shot, mode, stopOnError, timing, st) {
        RunFromShape(stages, i + 1, shot, mode, stopOnError, timing, next);
      }
    }
  }

  /** A run with `stopOnError` from a state whose results all succeeded:
      every result but the last succeeded, and a run that stopped short ends
      with the failure that stopped it. */
  lemma {:induction false} RunFromStops(stages: seq<Stage>, i: nat, shot: ShotRecord, mode: Mode,
                                        timing: Timing, st: RunState)
    requires i <= |stages| && |st.results| == i && AllSucceeded(st.results)
    ensures var R := RunFrom(stages, i, shot, mode, true, timing, st);
      |R.results| <= |stages|
      && (forall k :: 0 <= k < |R.results| - 1 ==> R.results[k].success)
      && (|R.results| < |stages| ==> |R.results| > 0 && !R.results[|R.results| - 1].success)
    decreases |stages| - i
  {
    if i < |stages| {
      var next := Step(stages[i], i, shot, mode, timing, st);
      var r := StageResult(stages[i], i, shot, mode, timing, st);
      RunFromUnfold(stages, i, shot, mode, true, timing, st);
      StepAppends(stages[i], i, shot, mode, timing, st);
      AllSucceededAppend(st.results, r);
      if !StopsAfter(stages[i], i, shot, mode, true, timing, st) {
        RunFromStops(stages, i + 1, shot, mode, timing, next);
      }
    }
  }

  /** What a run guarantees from any state reached along it: the shape of
      the run, and with `stopOnError` every result but the last succeeded and
      a run that stopped short ends with the failure that stopped it. */
  lemma RunFromFacts(stages: seq<Stage>, i: nat, shot: ShotRecord, mode: Mode,
                     stopOnError: bool, timing: Timing, st: RunState)
    requires i <= |stages| && |st.results| == i
    requires st.failed <==> !AllSucceeded(st.results)
    requires stopOnError ==> !st.failed
    ensures var R := RunFrom(stages, i, shot, mode, stopOnError, timing, st);
      st.results <= R.results
      && i <= |R.results| <= |stages|
      && (R.failed <==> !AllSucceeded(R.results))
      && (!stopOnError ==> |R.results| == |stages|)
      && (stopOnError ==> forall k :: 0 <= k < |R.results| - 1 ==> R.results[k].success)
      && (stopOnError && |R.results| < |stages| ==> |R.results| > 0 && !R.results[|R.results| - 1].success)
      && (mode.Conditional? ==> R.context == st.context)
  {
    RunFromShape(stages, i, shot, mode, stopOnError, timing, st);
    if stopOnError {
      RunFromStops(stages, i, shot, mode, timing, st);
    }
  }

  /** A whole run: at most one result per stage and exactly one when it
      does not stop on errors; with `stopOnError` the results end at the
      first failure; the final status is complete exactly when every result
      succeeded; the conditional pipeline hands every stage the original
      keyword arguments. */
  lemma RunFacts(stages: seq<Stage>, shot: ShotRecord, mode: Mode, stopOnError: bool, kwargs: Context,
                 timing: Timing)
    ensures var R := Run(stages, shot, mode, stopOnError, kwargs, timing);
      |R.results| <= |stages|
      && (!stopOnError ==> |R.results| == |stages|)
      && (stopOnError ==> forall k :: 0 <= k < |R.results| - 1 ==> R.results[k].success)
      && (stopOnError && |R.results| < |stages| ==> |R.results| > 0 && !R.results[|R.results| - 1].success)
      && (FinalStatus(R) == Complete <==> AllSucceeded(R.results))
      && (FinalStatus(R) == Error <==> !AllSucceeded(R.results))
      && (mode.Conditional? ==> R.context == kwargs)
  {
    RunFromFacts(stages, 0, shot, mode, stopOnError, timing, RunState([], false, kwargs));
  }

  /** A stage whose `process` never renames the result it is handed. */
  ghost predicate KeepsName(stage: Stage)
  {
    forall shot, r, ctx ::
      match stage.process(shot, r, ctx)
      case Normal(x) => x.stageName == r.stageName
      case Raised(p, _) => p.stageName == r.stageName
  }

  lemma {:induction false} RunFromNames(stages: seq<Stage>, i: nat, shot: ShotRecord, mode: Mode,
                                        stopOnError: bool, timing: Timing, st: RunState)
    requires i <= |stages| && |st.results| == i
    requires forall k :: 0 <= k < |stages| ==> KeepsName(stages[k])
    requires forall k :: 0 <= k < i ==> st.results[k].stageName == stages[k].name
    ensures var R := RunFrom(stages, i, shot, mode, stopOnError, timing, st);
      |R.results| <= |stages|
      && forall k :: 0 <= k < |R.results| ==> R.results[k].stageName == stages[k].name
    decreases |stages| - i
  {
    if i < |stages| {
      var stage := stages[i];
      var seen := ShotDuringRun(shot, st.failed);
      if mode.Conditional? && stage.name in mode.conditions && !mode.conditions[stage.name](seen, st.results) {
        RunFromNames(stages, i + 1, shot, mode, stopOnError, timing,
                     st.(results := st.results + [SkippedResult(stage.name)]));
      } else {
        assert KeepsName(stage);
        var r := ExecuteSpec(stage, seen, st.context, timing.stageStart(i), timing.stageEnd(i));
        assert r.stageName == stage.name by {
          var o := stage.process(seen, NewResult(stage.name, true, ""), st.context);
          assert o.Normal? ==> o.result.stageName == stage.name;
          assert o.Raised? ==> o.partial.stageName == stage.name;
        }
        var next := RunState(st.results + [r], st.failed || !r.success,
                             if mode.Plain? then MergeOutputs(st.context, stage.name, r.data) else st.context);
        if !(!r.success && stopOnError) {
          RunFromNames(stages, i + 1, shot, mode, stopOnError, timing, next);
        }
      }
    }
  }

  /** When no stage renames its result, the results are the stages' own, in
      list order: the k-th result belongs to the k-th stage. */
  lemma RunResultsInStageOrder(stages: seq<Stage>, shot: ShotRecord, mode: Mode, stopOnError: bool,
                               kwargs: Context, timing: Timing)
    requires forall k :: 0 <= k < |stages| ==> KeepsName(stages[k])
    ensures var R := Run(stages, shot, mode, stopOnError, kwargs, timing);
      |R.results| <= |stages|
      && forall k :: 0 <= k < |R.results| ==> R.results[k].stageName == stages[k].name
  {
    RunFromNames(stages, 0, shot, mode, stopOnError, timing, RunState([], false, kwargs));
  }

  /** Whether the conditional pipeline skips `stage`, given the shot as the
      condition sees it and the results so far. */
  predicate Skips(mode: Mode, stage: Stage, seen: ShotRecord, results: seq<ResultRecord>)
  {
    mode.Conditional? && stage.name in mode.conditions && !mode.conditions[stage.name](seen, results)
  }

  /** The result the stage at position `i` records from state `st`: the
      skipped result, or the stage executed on the shot as the run shows it,
      with the context reached so far. */
  function StageResult(stage: Stage, i: nat, shot: ShotRecord, mode: Mode, timing: Timing, st: RunState)
    : ResultRecord
  {
    var seen := ShotDuringRun(shot, st.failed);
    if Skips(mode, stage, seen, st.results) then SkippedResult(stage.name)
    else ExecuteSpec(stage, seen, st.context, timing.stageStart(i), timing.stageEnd(i))
  }

  /** One turn of the stage loop, without the decision to stop. */
  function Step(stage: Stage, i: nat, shot: ShotRecord, mode: Mode, timing: Timing, st: RunState): RunState
  {
    var r := StageResult(stage, i, shot, mode, timing, st);
    if Skips(mode, stage, ShotDuringRun(shot, st.failed), st.results) then st.(results := st.results + [r])
    else RunState(st.results + [r], st.failed || !r.success,
                  if mode.Plain? then MergeOutputs(st.context, stage.name, r.data) else st.context)
  }

  /** A turn of a loop over the stages: position and state before, state after. */
  type TurnFn = (nat, RunState) -> RunState

  /** The state after turns `0 .. n - 1`, starting from `init`. */
  function Turns(turn: TurnFn, n: nat, init: RunState): RunState
  {
    if n == 0 then init else turn(n - 1, Turns(turn, n - 1, init))
  }

  /** A turn that appends exactly one result to those it was handed. */
  ghost predicate AppendsOne(turn: TurnFn, bound: nat)
  {
    forall i: nat, st: RunState :: i < bound ==>
      |turn(i, st).results| == |st.results| + 1 && turn(i, st).results[..|st.results|] == st.results
  }

  /** Turns that each append one result build the results in order: after
      `n` turns there are `n` more, and those after `k` turns are kept. */
  lemma {:induction false} TurnsPrefix(turn: TurnFn, bound: nat, n: nat, k: nat, init: RunState)
    requires AppendsOne(turn, bound) && k <= n <= bound
    ensures var P := Turns(turn, n, init);
      |P.results| == |init.results| + n
      && Turns(turn, k, init).results == P.results[..|init.results| + k]
    decreases n
  {
    if n > 0 {
      var Q := Turns(turn, n - 1, init);
      var P := turn(n - 1, Q);
      assert Turns(turn, n, init) == P;
      assert |P.results| == |Q.results| + 1 && P.results[..|Q.results|] == Q.results;
      TurnsPrefix(turn, bound, n - 1, if k < n then k else n - 1, init);
      if k < n {
        assert P.results[..|init.results| + k] == Q.results[..|init.results| + k];
      }
    }
  }

  /** Whether a loop stops after the turn at a position, from the state before it. */
  type StopFn = (nat, RunState) -> bool

  /** Turns `i`, `i + 1`, ... below `bound` from `st`, ending after the
      first turn that `stops` marks. */
  function RunTurns(turn: TurnFn, stops: StopFn, i: nat, bound: nat, st: RunState): RunState
    decreases bound - i
  {
    if bound <= i then st
    else if stops(i, st) then turn(i, st)
    else RunTurns(turn, stops, i + 1, bound, turn(i, st))
  }

  /** Turns that each append one result: after `n` turns there are `n` more. */
  lemma {:induction false} TurnsLength(turn: TurnFn, bound: nat, n: nat, init: RunState)
    requires AppendsOne(turn, bound) && n <= bound
    ensures |Turns(turn, n, init).results| == |init.results| + n
    decreases n
  {
    if n > 0 {
      TurnsLength(turn, bound, n - 1, init);
      var Q := Turns(turn, n - 1, init);
      assert |turn(n - 1, Q).results| == |Q.results| + 1;
    }
  }

  /** A loop that may stop early, started after `i` turns from a state with
      no result, ends in the state some number of turns (at least `i`, at
      most `bound`) reaches: as many turns as it has results. */
  lemma {:induction false} RunTurnsPrefix(turn: TurnFn, stops: StopFn, bound: nat, i: nat, init: RunState)
    requires AppendsOne(turn, bound) && i <= bound && init.results == []
    ensures var R := RunTurns(turn, stops, i, bound, Turns(turn, i, init));
      i <= |R.results| <= bound && R == Turns(turn, |R.results|, init)
    decreases bound - i
  {
    var st := Turns(turn, i, init);
    TurnsLength(turn, bound, i, init);
    if i < bound {
      var next := turn(i, st);
      assert Turns(turn, i + 1, init) == next;
      TurnsLength(turn, bound, i + 1, init);
      if stops(i, st) {
        assert RunTurns(turn, stops, i, bound, st) == next;
      } else {
        assert RunTurns(turn, stops, i, bound, st) == RunTurns(turn, stops, i + 1, bound, next);
        RunTurnsPrefix(turn, stops, bound, i + 1, init);
      }
    } else {
      assert RunTurns(turn, stops, i, bound, st) == st;
    }
  }

  /** The turn of the stage at position `i` of `stages`. */
  function StageTurn(stages: seq<Stage>, shot: ShotRecord, mode: Mode, timing: Timing): TurnFn
  {
    (i: nat, st: RunState) => if i < |stages| then Step(stages[i], i, shot, mode, timing, st) else st
  }

  /** The state after the first `n` stages have each taken their turn. */
  function Prefix(stages: seq<Stage>, n: nat, shot: ShotRecord, mode: Mode, timing: Timing, kwargs: Context)
    : RunState
  {
    Turns(StageTurn(stages, shot, mode, timing), n, RunState([], false, kwargs))
  }

  /** One turn appends exactly the stage's result, and the failed flag
      records whether that result failed. */
  lemma StepAppends(stage: Stage, i: nat, shot: ShotRecord, mode: Mode, timing: Timing, st: RunState)
    ensures var next := Step(stage, i, shot, mode, timing, st);
      next.results == st.results + [StageResult(stage, i, shot, mode, timing, st)]
      && (next.failed <==> st.failed || !StageResult(stage, i, shot, mode, timing, st).success)
  {
    var seen := ShotDuringRun(shot, st.failed);
    if Skips(mode, stage, seen, st.results) {
      assert StageResult(stage, i, shot, mode, timing, st) == SkippedResult(stage.name);
    }
  }

  /** The stage turns append one result each. */
  lemma StageTurnAppends(stages: seq<Stage>, shot: ShotRecord, mode: Mode, timing: Timing)
    ensures AppendsOne(StageTurn(stages, shot, mode, timing), |stages|)
  {
    var turn := StageTurn(stages, shot, mode, timing);
    forall i: nat, st: RunState | i < |stages|
      ensures |turn(i, st).results| == |st.results| + 1 && turn(i, st).results[..|st.results|] == st.results
    {
      StepAppends(stages[i], i, shot, mode, timing, st);
    }
  }

  /** Turn `n + 1` is stage `n`'s step. */
  lemma PrefixStep(stages: seq<Stage>, n: nat, shot: ShotRecord, mode: Mode, timing: Timing, kwargs: Context)
    requires n < |stages|
    ensures Prefix(stages, n + 1, shot, mode, timing, kwargs)
         == Step(stages[n], n, shot, mode, timing, Prefix(stages, n, shot, mode, timing, kwargs))
  {
  }

  /** After `n` turns there are `n` results, and the failed flag says
      whether one of them failed. */
  lemma {:induction false} PrefixLength(stages: seq<Stage>, n: nat, shot: ShotRecord, mode: Mode, timing: Timing,
                                        kwargs: Context)
    requires n <= |stages|
    ensures var P := Prefix(stages, n, shot, mode, timing, kwargs);
      |P.results| == n && (P.failed <==> !AllSucceeded(P.results))
    decreases n
  {
    if n > 0 {
      var Q := Prefix(stages, n - 1, shot, mode, timing, kwargs);
      PrefixLength(stages, n - 1, shot, mode, timing, kwargs);
      PrefixStep(stages, n - 1, shot, mode, timing, kwargs);
      StepAppends(stages[n - 1], n - 1, shot, mode, timing, Q);
      AllSucceededAppend(Q.results, StageResult(stages[n - 1], n - 1, shot, mode, timing, Q));
    }
  }

  /** The turns build the results in stage order: the results after `k`
      turns are the first `k` of those after `n`, and the `k`-th result is
      stage `k`'s result from the state after `k` turns. */
  lemma PrefixResults(stages: seq<Stage>, n: nat, k: nat, shot: ShotRecord, mode: Mode,
                      timing: Timing, kwargs: Context)
    requires k < n <= |stages|
    ensures var P := Prefix(stages, n, shot, mode, timing, kwargs);
      var Q := Prefix(stages, k, shot, mode, timing, kwargs);
      |P.results| == n && Q.results == P.results[..k]
      && P.results[k] == StageResult(stages[k], k, shot, mode, timing, Q)
  {
    var turn := StageTurn(stages, shot, mode, timing);
    var init := RunState([], false, kwargs);
    StageTurnAppends(stages, shot, mode, timing);
    TurnsPrefix(turn, |stages|, n, k, init);
    TurnsPrefix(turn, |stages|, n, k + 1, init);
    var Q := Prefix(stages, k, shot, mode, timing, kwargs);
    var Q1 := Prefix(stages, k + 1, shot, mode, timing, kwargs);
    PrefixStep(stages, k, shot, mode, timing, kwargs);
    StepAppends(stages[k], k, shot, mode, timing, Q);
    PrefixLength(stages, k, shot, mode, timing, kwargs);
    var P := Prefix(stages, n, shot, mode, timing, kwargs);
    assert Q1.results == P.results[..k + 1];
    assert P.results[k] == Q1.results[k];
  }

  /** Whether the run stops after the turn of stage `i`: it executed, it
      failed, and the run stops on errors. */
  predicate StopsAfter(stage: Stage, i: nat, shot: ShotRecord, mode: Mode, stopOnError: bool, timing: Timing,
                       st: RunState)
  {
    stopOnError && !Skips(mode, stage, ShotDuringRun(shot, st.failed), st.results)
    && !StageResult(stage, i, shot, mode, timing, st).success
  }

  /** The run is the turns taken one at a time until one stops it. */
  lemma RunFromUnfold(stages: seq<Stage>, i: nat, shot: ShotRecord, mode: Mode, stopOnError: bool,
                      timing: Timing, st: RunState)
    requires i < |stages|
    ensures var next := Step(stages[i], i, shot, mode, timing, st);
      RunFrom(stages, i, shot, mode, stopOnError, timing, st)
      == if StopsAfter(stages[i], i, shot, mode, stopOnError, timing, st) then next
         else RunFrom(stages, i + 1, shot, mode, stopOnError, timing, next)
  {
    var seen := ShotDuringRun(shot, st.failed);
    if !Skips(mode, stages[i], seen, st.results) {
      var r := ExecuteSpec(stages[i], seen, st.context, timing.stageStart(i), timing.stageEnd(i));
      assert r == StageResult(stages[i], i, shot, mode, timing, st);
    }
  }

  /** The stop decision of the stage at position `i` of `stages`. */
  function StageStops(stages: seq<Stage>, shot: ShotRecord, mode: Mode, stopOnError: bool, timing: Timing)
    : StopFn
  {
    (i: nat, st: RunState) => i < |stages| && StopsAfter(stages[i], i, shot, mode, stopOnError, timing, st)
  }

  /** The run from position `i` is the stage turns taken until one stops it. */
  lemma {:induction false} RunFromTurns(stages: seq<Stage>, i: nat, shot: ShotRecord, mode: Mode,
                                        stopOnError: bool, timing: Timing, st: RunState)
    requires i <= |stages|
    ensures RunFrom(stages, i, shot, mode, stopOnError, timing, st)
         == RunTurns(StageTurn(stages, shot, mode, timing), StageStops(stages, shot, mode, stopOnError, timing),
                     i, |stages|, st)
    decreases |stages| - i
  {
    if i < |stages| {
      var next := Step(stages[i], i, shot, mode, timing, st);
      RunFromUnfold(stages, i, shot, mode, stopOnError, timing, st);
      assert StageTurn(stages, shot, mode, timing)(i, st) == next;
      assert StageStops(stages, shot, mode, stopOnError, timing)(i, st)
          == StopsAfter(stages[i], i, shot, mode, stopOnError, timing, st);
      RunFromTurns(stages, i + 1, shot, mode, stopOnError, timing, next);
    }
  }

  /** From any state the turns have reached, the run ends in the state the
      turns reach after as many stages as it has results. */
  lemma {:induction false} RunFromPrefix(stages: seq<Stage>, i: nat, shot: ShotRecord, mode: Mode,
                                         stopOnError: bool, timing: Timing, kwargs: Context)
    requires i <= |stages|
    ensures var st := Prefix(stages, i, shot, mode, timing, kwargs);
      var R := RunFrom(stages, i, shot, mode, stopOnError, timing, st);
      i <= |R.results| <= |stages| && R == Prefix(stages, |R.results|, shot, mode, timing, kwargs)
    decreases |stages| - i
  {
    var turn, stops := StageTurn(stages, shot, mode, timing), StageStops(stages, shot, mode, stopOnError, timing);
    var init := RunState([], false, kwargs);
    var st := Turns(turn, i, init);
    RunFromTurns(stages, i, shot, mode, stopOnError, timing, st);
    StageTurnAppends(stages, shot, mode, timing);
    RunTurnsPrefix(turn, stops, |stages|, i, init);
  }

  /** Stages run in list order with one result per stage that took its turn,
      whatever the stages are called: a run's final state is the state after
      its first `|results|` turns, and its `k`-th result is stage `k`'s,
      skipped or executed on the shot and context the earlier stages left. */
  lemma RunIsStepByStep(stages: seq<Stage>, shot: ShotRecord, mode: Mode, stopOnError: bool, kwargs: Context,
                        timing: Timing)
    ensures var R := Run(stages, shot, mode, stopOnError, kwargs, timing);
      |R.results| <= |stages|
      && R == Prefix(stages, |R.results|, shot, mode, timing, kwargs)
      && forall k :: 0 <= k < |R.results| ==>
           var Q := Prefix(stages, k, shot, mode, timing, kwargs);
           Q.results == R.results[..k]
           && (Q.failed <==> !AllSucceeded(R.results[..k]))
           && R.results[k] == StageResult(stages[k], k, shot, mode, timing, Q)
  {
    var R := Run(stages, shot, mode, stopOnError, kwargs, timing);
    RunFromPrefix(stages, 0, shot, mode, stopOnError, timing, kwargs);
    forall k | 0 <= k < |R.results|
      ensures Prefix(stages, k, shot, mode, timing, kwargs).results == R.results[..k]
      ensures Prefix(stages, k, shot, mode, timing, kwargs).failed <==> !AllSucceeded(R.results[..k])
      ensures R.results[k] == StageResult(stages[k], k, shot, mode, timing, Prefix(stages, k, shot, mode, timing, kwargs))
    {
      PrefixResults(stages, |R.results|, k, shot, mode, timing, kwargs);
      PrefixLength(stages, k, shot, mode, timing, kwargs);
    }
  }

  // ---------------------------------------------------------------------------
  // Summaries
  // ---------------------------------------------------------------------------

  datatype Summary = Summary(
    pipelineName: string,
    shotInfo: ShotRecord,
    durationSeconds: real,
    totalStages: int,
    successfulStages: int,
    failedStages: int,
    overallSuccess: bool,
    stageResults: seq<ResultRecord>)

  function CountSuccessful(results: seq<ResultRecord>): (n: nat)
    ensures n <= |results|
  {
    if results == [] then 0
    else (if results[0].success then 1 else 0) + CountSuccessful(results[1..])
  }

  /** Every result succeeded exactly when all of them are counted. */
  lemma {:induction false} CountSuccessfulAll(results: seq<ResultRecord>)
    ensures CountSuccessful(results) == |results| <==> AllSucceeded(results)
  {
    if results != [] {
      CountSuccessfulAll(results[1..]);
      if AllSucceeded(results[1..]) && results[0].success {
        assert forall k :: 0 < k < |results| ==> results[k] == results[1..][k - 1];
      }
    }
  }

  /** The summary counts against the whole stage list, so stages a stop
      left unrun count as failed; overall success is the shot's status being
      complete. */
  function BuildSummary(name: string, shot: ShotRecord, duration: real, totalStages: int,
                        results: seq<ResultRecord>): Summary
  {
    var successful := CountSuccessful(results);
    Summary(name, shot, duration, totalStages, successful, totalStages - successful,
            shot.processingStatus == Complete, results)
  }

  /** The summary of a run: overall success holds exactly when no stage
      counts as failed, which is exactly when every result succeeded. */
  lemma SummaryOfRun(name: string, stages: seq<Stage>, shot: ShotRecord, mode: Mode, stopOnError: bool,
                     kwargs: Context, timing: Timing)
    ensures var R := Run(stages, shot, mode, stopOnError, kwargs, timing);
      var s := BuildSummary(name, shot.(processingStatus := FinalStatus(R)), timing.runEnd - timing.runStart,
                            |stages|, R.results);
      s.totalStages == |stages|
      && s.successfulStages + s.failedStages == |stages|
      && 0 <= s.successfulStages <= |R.results|
      && (s.overallSuccess <==> s.failedStages == 0)
      && (s.overallSuccess <==> AllSucceeded(R.results))
  {
    var R := Run(stages, shot, mode, stopOnError, kwargs, timing);
    RunFacts(stages, shot, mode, stopOnError, kwargs, timing);
    CountSuccessfulAll(R.results);
  }

  // ---------------------------------------------------------------------------
  // Scenarios
  // ---------------------------------------------------------------------------

  /** A stage that leaves its result as handed. */
  function Passing(name: string): Stage
  {
    Stage(name, (s, r, c) => Normal(r))
  }

  /** A stage whose `process` raises `error`. */
  function Throwing(name: string, error: string): Stage
  {
    Stage(name, (s, r, c) => Raised(r, error))
  }

  /** What the two sample stages leave behind when executed. */
  lemma SampleStages(name: string, error: string, shot: ShotRecord, ctx: Context, start: real, end: real)
    ensures var p := ExecuteSpec(Passing(name), shot, ctx, start, end);
      p.success && p.data == map[] && p.errors == []
    ensures var t := ExecuteSpec(Throwing(name, error), shot, ctx, start, end);
      !t.success && t.data == map[] && t.errors == [FailureMessage(name, error)]
  {
  }

  /** The failure message of the sample raising stage, spelled out. */
  lemma SampleFailureMessage()
    ensures FailureMessage("B", "boom") == "Stage B failed with exception: boom"
  {
  }

  /** Three stages of which the middle one raises, stopping on errors: two
      run, and the third, never run, still counts as failed. */
  lemma StopOnErrorScenario(shot: ShotRecord, kwargs: Context, timing: Timing)
    ensures var stages := [Passing("A"), Throwing("B", "boom"), Passing("C")];
      var R := Run(stages, shot, Plain, true, kwargs, timing);
      var s := BuildSummary("P", shot.(processingStatus := FinalStatus(R)), 0.0, 3, R.results);
      |R.results| == 2 && R.results[0].success && !R.results[1].success
      && R.results[1].errors == ["Stage B failed with exception: boom"]
      && FinalStatus(R) == Error
      && s.successfulStages == 1 && s.failedStages == 2 && !s.overallSuccess
  {
    var stages := [Passing("A"), Throwing("B", "boom"), Passing("C")];
    var seen := ShotDuringRun(shot, false);
    var r0 := ExecuteSpec(stages[0], seen, kwargs, timing.stageStart(0), timing.stageEnd(0));
    var r1 := ExecuteSpec(stages[1], seen, kwargs, timing.stageStart(1), timing.stageEnd(1));
    SampleStages("A", "boom", seen, kwargs, timing.stageStart(0), timing.stageEnd(0));
    SampleStages("B", "boom", seen, kwargs, timing.stageStart(1), timing.stageEnd(1));
    var st1 := RunState([r0], false, kwargs);
    var st2 := RunState([r0, r1], true, kwargs);
    assert r1.errors == ["Stage B failed with exception: boom"] by { SampleFailureMessage(); }
    assert Run(stages, shot, Plain, true, kwargs, timing) == RunFrom(stages, 1, shot, Plain, true, timing, st1);
    assert RunFrom(stages, 1, shot, Plain, true, timing, st1) == st2;
    assert CountSuccessful(st2.results) == 1 by {
      assert st2.results[1..] == [r1];
      assert st2.results[1..][1..] == [];
    }
  }

  /** The same three stages without stopping on errors: all three run, the
      shot still ends in error, and the summary counts two successes and
      one failure. */
  lemma ContinueOnErrorScenario(shot: ShotRecord, kwargs: Context, timing: Timing)
    ensures var stages := [Passing("A"), Throwing("B", "boom"), Passing("C")];
      var R := Run(stages, shot, Plain, false, kwargs, timing);
      var s := BuildSummary("P", shot.(processingStatus := FinalStatus(R)), 0.0, 3, R.results);
      |R.results| == 3 && R.results[0].success && !R.results[1].success && R.results[2].success
      && FinalStatus(R) == Error
      && s.successfulStages == 2 && s.failedStages == 1 && !s.overallSuccess
  {
    var stages := [Passing("A"), Throwing("B", "boom"), Passing("C")];
    var seen := ShotDuringRun(shot, false);
    var seen2 := ShotDuringRun(shot, true);
    var r0 := ExecuteSpec(stages[0], seen, kwargs, timing.stageStart(0), timing.stageEnd(0));
    var r1 := ExecuteSpec(stages[1], seen, kwargs, timing.stageStart(1), timing.stageEnd(1));
    var r2 := ExecuteSpec(stages[2], seen2, kwargs, timing.stageStart(2), timing.stageEnd(2));
    SampleStages("A", "boom", seen, kwargs, timing.stageStart(0), timing.stageEnd(0));
    SampleStages("B", "boom", seen, kwargs, timing.stageStart(1), timing.stageEnd(1));
    SampleStages("C", "boom", seen2, kwargs, timing.stageStart(2), timing.stageEnd(2));
    var st1 := RunState([r0], false, kwargs);
    var st2 := RunState([r0, r1], true, kwargs);
    assert Run(stages, shot, Plain, false, kwargs, timing) == RunFrom(stages, 1, shot, Plain, false, timing, st1);
    assert RunFrom(stages, 1, shot, Plain, false, timing, st1) == RunFrom(stages, 2, shot, Plain, false, timing, st2);
    var st3 := RunState([r0, r1, r2], true, kwargs);
    assert RunFrom(stages, 2, shot, Plain, false, timing, st2) == st3;
    assert CountSuccessful(st3.results) == 2 by {
      assert [r2][1..] == [];
      assert CountSuccessful([r2]) == 1;
      assert [r1, r2][1..] == [r2];
      assert CountSuccessful([r1, r2]) == 1;
      assert st3.results[1..] == [r1, r2];
    }
  }

  /** In the conditional pipeline a stage whose condition fails is skipped
      with a succeeding result, so the run goes on and can complete. */
  lemma SkippedStageScenario(shot: ShotRecord, kwargs: Context, timing: Timing)
    ensures var stages := [Passing("A"), Throwing("B", "boom"), Passing("C")];
      var mode := Conditional(map["B" := (s: ShotRecord, rs: seq<ResultRecord>) => false]);
      var R := Run(stages, shot, mode, true, kwargs, timing);
      |R.results| == 3 && R.results[1] == SkippedResult("B")
      && R.results[1].success && R.results[1].message == "Stage skipped (condition not met)"
      && FinalStatus(R) == Complete && R.context == kwargs
  {
  }

  // ---------------------------------------------------------------------------
  // The pipeline objects
  // ---------------------------------------------------------------------------

  class Pipeline {
    var name: string
    var stages: seq<Stage>
    var results: seq<ResultRecord>

    constructor (name: string, stages: seq<Stage> := [])
      ensures this.name == name && this.stages == stages && results == []
    {
      this.name := name;
      this.stages := stages;
      results := [];
    }

    method AddStage(stage: Stage)
      modifies this
      ensures stages == old(stages) + [stage]
      ensures name == old(name) && results == old(results)
    {
      stages := stages + [stage];
    }

    /** Run every stage over the shot, merging each stage's data into the
        context of the next ones, and summarise. */
    method Execute(shot: ShotInfo, kwargs: Context, timing: Timing, stopOnError: bool := true)
      returns (summary: Summary)
      modifies this, shot
      ensures name == old(name) && stages == old(stages)
      ensures var R := Run(stages, old(shot.Snapshot()), Plain, stopOnError, kwargs, timing);
        results == R.results
        && shot.Snapshot() == old(shot.Snapshot()).(processingStatus := FinalStatus(R))
        && summary == BuildSummary(name, shot.Snapshot(), timing.runEnd - timing.runStart, |stages|, results)
    {
      results := [];
      shot.processingStatus := Processing;
      var pipelineData := kwargs;
      var failed := false;
      var i := 0;
      while i < |stages|
        invariant 0 <= i <= |stages|
        invariant name == old(name) && stages == old(stages)
        invariant shot.Snapshot() == ShotDuringRun(old(shot.Snapshot()), failed)
        invariant Run(stages, old(shot.Snapshot()), Plain, stopOnError, kwargs, timing)
               == RunFrom(stages, i, old(shot.Snapshot()), Plain, stopOnError, timing,
                          RunState(results, failed, pipelineData))
      {
        var stage := stages[i];
        var result := Stages.Execute(stage, shot, pipelineData, timing.stageStart(i), timing.stageEnd(i));
        results := results + [result.Record()];
        if result.data != map[] {
          if "dpx_sequence" in result.data {
            pipelineData := pipelineData["input_sequence" := result.data["dpx_sequence"]];
          }
          if "output_sequence" in result.data {
            pipelineData := pipelineData["input_sequence" := result.data["output_sequence"]];
          }
          if "proxy_file" in result.data {
            pipelineData := pipelineData["proxy_file" := result.data["proxy_file"]];
          }
          pipelineData := pipelineData[stage.name + "_output" := Dict(result.data)];
        }
        if !result.success {
          shot.processingStatus := Error;
          failed := true;
          if stopOnError {
            break;
          }
        }
        i := i + 1;
      }
      if shot.processingStatus != Error {
        shot.processingStatus := Complete;
      }
      summary := BuildSummary(name, shot.Snapshot(), timing.runEnd - timing.runStart, |stages|, results);
    }
  }

  /** The fluent builder: stages are added to one pipeline, which is then
      handed out. */
  class PipelineBuilder {
    const pipeline: Pipeline

    constructor (name: string)
      ensures fresh(pipeline)
      ensures pipeline.name == name && pipeline.stages == [] && pipeline.results == []
    {
      pipeline := new Pipeline(name);
    }

    method AddStage(stage: Stage) returns (builder: PipelineBuilder)
      modifies pipeline
      ensures builder == this
      ensures pipeline.stages == old(pipeline.stages) + [stage]
      ensures pipeline.name == old(pipeline.name) && pipeline.results == old(pipeline.results)
    {
      pipeline.AddStage(stage);
      return this;
    }

    method Build() returns (p: Pipeline)
      ensures p == pipeline
    {
      return pipeline;
    }
  }

  /** A pipeline whose stages may carry a condition, keyed by stage name. It
      hands every executed stage the original keyword arguments. */
  class ConditionalPipeline {
    var name: string
    var stages: seq<Stage>
    var results: seq<ResultRecord>
    var stageConditions: map<string, Condition>

    constructor (name: string, stages: seq<Stage> := [])
      ensures this.name == name && this.stages == stages && results == [] && stageConditions == map[]
    {
      this.name := name;
      this.stages := stages;
      results := [];
      stageConditions := map[];
    }

    method AddStage(stage: Stage)
      modifies this
      ensures stages == old(stages) + [stage]
      ensures name == old(name) && results == old(results) && stageConditions == old(stageConditions)
    {
      stages := stages + [stage];
    }

    /** Add a stage and register its condition under its name, replacing
        any condition registered earlier under the same name. */
    method AddConditionalStage(stage: Stage, condition: Condition)
      modifies this
      ensures stages == old(stages) + [stage]
      ensures stageConditions == old(stageConditions)[stage.name := condition]
      ensures name == old(name) && results == old(results)
    {
      AddStage(stage);
      stageConditions := stageConditions[stage.name := condition];
    }

    method Execute(shot: ShotInfo, kwargs: Context, timing: Timing, stopOnError: bool := true)
      returns (summary: Summary)
      modifies this, shot
      ensures name == old(name) && stages == old(stages) && stageConditions == old(stageConditions)
      ensures var R := Run(stages, old(shot.Snapshot()), Conditional(stageConditions), stopOnError, kwargs, timing);
        results == R.results
        && shot.Snapshot() == old(shot.Snapshot()).(processingStatus := FinalStatus(R))
        && summary == BuildSummary(name, shot.Snapshot(), timing.runEnd - timing.runStart, |stages|, results)
    {
      results := [];
      shot.processingStatus := Processing;
      var failed := false;
      var i := 0;
      while i < |stages|
        invariant 0 <= i <= |stages|
        invariant name == old(name) && stages == old(stages) && stageConditions == old(stageConditions)
        invariant shot.Snapshot() == ShotDuringRun(old(shot.Snapshot()), failed)
        invariant Run(stages, old(shot.Snapshot()), Conditional(stageConditions), stopOnError, kwargs, timing)
               == RunFrom(stages, i, old(shot.Snapshot()), Conditional(stageConditions), stopOnError, timing,
                          RunState(results, failed, kwargs))
      {
        var stage := stages[i];
        var shouldRun := true;
        if stage.name in stageConditions {
          var conditionFn := stageConditions[stage.name];
          shouldRun := conditionFn(shot.Snapshot(), results);
        }
        if !shouldRun {
          results := results + [SkippedResult(stage.name)];
        } else {
          var result := Stages.Execute(stage, shot, kwargs, timing.stageStart(i), timing.stageEnd(i));
          results := results + [result.Record()];
          if !result.success {
            shot.processingStatus := Error;
            failed := true;
            if stopOnError {
              break;
            }
          }
        }
        i := i + 1;
      }
      if shot.processingStatus != Error {
        shot.processingStatus := Complete;
      }
      summary := BuildSummary(name, shot.Snapshot(), timing.runEnd - timing.runStart, |stages|, results);
    }
  }
}
