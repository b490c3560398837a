/**
 One persisted readonly step (src/orchestration/pipeline.py) and the bounded outer loop around it
 (src/agent/loop.py:443-564).
 */
module AgentLoop {
  import opened Prelude
  import opened Json
  import opened AgentProtocol
  import opened DecisionValidation
  import opened AgentStep

  // ---------------------------------------------------------------- reducing one step into the run state

  function StatusText(status: StepStatus): string {
    match status
    case Continue => "continue"
    case WaitUser => "wait_user"
    case WaitHuman => "wait_human"
    case Complete => "complete"
    case Fail => "fail"
  }

  function ReasonText(reason: Reason): string {
    match reason
    case CancelledReason => "cancelled"
    case MaxStepsExceeded => "max_steps_exceeded"
    case TokenBudgetExhausted => "token_budget_exhausted"
    case DeadlineExceeded => "deadline_exceeded"
    case ModelUnavailable => "model_unavailable"
    case ModelAuditFailed => "model_audit_failed"
    case TracePersistenceFailed => "trace_persistence_failed"
    case ReadonlyWriteToolForbidden => "readonly_write_tool_forbidden"
    case DecisionRejected => "decision_rejected"
    case ToolExecutionFailed => "tool_execution_failed"
    case UnsupportedDecision => "unsupported_decision"
    case ReadonlyLoopNoProgress => "readonly_loop_no_progress"
  }

  predicate AllStrings(items: seq<Value>) {
    forall i :: 0 <= i < |items| ==> items[i].Str?
  }

  /** What a successful tool execution leaves for the next step. */
  function WithObservation(state: Object, execution: Execution): Object {
    if execution.failed || execution.data.None? then state
    else
      var data := execution.data.value;
      var byTool := GetObject(state, "tool_data_by_name").GetOr(map[]);
      var remembered := state["last_tool_data" := data]["tool_data_by_name" := Obj(byTool[execution.tool := data])];
      if data.Obj? && GetOr(data.fields, "evidence_ids", Null).Arr? && AllStrings(GetOr(data.fields, "evidence_ids", Null).items) then
        remembered["evidence_ids" := GetOr(data.fields, "evidence_ids", Null)]
      else remembered
  }

  function ReducedState(state: Object, result: LoopResult): Object {
    var marked := state["last_step_status" := Str(StatusText(result.status))] - {"last_step_reason"};
    var explained := if result.reason.Some? then marked["last_step_reason" := Str(ReasonText(result.reason.value))] else marked;
    if result.execution.Some? then WithObservation(explained, result.execution.value) else explained
  }

  /** `_target_status` from RUNNING_READONLY. */
  function TargetStatus(result: LoopResult): RunStatus {
    if result.reason == Some(CancelledReason) then Cancelled
    else
      match result.status
      case Continue => RunningReadonly
      case WaitUser => WaitingUser
      case WaitHuman => WaitingHuman
      case Complete => Completed
      case Fail =>
        if result.reason == Some(MaxStepsExceeded) || result.reason == Some(TokenBudgetExhausted)
          || result.reason == Some(DeadlineExceeded) then WaitingHuman
        else Failed
  }

  /** The RUNNING_READONLY row of the transition table. */
  predicate LegalFromReadonly(target: RunStatus) {
    target in {RunningReadonly, WaitingUser, WaitingHuman, Completed, Failed, Cancelled, Expired}
  }

  /** Evidence persisted by an earlier retrieval is trusted in this step. */
  function Widened(boundary: DecisionBoundary, state: Object): DecisionBoundary {
    var ids := GetOr(state, "evidence_ids", Arr([]));
    if ids.Arr? then
      boundary.(trustedEvidenceIds := boundary.trustedEvidenceIds + (set i | 0 <= i < |ids.items| && ids.items[i].Str? :: ids.items[i].s))
    else boundary
  }

  // ---------------------------------------------------------------- one advance

  /** The surroundings of one advance; building the prompt, input validation and the checkpoint may raise. */
  datatype Round = Round(env: StepEnv, tools: ToolContext, inputsOk: bool, checkpointOk: bool)

  /** A raising advance persists nothing, but its step may already have had effects. */
  datatype Advance = Advanced(context: RunContext, run: StepRun) | AdvanceRaised(effects: seq<StepRun>)

  function AdvanceOnce(registry: Registry, context: RunContext, boundary: DecisionBoundary, budget: Option<int>, round: Round): (r: Advance)
    ensures r.Advanced? && r.context.status.RunningReadonly? ==>
      context.stepCount < MAX_STEPS && r.context.stepCount == context.stepCount + 1
  {
    if !round.inputsOk then AdvanceRaised([])
    else
      var run := Step(registry, context, Widened(boundary, context.state), round.tools, budget, round.env);
      if !LegalFromReadonly(TargetStatus(run.result)) || !round.checkpointOk then AdvanceRaised([run])
      else Advanced(RunContext(TargetStatus(run.result), ReducedState(context.state, run.result), context.stepCount + 1), run)
  }

  function HandedOff(context: RunContext): RunContext {
    RunContext(WaitingHuman, context.state["last_step_reason" := Str("readonly_loop_no_progress")], context.stepCount + 1)
  }

  // ---------------------------------------------------------------- specification of the loop

  /** Stable structured action fields; argument order does not matter. */
  datatype Signature = Signature(kind: DecisionType, tool: Option<string>, args: Object)

  function SignatureOf(result: LoopResult): Option<Signature> {
    if result.decision.None? || !result.status.Continue? then None
    else Some(Signature(result.decision.value.kind, result.decision.value.tool, result.decision.value.args))
  }

  function ChargeOf(result: LoopResult, conservative: nat): nat {
    result.usage.GetOr(conservative)
  }

  function Spend(budget: Option<int>, charge: nat): Option<int> {
    if budget.None? then None
    else if budget.value - charge < 0 then Some(0)
    else Some(budget.value - charge)
  }

  datatype LoopWorld = LoopWorld(registry: Registry, boundary: DecisionBoundary, conservative: nat,
                                 rounds: nat -> Round, handoffOk: bool)

  datatype RunState = RunState(context: RunContext, log: seq<StepRun>, budget: Option<int>, previous: Option<Signature>)

  /** `budget` is what is left when the run stops; when something raises, it is lost with the run. */
  datatype RunEnd =
    | Stopped(context: RunContext, log: seq<StepRun>, budget: Option<int>, handedOff: bool)
    | RunRaised(log: seq<StepRun>)

  datatype RoundEnd = Goes(next: RunState) | Ends(end: RunEnd)

  /** One pass through the loop: the state of the next pass, or the end of the run. */
  function RoundOf(w: LoopWorld, rs: RunState): (r: RoundEnd)
    ensures r.Goes? ==> rs.context.stepCount < MAX_STEPS && r.next.context.stepCount == rs.context.stepCount + 1
  {
    if !rs.context.status.RunningReadonly? then Ends(Stopped(rs.context, rs.log, rs.budget, false))
    else
      match AdvanceOnce(w.registry, rs.context, w.boundary, rs.budget, w.rounds(|rs.log|))
      case AdvanceRaised(effects) => Ends(RunRaised(rs.log + effects))
      case Advanced(context, run) =>
        var log, budget := rs.log + [run], Spend(rs.budget, ChargeOf(run.result, w.conservative));
        if !context.status.RunningReadonly? then Ends(Stopped(context, log, budget, false))
        else
          var signature := SignatureOf(run.result);
          if signature.Some? && signature == rs.previous then
            Ends(if w.handoffOk then Stopped(HandedOff(context), log, budget, true) else RunRaised(log))
          else
            Goes(RunState(context, log, budget, signature))
  }

  function Loop(w: LoopWorld, rs: RunState): RunEnd
    decreases if rs.context.stepCount <= MAX_STEPS then MAX_STEPS + 1 - rs.context.stepCount else 0
  {
    match RoundOf(w, rs)
    case Goes(next) => Loop(w, next)
    case Ends(end) => end
  }

  /** The states of the loop's variables at the start of every pass. */
  function StatesOf(w: LoopWorld, rs: RunState): (r: seq<RunState>)
    ensures r != [] && r[0] == rs
    decreases if rs.context.stepCount <= MAX_STEPS then MAX_STEPS + 1 - rs.context.stepCount else 0
  {
    match RoundOf(w, rs)
    case Goes(next) => [rs] + StatesOf(w, next)
    case Ends(_) => [rs]
  }

  // ---------------------------------------------------------------- the loop itself

  /** The results handed back: one per advance, and one for the handoff. */
  function ResultsOf(end: RunEnd): seq<LoopResult> {
    Results(end.log)
    + if end.Stopped? && end.handedOff then [LoopResult(WaitHuman, None, None, None, Some(ReadonlyLoopNoProgress), None)] else []
  }

  function Results(log: seq<StepRun>): (r: seq<LoopResult>)
    ensures |r| == |log|
  {
    seq(|log|, i requires 0 <= i < |log| => log[i].result)
  }

  function CallsIn(log: seq<StepRun>): seq<ToolCall> {
    if log == [] then [] else CallsIn(log[..|log| - 1]) + log[|log| - 1].toolCalls
  }

  function ModelCallsIn(log: seq<StepRun>): nat {
    if log == [] then 0 else ModelCallsIn(log[..|log| - 1]) + log[|log| - 1].modelCalls
  }

  /** The step that an advance made, if it got that far. */
  function EffectsOf(advance: Advance): seq<StepRun> {
    match advance
    case Advanced(_, run) => [run]
    case AdvanceRaised(effects) => effects
  }

  /** StepPipeline.advance around the executor's step. */
  method AdvanceStep(executor: AgentStepExecutor, context: RunContext, boundary: DecisionBoundary, budget: Option<int>, round: Round)
    returns (r: Advance)
    modifies executor
    ensures r == AdvanceOnce(executor.registry, context, boundary, budget, round)
    ensures executor.toolCalls == old(executor.toolCalls) + CallsIn(EffectsOf(r))
    ensures executor.modelCalls == old(executor.modelCalls) + ModelCallsIn(EffectsOf(r))
  {
    if !round.inputsOk {
      return AdvanceRaised([]);
    }
    var widened := Widened(boundary, context.state);
    ghost var run := Step(executor.registry, context, widened, round.tools, budget, round.env);
    assert CallsIn([run]) == run.toolCalls && ModelCallsIn([run]) == run.modelCalls by {
      assert [run][..0] == [];
    }
    var calls, models, stages := executor.toolCalls, executor.modelCalls, executor.stages;
    var result := executor.ExecuteStep(context, widened, round.tools, budget, round.env);
    var made := StepRun(result, executor.stages[|stages|..], executor.modelCalls - models, executor.toolCalls[|calls|..]);
    assert made == run;
    var target := TargetStatus(result);
    if !LegalFromReadonly(target) || !round.checkpointOk {
      return AdvanceRaised([made]);
    }
    return Advanced(RunContext(target, ReducedState(context.state, result), context.stepCount + 1), made);
  }

  /** The executor made exactly the logged calls on top of earlier ones. */
  ghost predicate Logged(executor: AgentStepExecutor, calls: seq<ToolCall>, models: nat, log: seq<StepRun>)
    reads executor
  {
    executor.toolCalls == calls + CallsIn(log) && executor.modelCalls == models + ModelCallsIn(log)
  }

  method AdvanceLogged(executor: AgentStepExecutor, w: LoopWorld, rs: RunState, ghost calls: seq<ToolCall>, ghost models: nat)
    returns (r: Advance)
    requires Logged(executor, calls, models, rs.log)
    modifies executor
    ensures r == AdvanceOnce(executor.registry, rs.context, w.boundary, rs.budget, w.rounds(|rs.log|))
    ensures Logged(executor, calls, models, rs.log + EffectsOf(r))
  {
    r := AdvanceStep(executor, rs.context, w.boundary, rs.budget, w.rounds(|rs.log|));
    LoggedMore(executor, calls, models, rs.log, EffectsOf(r));
  }

  lemma LoggedMore(executor: AgentStepExecutor, calls: seq<ToolCall>, models: nat, log: seq<StepRun>, more: seq<StepRun>)
    requires executor.toolCalls == calls + CallsIn(log) + CallsIn(more)
    requires executor.modelCalls == models + ModelCallsIn(log) + ModelCallsIn(more)
    ensures Logged(executor, calls, models, log + more)
  {
    CallsAppend(log, more);
    Reassociate(calls, CallsIn(log), CallsIn(more));
  }

  lemma Reassociate<T>(a: seq<T>, b: seq<T>, c: seq<T>)
    ensures a + b + c == a + (b + c)
  {
  }

  /** One pass through the loop body (lines 533-563): the next state, or the end of the run. */
  method OneRound(executor: AgentStepExecutor, w: LoopWorld, rs: RunState, ghost calls: seq<ToolCall>, ghost models: nat)
    returns (next: RunState, end: Option<RunEnd>)
    requires w.registry == executor.registry && rs.context.status.RunningReadonly?
    requires Logged(executor, calls, models, rs.log)
    modifies executor
    ensures RoundOf(w, rs) == if end.Some? then Ends(end.value) else Goes(next)
    ensures end.Some? ==> Logged(executor, calls, models, end.value.log)
    ensures end.None? ==> Logged(executor, calls, models, next.log)
  {
    next := rs;
    var advance := AdvanceLogged(executor, w, rs, calls, models);
    if advance.AdvanceRaised? {
      return next, Some(RunRaised(rs.log + advance.effects));
    }
    next, end := Settle(w, rs, advance.context, advance.run);
  }

  /** The part of the loop body after an advance (lines 535-563). */
  method Settle(w: LoopWorld, rs: RunState, current: RunContext, run: StepRun) returns (next: RunState, end: Option<RunEnd>)
    requires rs.context.status.RunningReadonly?
    requires AdvanceOnce(w.registry, rs.context, w.boundary, rs.budget, w.rounds(|rs.log|)) == Advanced(current, run)
    ensures RoundOf(w, rs) == if end.Some? then Ends(end.value) else Goes(next)
    ensures (if end.Some? then end.value.log else next.log) == rs.log + [run]
  {
    next := rs;
    var log := rs.log + [run];
    var remaining := rs.budget;
    if remaining.Some? {
      var usage := run.result.usage.GetOr(w.conservative);
      remaining := Some(if remaining.value - usage < 0 then 0 else remaining.value - usage);
    }
    if current.status != RunningReadonly {
      return next, Some(Stopped(current, log, remaining, false));
    }
    var signature := SignatureOf(run.result);
    if signature != None && signature == rs.previous {
      return next, Some(if w.handoffOk then Stopped(HandedOff(current), log, remaining, true) else RunRaised(log));
    }
    return RunState(current, log, remaining, signature), None;
  }

  /** AgentLoop.run: the final context and results, or `None` when an advance or the handoff raised. */
  method Run(executor: AgentStepExecutor, w: LoopWorld, context: RunContext, tokenBudget: Option<int>)
    returns (finished: Option<(RunContext, seq<LoopResult>)>)
    requires w.registry == executor.registry
    modifies executor
    ensures var end := Loop(w, RunState(context, [], tokenBudget, None));
      && finished == (if end.Stopped? then Some((end.context, ResultsOf(end))) else None)
      && executor.toolCalls == old(executor.toolCalls) + CallsIn(end.log)
      && executor.modelCalls == old(executor.modelCalls) + ModelCallsIn(end.log)
  {
    ghost var calls, models := executor.toolCalls, executor.modelCalls;
    var rs, end: Option<RunEnd> := RunState(context, [], tokenBudget, None), None;
    while rs.context.status.RunningReadonly? && end.None?
      invariant Loop(w, RunState(context, [], tokenBudget, None)) == if end.Some? then end.value else Loop(w, rs)
      invariant Logged(executor, calls, models, if end.Some? then end.value.log else rs.log)
      modifies executor
      decreases end.None?, if rs.context.stepCount <= MAX_STEPS then MAX_STEPS + 1 - rs.context.stepCount else 0
    {
      rs, end := OneRound(executor, w, rs, calls, models);
    }
    if end.None? {
      end := Some(Stopped(rs.context, rs.log, rs.budget, false));
    }
    return if end.value.Stopped? then Some((end.value.context, ResultsOf(end.value))) else None;
  }

  lemma {:induction false} CallsAppend(log: seq<StepRun>, more: seq<StepRun>)
    ensures CallsIn(log + more) == CallsIn(log) + CallsIn(more)
    ensures ModelCallsIn(log + more) == ModelCallsIn(log) + ModelCallsIn(more)
    decreases |more|
  {
    if more == [] {
      assert log + more == log;
    } else {
      assert (log + more)[..|log + more| - 1] == log + more[..|more| - 1];
      CallsAppend(log, more[..|more| - 1]);
    }
  }
}
