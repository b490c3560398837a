/**
 What every step and every run of the agent ends with, read off the inputs and the log alone
 (src/agent/loop.py, src/orchestration/pipeline.py).
 */
module AgentOutcomes {
  import opened Prelude
  import opened Json
  import opened AgentProtocol
  import opened DecisionValidation
  import opened AgentStep
  import opened AgentLoop

  // ---------------------------------------------------------------- the inputs of a step

  /** Nothing stands in the way of a model call. */
  predicate Open(context: RunContext, budget: Option<int>, env: StepEnv) {
    !env.cancelledAtStart && context.stepCount < 6 && (budget.Some? ==> budget.value > 0) && !env.expired
  }

  /** The model's decision can be acted on. */
  predicate Received(context: RunContext, budget: Option<int>, env: StepEnv) {
    Open(context, budget, env) && env.reply.Decided? && env.auditOk && !env.cancelledAfterModel && env.traceOk
  }

  /** The registry offers this tool to the model here. */
  predicate Offered(registry: Registry, tools: ToolContext, name: string) {
    && (name, "1") in registry
    && var spec := registry[(name, "1")];
    && spec.modelVisible
    && (spec.allowedWorkflows == {} || (tools.workflow.Some? && tools.workflow.value in spec.allowedWorkflows))
    && (spec.allowedSteps == {} || (tools.currentStep.Some? && tools.currentStep.value in spec.allowedSteps))
    && spec.requiredScopes <= tools.scopes
  }

  /** Of an allowed type, on an allowed route, but with evidence that nobody vouches for. */
  ghost predicate CitesUntrusted(decision: Decision, boundary: DecisionBoundary) {
    && decision.kind in boundary.allowedTypes
    && (decision.route == boundary.route || decision.route in boundary.allowedRoutes)
    && exists id :: id in decision.evidenceIds && id !in boundary.trustedEvidenceIds
  }

  /** The step asks the model for a tool, or for an answer, that is safe. */
  ghost predicate RunsTool(registry: Registry, context: RunContext, boundary: DecisionBoundary, tools: ToolContext,
                           budget: Option<int>, env: StepEnv)
  {
    && Received(context, budget, env) && env.reply.decision.kind.CallTool?
    && var decision := Bind(env.reply.decision, context.state);
    && decision.tool.Some? && Offered(registry, tools, decision.tool.value)
    && registry[(decision.tool.value, "1")].risk.ReadOnly?
    && SafeToolCall(decision, boundary, registry[(decision.tool.value, "1")])
  }

  ghost predicate AnswersAtOnce(context: RunContext, boundary: DecisionBoundary, budget: Option<int>, env: StepEnv) {
    Received(context, budget, env) && SafeAnswer(env.reply.decision, boundary)
  }

  ghost predicate AsksAgain(context: RunContext, boundary: DecisionBoundary, budget: Option<int>, env: StepEnv) {
    && Received(context, budget, env) && !env.reply.decision.kind.CallTool?
    && CitesUntrusted(env.reply.decision, boundary)
  }

  ghost predicate AnswersAfterRetry(context: RunContext, boundary: DecisionBoundary, budget: Option<int>, env: StepEnv) {
    && AsksAgain(context, boundary, budget, env)
    && env.retry.Decided? && env.retryAuditOk && SafeAnswer(env.retry.decision, boundary)
  }

  // ---------------------------------------------------------------- answers

  /** The result that an accepted answer stands for: its kind decides the status, and its text is the response. */
  predicate IsAnswerOf(result: LoopResult, decision: Decision) {
    && (result.status.WaitUser? <==> decision.kind.AskUser?)
    && (result.status.WaitHuman? <==> decision.kind.Handoff?)
    && (result.status.Complete? <==> decision.kind.Respond? || decision.kind.Finish?)
    && result.response == decision.response && result.decision == Some(decision)
    && result.reason.None? && result.execution.None?
  }

  lemma UntrustedIsCited(decision: Decision, boundary: DecisionBoundary)
    ensures Validate(decision, boundary, None) == Some(UntrustedEvidence) <==> CitesUntrusted(decision, boundary)
  {
  }

  /** What the validator says about a decision that is not a tool call. */
  lemma AnswerIsSafe(decision: Decision, boundary: DecisionBoundary)
    ensures Validate(decision, boundary, None).None? <==> SafeAnswer(decision, boundary)
    ensures SafeAnswer(decision, boundary) ==> !decision.kind.CallTool?
  {
    ValidatorAcceptsExactlyTheSafe(decision, boundary, None);
  }

  lemma RetryIsSafe(boundary: DecisionBoundary, env: StepEnv)
    ensures env.retry.Decided? ==>
      (Validate(env.retry.decision, boundary, None).None? <==> SafeAnswer(env.retry.decision, boundary))
      && (SafeAnswer(env.retry.decision, boundary) ==> !env.retry.decision.kind.CallTool?)
  {
    if env.retry.Decided? {
      AnswerIsSafe(env.retry.decision, boundary);
    }
  }

  /** The answer path, for a decision that is no tool call. */
  lemma AnswerPathIs(boundary: DecisionBoundary, decision: Decision, usage: Option<nat>, env: StepEnv)
    requires !decision.kind.CallTool?
    ensures var result := AnswerPath(boundary, decision, usage, env).result;
      var retried := CitesUntrusted(decision, boundary);
      var accepted := retried && env.retry.Decided? && env.retryAuditOk && SafeAnswer(env.retry.decision, boundary);
      && (SafeAnswer(decision, boundary) ==> !retried && IsAnswerOf(result, decision))
      && (accepted ==> IsAnswerOf(result, env.retry.decision))
      && (!SafeAnswer(decision, boundary) && !accepted ==>
        && result.status.Fail? && result.response.None? && result.execution.None?
        && result.reason == Some(if retried && env.retry.Decided? && !env.retryAuditOk then ModelAuditFailed else DecisionRejected)
        && result.decision == (if result.reason == Some(ModelAuditFailed) then None else Some(decision)))
  {
    AnswerIsSafe(decision, boundary);
    UntrustedIsCited(decision, boundary);
    RetryIsSafe(boundary, env);
  }

  /** Accepted answers, whether the first or the retried one, keep their kind, text and usage; nothing else looks like an answer. */
  lemma AnswersKeepTheirKind(registry: Registry, context: RunContext, boundary: DecisionBoundary, tools: ToolContext,
                             budget: Option<int>, env: StepEnv)
    ensures var result := Step(registry, context, boundary, tools, budget, env).result;
      && (AnswersAtOnce(context, boundary, budget, env) ==>
            IsAnswerOf(result, env.reply.decision) && result.usage == env.reply.usage)
      && (AnswersAfterRetry(context, boundary, budget, env) ==>
            IsAnswerOf(result, env.retry.decision) && result.usage == env.retry.usage)
      && (result.status.WaitUser? || result.status.Complete? || (result.status.WaitHuman? && result.reason.None?) ==>
            AnswersAtOnce(context, boundary, budget, env) || AnswersAfterRetry(context, boundary, budget, env))
  {
    if Received(context, budget, env) {
      AnswerIsSafe(env.reply.decision, boundary);
      if !env.reply.decision.kind.CallTool? {
        AnswerPathIs(boundary, env.reply.decision, env.reply.usage, env);
      }
    }
  }

  // ---------------------------------------------------------------- tools

  /** The tool path, for a decision that is a tool call. */
  lemma ToolPathIs(registry: Registry, boundary: DecisionBoundary, tools: ToolContext, decision: Decision, usage: Option<nat>, env: StepEnv)
    requires decision.kind.CallTool?
    ensures var run, name := ToolPath(registry, boundary, tools, decision, usage, env), decision.tool.GetOr("");
      var offered := Offered(registry, tools, name);
      var runs := decision.tool.Some? && offered && registry[(name, "1")].risk.ReadOnly?
        && SafeToolCall(decision, boundary, registry[(name, "1")]);
      && (runs ==> run.toolCalls == [ToolCall(registry[(name, "1")], decision.args)])
      && (!runs ==> run.toolCalls == [])
      && run.result ==
           if runs && env.tool.Executed? then
             LoopResult(Continue, None, Some(decision), Some(Execution(name, env.tool.data, env.tool.failed)), None, usage)
           else if runs then Failure(Some(decision), ToolExecutionFailed)
           else if offered && !registry[(name, "1")].risk.ReadOnly? then
             LoopResult(WaitHuman, None, Some(decision), None, Some(ReadonlyWriteToolForbidden), usage)
           else Failure(Some(decision), DecisionRejected)
  {
    if Offered(registry, tools, decision.tool.GetOr("")) {
      ValidatorAcceptsExactlyTheSafe(decision, boundary, Some(registry[(decision.tool.GetOr(""), "1")]));
    }
  }

  /** A tool is executed exactly when asking for it is safe, with the model's rebound arguments and its own answer. */
  lemma ToolsRunExactlyWhenSafe(registry: Registry, context: RunContext, boundary: DecisionBoundary, tools: ToolContext,
                                budget: Option<int>, env: StepEnv)
    ensures var run := Step(registry, context, boundary, tools, budget, env);
      var runs := RunsTool(registry, context, boundary, tools, budget, env);
      && (run.toolCalls != [] <==> runs)
      && (run.result.status.Continue? <==> runs && env.tool.Executed?)
      && (run.result.execution.Some? <==> runs && env.tool.Executed?)
      && (runs ==>
        && var bound := Bind(env.reply.decision, context.state);
        && run.toolCalls == [ToolCall(registry[(bound.tool.value, "1")], bound.args)]
        && run.result.decision == Some(bound) && run.result.response.None?)
      && (run.result.execution.Some? ==>
        && run.result.execution.value == Execution(Bind(env.reply.decision, context.state).tool.value, env.tool.data, env.tool.failed)
        && run.result.usage == env.reply.usage)
  {
    if Received(context, budget, env) {
      var decision := Bind(env.reply.decision, context.state);
      if decision.kind.CallTool? {
        ToolPathIs(registry, boundary, tools, decision, env.reply.usage, env);
      }
    }
  }

  // ---------------------------------------------------------------- every other ending of a step

  /** The one cause of each reason. */
  ghost predicate Due(reason: Reason, registry: Registry, context: RunContext, boundary: DecisionBoundary, tools: ToolContext,
                      budget: Option<int>, env: StepEnv)
  {
    match reason
    case CancelledReason =>
      env.cancelledAtStart || (Open(context, budget, env) && env.reply.Decided? && env.auditOk && env.cancelledAfterModel)
    case MaxStepsExceeded => !env.cancelledAtStart && context.stepCount >= 6
    case TokenBudgetExhausted => !env.cancelledAtStart && context.stepCount < 6 && budget.Some? && budget.value <= 0
    case DeadlineExceeded =>
      !env.cancelledAtStart && context.stepCount < 6 && (budget.Some? ==> budget.value > 0) && env.expired
    case ModelUnavailable => Open(context, budget, env) && env.reply.GatewayError? && env.auditOk
    case ModelAuditFailed =>
      && Open(context, budget, env)
      && (!env.auditOk || (AsksAgain(context, boundary, budget, env) && env.retry.Decided? && !env.retryAuditOk))
    case TracePersistenceFailed =>
      Open(context, budget, env) && env.reply.Decided? && env.auditOk && !env.cancelledAfterModel && !env.traceOk
    case ReadonlyWriteToolForbidden => AsksForWrite(registry, context, tools, budget, env)
    case ToolExecutionFailed =>
      RunsTool(registry, context, boundary, tools, budget, env) && env.tool.ExecutorRaised?
    case DecisionRejected =>
      && Received(context, budget, env)
      && !AsksForWrite(registry, context, tools, budget, env)
      && !RunsTool(registry, context, boundary, tools, budget, env)
      && !AnswersAtOnce(context, boundary, budget, env)
      && (AsksAgain(context, boundary, budget, env) ==>
            env.retry.GatewayError? || (env.retryAuditOk && !SafeAnswer(env.retry.decision, boundary)))
    case UnsupportedDecision => false
    case ReadonlyLoopNoProgress => false
  }

  /** The model asks for a tool that it is offered but that writes. */
  ghost predicate AsksForWrite(registry: Registry, context: RunContext, tools: ToolContext, budget: Option<int>, env: StepEnv) {
    && Received(context, budget, env) && env.reply.decision.kind.CallTool?
    && var name := env.reply.decision.tool.GetOr("");
    && Offered(registry, tools, name) && !registry[(name, "1")].risk.ReadOnly?
  }

  lemma EarlyReasons(registry: Registry, context: RunContext, boundary: DecisionBoundary, tools: ToolContext,
                     budget: Option<int>, env: StepEnv, reason: Reason)
    requires !Received(context, budget, env)
    ensures Step(registry, context, boundary, tools, budget, env).result.reason == Some(reason)
       <==> Due(reason, registry, context, boundary, tools, budget, env)
  {
  }

  lemma ToolReasons(registry: Registry, context: RunContext, boundary: DecisionBoundary, tools: ToolContext,
                    budget: Option<int>, env: StepEnv, reason: Reason)
    requires Received(context, budget, env) && env.reply.decision.kind.CallTool?
    ensures Step(registry, context, boundary, tools, budget, env).result.reason == Some(reason)
       <==> Due(reason, registry, context, boundary, tools, budget, env)
  {
    ToolPathIs(registry, boundary, tools, Bind(env.reply.decision, context.state), env.reply.usage, env);
  }

  lemma AnswerReasons(registry: Registry, context: RunContext, boundary: DecisionBoundary, tools: ToolContext,
                      budget: Option<int>, env: StepEnv, reason: Reason)
    requires Received(context, budget, env) && !env.reply.decision.kind.CallTool?
    ensures Step(registry, context, boundary, tools, budget, env).result.reason == Some(reason)
       <==> Due(reason, registry, context, boundary, tools, budget, env)
  {
    AnswerPathIs(boundary, env.reply.decision, env.reply.usage, env);
  }

  /** A step gives a reason exactly when that reason's cause is among its inputs; the last two are never given. */
  lemma ReasonsAreExact(registry: Registry, context: RunContext, boundary: DecisionBoundary, tools: ToolContext,
                        budget: Option<int>, env: StepEnv, reason: Reason)
    ensures Step(registry, context, boundary, tools, budget, env).result.reason == Some(reason)
       <==> Due(reason, registry, context, boundary, tools, budget, env)
  {
    if !Received(context, budget, env) {
      EarlyReasons(registry, context, boundary, tools, budget, env, reason);
    } else if env.reply.decision.kind.CallTool? {
      ToolReasons(registry, context, boundary, tools, budget, env, reason);
    } else {
      AnswerReasons(registry, context, boundary, tools, budget, env, reason);
    }
  }

  /** A step fails exactly for a reason other than a forbidden write, which goes to a human. */
  lemma ReasonsDecideFailure(registry: Registry, context: RunContext, boundary: DecisionBoundary, tools: ToolContext,
                             budget: Option<int>, env: StepEnv)
    ensures var result := Step(registry, context, boundary, tools, budget, env).result;
      && (result.status.Fail? <==> result.reason.Some? && result.reason != Some(ReadonlyWriteToolForbidden))
      && (result.reason == Some(ReadonlyWriteToolForbidden) ==> result.status.WaitHuman?)
      && (result.reason.Some? ==> result.response.None? && result.execution.None?)
  {
    ReasonsAreExact(registry, context, boundary, tools, budget, env, UnsupportedDecision);
    if Received(context, budget, env) && !env.reply.decision.kind.CallTool? {
      AnswerPathIs(boundary, env.reply.decision, env.reply.usage, env);
    }
  }

  // ---------------------------------------------------------------- what the stages are recorded as

  /** The answer path: validated, refused, or not looked at because the retry's audit failed; nothing is executed. */
  lemma AnswerStages(boundary: DecisionBoundary, decision: Decision, usage: Option<nat>, env: StepEnv)
    requires !decision.kind.CallTool?
    ensures var retried := CitesUntrusted(decision, boundary);
      var accepted := retried && env.retry.Decided? && env.retryAuditOk && SafeAnswer(env.retry.decision, boundary);
      AnswerPath(boundary, decision, usage, env).stages ==
        Records(if SafeAnswer(decision, boundary) || accepted then StageCompleted
                else if retried && env.retry.Decided? && !env.retryAuditOk then StageSkipped else StageFailed, StageSkipped)
  {
    AnswerIsSafe(decision, boundary);
    UntrustedIsCited(decision, boundary);
    RetryIsSafe(boundary, env);
  }

  lemma ToolStages(registry: Registry, boundary: DecisionBoundary, tools: ToolContext, decision: Decision, usage: Option<nat>, env: StepEnv)
    requires decision.kind.CallTool?
    ensures var run := ToolPath(registry, boundary, tools, decision, usage, env);
      run.stages == if run.toolCalls == [] then Records(StageFailed, StageSkipped)
                    else Records(StageCompleted, if env.tool.Executed? then StageCompleted else StageFailed)
  {
  }

  /** The outcome that each stage is recorded with, on the inputs; the observation is always completed. */
  lemma StagesAreExact(registry: Registry, context: RunContext, boundary: DecisionBoundary, tools: ToolContext,
                       budget: Option<int>, env: StepEnv)
    ensures var runs := RunsTool(registry, context, boundary, tools, budget, env);
      var unaudited := AsksAgain(context, boundary, budget, env) && env.retry.Decided? && !env.retryAuditOk;
      Step(registry, context, boundary, tools, budget, env).stages ==
        [StageRecord(RequestDecision, if !Open(context, budget, env) then StageSkipped
                                      else if env.reply.GatewayError? then StageFailed else StageCompleted)]
        + Records(if !Received(context, budget, env) || unaudited then StageSkipped
                  else if runs || AnswersAtOnce(context, boundary, budget, env) || AnswersAfterRetry(context, boundary, budget, env) then
                    StageCompleted
                  else StageFailed,
                  if !runs then StageSkipped else if env.tool.Executed? then StageCompleted else StageFailed)
  {
    if Received(context, budget, env) {
      var decision := Bind(env.reply.decision, context.state);
      AnswerIsSafe(env.reply.decision, boundary);
      if decision.kind.CallTool? {
        ToolStages(registry, boundary, tools, decision, env.reply.usage, env);
        ToolPathIs(registry, boundary, tools, decision, env.reply.usage, env);
      } else {
        AnswerStages(boundary, decision, env.reply.usage, env);
      }
    }
  }

  // ---------------------------------------------------------------- what the run's status becomes

  /** What each result of a readonly step makes of the run. */
  predicate StatusFits(status: RunStatus, result: LoopResult) {
    && (status.RunningReadonly? <==> result.status.Continue?)
    && (status.WaitingUser? <==> result.status.WaitUser?)
    && (status.Completed? <==> result.status.Complete?)
    && (status.WaitingHuman? <==>
         result.status.WaitHuman?
         || result.reason in {Some(MaxStepsExceeded), Some(TokenBudgetExhausted), Some(DeadlineExceeded)})
    && (status.Cancelled? <==> result.reason == Some(CancelledReason))
    && (status.Failed? <==>
         result.reason in {Some(ModelUnavailable), Some(ModelAuditFailed), Some(TracePersistenceFailed),
                           Some(DecisionRejected), Some(ToolExecutionFailed)})
  }

  /** An advance of a readonly run raises exactly when its inputs or its checkpoint do; otherwise the step decides the status. */
  lemma AdvanceIsExact(registry: Registry, context: RunContext, boundary: DecisionBoundary, budget: Option<int>, round: Round)
    requires context.status.RunningReadonly?
    ensures var advance := AdvanceOnce(registry, context, boundary, budget, round);
      var run := Step(registry, context, Widened(boundary, context.state), round.tools, budget, round.env);
      && (!round.inputsOk ==> advance == AdvanceRaised([]))
      && (round.inputsOk && !round.checkpointOk ==> advance == AdvanceRaised([run]))
      && (round.inputsOk && round.checkpointOk ==>
        && advance.Advanced? && advance.run == run
        && var result := run.result;
        && advance.context.stepCount == context.stepCount + 1
        && advance.context.state == ReducedState(context.state, result)
        && StatusFits(advance.context.status, result))
  {
    var widened := Widened(boundary, context.state);
    ReasonsDecideFailure(registry, context, widened, round.tools, budget, round.env);
    ReasonsAreExact(registry, context, widened, round.tools, budget, round.env, UnsupportedDecision);
    ReasonsAreExact(registry, context, widened, round.tools, budget, round.env, ReadonlyLoopNoProgress);
  }

  /** The trusted order id is the non-empty string at state["tool_data_by_name"]["get_order_status"]["order"]["order_id"]. */
  lemma TrustedOrderIdIs(state: Object, id: string)
    ensures TrustedOrderId(state) == Some(id) <==>
      && id != "" && "tool_data_by_name" in state && state["tool_data_by_name"].Obj?
      && var byTool := state["tool_data_by_name"].fields;
      && "get_order_status" in byTool && byTool["get_order_status"].Obj?
      && var lookup := byTool["get_order_status"].fields;
      && "order" in lookup && lookup["order"].Obj?
      && var order := lookup["order"].fields;
      && "order_id" in order && order["order_id"] == Str(id)
  {
  }

  /** A step trusts what the boundary trusts and the evidence that the run state names, and nothing else changes. */
  lemma EvidenceCarriesOver(boundary: DecisionBoundary, state: Object, id: string)
    ensures var widened := Widened(boundary, state);
      && (id in widened.trustedEvidenceIds <==>
            id in boundary.trustedEvidenceIds
            || ("evidence_ids" in state && state["evidence_ids"].Arr? && Str(id) in state["evidence_ids"].items))
      && widened == boundary.(trustedEvidenceIds := widened.trustedEvidenceIds)
  {
    if "evidence_ids" in state && state["evidence_ids"].Arr? && Str(id) in state["evidence_ids"].items {
      var i :| 0 <= i < |state["evidence_ids"].items| && state["evidence_ids"].items[i] == Str(id);
      assert state["evidence_ids"].items[i].Str?;
    }
  }

  predicate SameAt(a: Object, b: Object, name: string) {
    (name in a <==> name in b) && (name in a ==> a[name] == b[name])
  }

  /** The data that a step's execution leaves behind. */
  function Observed(result: LoopResult): Option<Value> {
    if result.execution.Some? && !result.execution.value.failed then result.execution.value.data else None
  }

  /** The evidence that observed data names: all its ids have to be strings. */
  ghost predicate NamesEvidence(data: Value) {
    && data.Obj? && "evidence_ids" in data.fields && data.fields["evidence_ids"].Arr?
    && forall item :: item in data.fields["evidence_ids"].items ==> item.Str?
  }

  /** Key by key, what a step's result leaves in the run state. */
  ghost predicate ReducedFrom(after: Object, before: Object, result: LoopResult) {
    var data := Observed(result);
    && "last_step_status" in after && after["last_step_status"] == Str(StatusText(result.status))
    && ("last_step_reason" in after <==> result.reason.Some?)
    && (result.reason.Some? ==> after["last_step_reason"] == Str(ReasonText(result.reason.value)))
    && (if data.Some? then
          && "last_tool_data" in after && after["last_tool_data"] == data.value
          && "tool_data_by_name" in after && after["tool_data_by_name"].Obj?
          && Remembers(after["tool_data_by_name"].fields, before, result.execution.value.tool, data.value)
        else
          SameAt(after, before, "last_tool_data") && SameAt(after, before, "tool_data_by_name"))
    && (if data.Some? && NamesEvidence(data.value) then
          "evidence_ids" in after && after["evidence_ids"] == data.value.fields["evidence_ids"]
        else
          SameAt(after, before, "evidence_ids"))
    && forall name :: name !in ReducedKeys ==> SameAt(after, before, name)
  }

  const ReducedKeys: set<string> :=
    {"last_step_status", "last_step_reason", "last_tool_data", "tool_data_by_name", "evidence_ids"}

  /** The accumulation per tool: this tool's data is the new one, every other tool's is kept. */
  ghost predicate Remembers(after: Object, before: Object, tool: string, data: Value) {
    && tool in after && after[tool] == data
    && forall name :: name != tool ==>
         if "tool_data_by_name" in before && before["tool_data_by_name"].Obj? then
           SameAt(after, before["tool_data_by_name"].fields, name)
         else name !in after
  }

  lemma ObservationIsReduced(state: Object, execution: Execution)
    ensures var after := WithObservation(state, execution);
      && SameAt(after, state, "last_step_status") && SameAt(after, state, "last_step_reason")
      && forall name :: name !in ReducedKeys ==> SameAt(after, state, name)
  {
  }

  lemma StateIsReduced(state: Object, result: LoopResult)
    ensures ReducedFrom(ReducedState(state, result), state, result)
  {
    if result.execution.Some? {
      var marked := state["last_step_status" := Str(StatusText(result.status))] - {"last_step_reason"};
      var explained := if result.reason.Some? then marked["last_step_reason" := Str(ReasonText(result.reason.value))] else marked;
      ObservationIsReduced(explained, result.execution.value);
    }
  }
}
