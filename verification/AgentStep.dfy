/**
 One bounded readonly agent step: the order of the model, validator, tool and stage effects
 (src/agent/loop.py:54-432, 567-644).
 */
module AgentStep {
  import opened Prelude
  import opened Json
  import opened AgentProtocol
  import opened DecisionValidation

  const MAX_STEPS := 6

  /** One model call: a decision with its reported usage, or a ModelGatewayError. */
  datatype ModelReply = Decided(decision: Decision, usage: Option<nat>) | GatewayError

  /** One tool execution that returned: its data, or an error result. */
  datatype Execution = Execution(tool: string, data: Option<Value>, failed: bool)

  datatype ToolReply = Executed(data: Option<Value>, failed: bool) | ExecutorRaised

  /** Everything the surroundings answer during one step, all arbitrary. */
  datatype StepEnv = StepEnv(cancelledAtStart: bool, expired: bool, reply: ModelReply, auditOk: bool,
                             cancelledAfterModel: bool, traceOk: bool, tool: ToolReply,
                             retry: ModelReply, retryAuditOk: bool)

  datatype Reason =
    | CancelledReason
    | MaxStepsExceeded
    | TokenBudgetExhausted
    | DeadlineExceeded
    | ModelUnavailable
    | ModelAuditFailed
    | TracePersistenceFailed
    | ReadonlyWriteToolForbidden
    | DecisionRejected
    | ToolExecutionFailed
    | UnsupportedDecision
    | ReadonlyLoopNoProgress

  datatype LoopResult = LoopResult(status: StepStatus, response: Option<string>, decision: Option<Decision>,
                                   execution: Option<Execution>, reason: Option<Reason>, usage: Option<nat>)

  datatype Stage = RequestDecision | ValidateStage | ExecuteStage | Observe
  datatype StageOutcome = StageCompleted | StageFailed | StageSkipped
  datatype StageRecord = StageRecord(stage: Stage, outcome: StageOutcome)

  datatype ToolCall = ToolCall(spec: ToolSpec, args: Object)

  /** The result of a step together with its effects. */
  datatype StepRun = StepRun(result: LoopResult, stages: seq<StageRecord>, modelCalls: nat, toolCalls: seq<ToolCall>)

  // ---------------------------------------------------------------- binding and results

  /** The trusted order id of an earlier order lookup, if the run state holds one. */
  function TrustedOrderId(state: Object): Option<string> {
    var byTool := GetObject(state, "tool_data_by_name");
    if byTool.None? then None
    else
      var orderData := GetObject(byTool.value, "get_order_status");
      if orderData.None? then None
      else
        var order := GetObject(orderData.value, "order");
        if order.None? then None
        else
          var id := GetOr(order.value, "order_id", Null);
          if id.Str? && id.s != "" then Some(id.s) else None
  }

  /** _bind_compound_delivery_order */
  function Bind(decision: Decision, state: Object): Decision {
    if !decision.kind.CallTool? || decision.tool != Some("get_delivery_tracking") then decision
    else
      var args := decision.args - {"tracking_id"};
      var id := TrustedOrderId(state);
      decision.(args := if "order_id" !in args && id.Some? then args["order_id" := Str(id.value)] else args)
  }

  predicate DeliveryLookup(decision: Decision) {
    decision.kind.CallTool? && decision.tool == Some("get_delivery_tracking")
  }

  /**
   What rebinding may do: nothing but a delivery lookup's arguments change; of those the tracking id goes, a
   missing order id comes from trusted state if it holds one, and everything the model chose otherwise stays.
   */
  ghost predicate ReboundFrom(bound: Decision, decision: Decision, state: Object) {
    && bound == decision.(args := bound.args)
    && (!DeliveryLookup(decision) ==> bound == decision)
    && (DeliveryLookup(decision) ==>
      && (forall name :: name in bound.args <==>
            name != "tracking_id"
            && (name in decision.args || (name == "order_id" && TrustedOrderId(state).Some?)))
      && (forall name :: name in bound.args && name in decision.args ==> bound.args[name] == decision.args[name])
      && ("order_id" in bound.args && "order_id" !in decision.args ==>
            bound.args["order_id"] == Str(TrustedOrderId(state).value)))
  }

  function Failure(decision: Option<Decision>, reason: Reason): LoopResult {
    LoopResult(Fail, None, decision, None, Some(reason), None)
  }

  function Records(validate: StageOutcome, execute: StageOutcome): seq<StageRecord> {
    [StageRecord(ValidateStage, validate), StageRecord(ExecuteStage, execute), StageRecord(Observe, StageCompleted)]
  }

  function Requested(outcome: StageOutcome): seq<StageRecord> {
    [StageRecord(RequestDecision, outcome)]
  }

  /** The step's answer for an accepted decision that is not a tool call. */
  function Answer(decision: Decision, usage: Option<nat>): LoopResult {
    match decision.kind
    case AskUser => LoopResult(WaitUser, decision.response, Some(decision), None, None, usage)
    case Handoff => LoopResult(WaitHuman, decision.response, Some(decision), None, None, usage)
    case Respond => LoopResult(Complete, decision.response, Some(decision), None, None, usage)
    case Finish => LoopResult(Complete, decision.response, Some(decision), None, None, usage)
    case CallTool => LoopResult(Fail, None, Some(decision), None, Some(UnsupportedDecision), usage)
  }

  // ---------------------------------------------------------------- specification of one step

  /** The gates before any model call. */
  function Gate(context: RunContext, budget: Option<int>, env: StepEnv): Option<Reason> {
    if env.cancelledAtStart then Some(CancelledReason)
    else if context.stepCount >= MAX_STEPS then Some(MaxStepsExceeded)
    else if budget.Some? && budget.value <= 0 then Some(TokenBudgetExhausted)
    else if env.expired then Some(DeadlineExceeded)
    else None
  }

  function ToolPath(registry: Registry, boundary: DecisionBoundary, tools: ToolContext, decision: Decision, usage: Option<nat>, env: StepEnv): StepRun {
    var rejected := StepRun(Failure(Some(decision), DecisionRejected), Records(StageFailed, StageSkipped), 0, []);
    var resolved := Resolve(registry, decision.tool.GetOr(""), "1", tools);
    if resolved.Err? then rejected
    else
      var spec := resolved.value;
      if !spec.risk.ReadOnly? then
        StepRun(LoopResult(WaitHuman, None, Some(decision), None, Some(ReadonlyWriteToolForbidden), usage),
                Records(StageFailed, StageSkipped), 0, [])
      else if Validate(decision, boundary, Some(spec)).Some? then rejected
      else
        match env.tool
        case ExecutorRaised =>
          StepRun(Failure(Some(decision), ToolExecutionFailed),
                  Records(StageCompleted, StageFailed), 0, [ToolCall(spec, decision.args)])
        case Executed(data, failed) =>
          StepRun(LoopResult(Continue, None, Some(decision), Some(Execution(spec.name, data, failed)), None, usage),
                  Records(StageCompleted, StageCompleted), 0, [ToolCall(spec, decision.args)])
  }

  function AnswerPath(boundary: DecisionBoundary, decision: Decision, usage: Option<nat>, env: StepEnv): StepRun {
    var rejected := Records(StageFailed, StageSkipped);
    var accepted := Records(StageCompleted, StageSkipped);
    var violation := Validate(decision, boundary, None);
    if violation.None? then
      StepRun(Answer(decision, usage), accepted, 0, [])
    else if violation.value != UntrustedEvidence then
      StepRun(Failure(Some(decision), DecisionRejected), rejected, 0, [])
    else if env.retry.GatewayError? then
      StepRun(Failure(Some(decision), DecisionRejected), rejected, 1, [])
    else if !env.retryAuditOk then
      StepRun(Failure(None, ModelAuditFailed), Records(StageSkipped, StageSkipped), 1, [])
    else if Validate(env.retry.decision, boundary, None).Some? then
      StepRun(Failure(Some(decision), DecisionRejected), rejected, 1, [])
    else
      StepRun(Answer(env.retry.decision, env.retry.usage), accepted, 1, [])
  }

  /** A step whose model call succeeded, given what happened after it. */
  function AfterModel(run: StepRun): StepRun {
    run.(stages := Requested(StageCompleted) + run.stages, modelCalls := 1 + run.modelCalls)
  }

  function Step(registry: Registry, context: RunContext, boundary: DecisionBoundary, tools: ToolContext, budget: Option<int>, env: StepEnv): StepRun {
    var gate := Gate(context, budget, env);
    if gate.Some? then
      StepRun(Failure(None, gate.value), Requested(StageSkipped) + Records(StageSkipped, StageSkipped), 0, [])
    else if env.reply.GatewayError? then
      StepRun(Failure(None, if env.auditOk then ModelUnavailable else ModelAuditFailed),
              Requested(StageFailed) + Records(StageSkipped, StageSkipped), 1, [])
    else
      AfterModel(ActOnReply(registry, context, boundary, tools, env))
  }

  /** From the audit of a successful model call on. */
  function ActOnReply(registry: Registry, context: RunContext, boundary: DecisionBoundary, tools: ToolContext, env: StepEnv): StepRun
    requires env.reply.Decided?
  {
    var skipped := Records(StageSkipped, StageSkipped);
    if !env.auditOk then StepRun(Failure(None, ModelAuditFailed), skipped, 0, [])
    else if env.cancelledAfterModel then StepRun(Failure(None, CancelledReason), skipped, 0, [])
    else if !env.traceOk then StepRun(Failure(None, TracePersistenceFailed), skipped, 0, [])
    else
      var decision := Bind(env.reply.decision, context.state);
      if decision.kind.CallTool? then ToolPath(registry, boundary, tools, decision, env.reply.usage, env)
      else AnswerPath(boundary, decision, env.reply.usage, env)
  }

  // ---------------------------------------------------------------- the step itself

  class AgentStepExecutor {
    const registry: Registry
    var stages: seq<StageRecord>
    var modelCalls: nat
    var toolCalls: seq<ToolCall>

    constructor (registry: Registry)
      ensures this.registry == registry && stages == [] && modelCalls == 0 && toolCalls == []
    {
      this.registry := registry;
      stages, modelCalls, toolCalls := [], 0, [];
    }

    method Record(stage: Stage, outcome: StageOutcome)
      modifies `stages
      ensures stages == old(stages) + [StageRecord(stage, outcome)]
    {
      stages := stages + [StageRecord(stage, outcome)];
    }

    method RecordRest(validate: StageOutcome, execute: StageOutcome)
      modifies `stages
      ensures stages == old(stages) + Records(validate, execute)
    {
      Record(ValidateStage, validate);
      Record(ExecuteStage, execute);
      Record(Observe, StageCompleted);
    }

    method Decide(reply: ModelReply) returns (r: ModelReply)
      modifies `modelCalls
      ensures r == reply && modelCalls == old(modelCalls) + 1
    {
      modelCalls := modelCalls + 1;
      return reply;
    }

    /** Rebinding step by step: drop the tracking id, then fill in a missing order id. */
    method BindDeliveryOrder(decision: Decision, state: Object) returns (r: Decision)
      ensures r == Bind(decision, state) && ReboundFrom(r, decision, state)
    {
      if !decision.kind.CallTool? || decision.tool != Some("get_delivery_tracking") {
        return decision;
      }
      var arguments := decision.args - {"tracking_id"};
      if "order_id" !in arguments {
        var orderId := TrustedOrderId(state);
        if orderId.Some? {
          arguments := arguments["order_id" := Str(orderId.value)];
        }
      }
      if arguments == decision.args {
        return decision;
      }
      return decision.(args := arguments);
    }

    /** The gates of lines 116-144; the result when one of them closes. */
    method CheckGates(context: RunContext, budget: Option<int>, env: StepEnv) returns (closed: Option<LoopResult>)
      modifies `stages
      ensures var gate := Gate(context, budget, env);
        && closed == (if gate.Some? then Some(Failure(None, gate.value)) else None)
        && stages == old(stages) + if gate.Some? then Requested(StageSkipped) + Records(StageSkipped, StageSkipped) else []
    {
      var reason: Reason;
      if env.cancelledAtStart {
        reason := CancelledReason;
      } else if context.stepCount >= 6 {
        reason := MaxStepsExceeded;
      } else if budget.Some? && budget.value <= 0 {
        reason := TokenBudgetExhausted;
      } else if env.expired {
        reason := DeadlineExceeded;
      } else {
        return None;
      }
      Record(RequestDecision, StageSkipped);
      RecordRest(StageSkipped, StageSkipped);
      return Some(Failure(None, reason));
    }

    method ExecuteStep(context: RunContext, boundary: DecisionBoundary, tools: ToolContext, budget: Option<int>, env: StepEnv)
      returns (result: LoopResult)
      modifies this
      ensures var run := Step(registry, context, boundary, tools, budget, env);
        && result == run.result
        && stages == old(stages) + run.stages
        && modelCalls == old(modelCalls) + run.modelCalls
        && toolCalls == old(toolCalls) + run.toolCalls
    {
      var closed := CheckGates(context, budget, env);
      if closed.Some? {
        return closed.value;
      }
      var reply := Decide(env.reply);
      if reply.GatewayError? {
        Record(RequestDecision, StageFailed);
        RecordRest(StageSkipped, StageSkipped);
        return Failure(None, if env.auditOk then ModelUnavailable else ModelAuditFailed);
      }
      Record(RequestDecision, StageCompleted);
      result := ActOn(context, boundary, tools, env);
    }

    /** Lines 186-432, after a successful model call. */
    method ActOn(context: RunContext, boundary: DecisionBoundary, tools: ToolContext, env: StepEnv) returns (result: LoopResult)
      requires env.reply.Decided?
      modifies this
      ensures var run := ActOnReply(registry, context, boundary, tools, env);
        && result == run.result
        && stages == old(stages) + run.stages
        && modelCalls == old(modelCalls) + run.modelCalls
        && toolCalls == old(toolCalls) + run.toolCalls
    {
      if !env.auditOk {
        RecordRest(StageSkipped, StageSkipped);
        return Failure(None, ModelAuditFailed);
      }
      var decision := BindDeliveryOrder(env.reply.decision, context.state);
      if env.cancelledAfterModel {
        RecordRest(StageSkipped, StageSkipped);
        return Failure(None, CancelledReason);
      }
      if !env.traceOk {
        RecordRest(StageSkipped, StageSkipped);
        return Failure(None, TracePersistenceFailed);
      }
      if decision.kind.CallTool? {
        result := CallToolWith(boundary, tools, decision, env.reply.usage, env);
      } else {
        result := AnswerWith(boundary, decision, env.reply.usage, env);
      }
    }

    /** Lines 230-326. */
    method CallToolWith(boundary: DecisionBoundary, tools: ToolContext, decision: Decision, usage: Option<nat>, env: StepEnv)
      returns (result: LoopResult)
      requires decision.kind.CallTool?
      modifies `stages, `toolCalls
      ensures var run := ToolPath(registry, boundary, tools, decision, usage, env);
        && result == run.result
        && stages == old(stages) + run.stages
        && toolCalls == old(toolCalls) + run.toolCalls
    {
      var resolved := Resolve(registry, if decision.tool.Some? then decision.tool.value else "", "1", tools);
      if resolved.Ok? && !resolved.value.risk.ReadOnly? {
        RecordRest(StageFailed, StageSkipped);
        return LoopResult(WaitHuman, None, Some(decision), None, Some(ReadonlyWriteToolForbidden), usage);
      }
      if resolved.Err? || Validate(decision, boundary, Some(resolved.value)).Some? {
        RecordRest(StageFailed, StageSkipped);
        return Failure(Some(decision), DecisionRejected);
      }
      Record(ValidateStage, StageCompleted);
      toolCalls := toolCalls + [ToolCall(resolved.value, decision.args)];
      if env.tool.ExecutorRaised? {
        Record(ExecuteStage, StageFailed);
        Record(Observe, StageCompleted);
        return Failure(Some(decision), ToolExecutionFailed);
      }
      Record(ExecuteStage, StageCompleted);
      Record(Observe, StageCompleted);
      return LoopResult(Continue, None, Some(decision), Some(Execution(resolved.value.name, env.tool.data, env.tool.failed)), None, usage);
    }

    /** Lines 327-432. */
    method AnswerWith(boundary: DecisionBoundary, first: Decision, firstUsage: Option<nat>, env: StepEnv)
      returns (result: LoopResult)
      modifies `stages, `modelCalls
      ensures var run := AnswerPath(boundary, first, firstUsage, env);
        && result == run.result
        && stages == old(stages) + run.stages
        && modelCalls == old(modelCalls) + run.modelCalls
    {
      var decision, usage := first, firstUsage;
      var error := Validate(decision, boundary, None);
      if error.Some? {
        if error.value != UntrustedEvidence {
          RecordRest(StageFailed, StageSkipped);
          return Failure(Some(decision), DecisionRejected);
        }
        var retry := Decide(env.retry);
        if retry.Decided? && !env.retryAuditOk {
          RecordRest(StageSkipped, StageSkipped);
          return Failure(None, ModelAuditFailed);
        }
        if retry.GatewayError? || Validate(retry.decision, boundary, None).Some? {
          RecordRest(StageFailed, StageSkipped);
          return Failure(Some(decision), DecisionRejected);
        }
        decision, usage := retry.decision, retry.usage;
      }
      RecordRest(StageCompleted, StageSkipped);
      match decision.kind {
        case AskUser => return LoopResult(WaitUser, decision.response, Some(decision), None, None, usage);
        case Handoff => return LoopResult(WaitHuman, decision.response, Some(decision), None, None, usage);
        case Respond => return LoopResult(Complete, decision.response, Some(decision), None, None, usage);
        case Finish => return LoopResult(Complete, decision.response, Some(decision), None, None, usage);
        case CallTool => return LoopResult(Fail, None, Some(decision), None, Some(UnsupportedDecision), usage);
      }
    }
  }
}
