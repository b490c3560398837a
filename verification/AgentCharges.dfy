/** What a step is charged against what its model calls reported (src/agent/loop.py:327-432, 527-549). */
module AgentCharges {
  import opened Prelude
  import opened AgentProtocol
  import opened DecisionValidation
  import opened AgentStep
  import opened AgentLoop
  import opened AgentGuarantees

  // ---------------------------------------------------------------- conditions on the inputs of a step

  /** The step gets a decision to act on. */
  predicate Heard(context: RunContext, budget: Option<int>, env: StepEnv) {
    && Gate(context, budget, env).None?
    && env.reply.Decided? && env.auditOk && !env.cancelledAfterModel && env.traceOk
  }

  /** The guard of the retry: an answer that cites untrusted evidence. */
  predicate Retries(context: RunContext, boundary: DecisionBoundary, budget: Option<int>, env: StepEnv) {
    && Heard(context, budget, env)
    && !env.reply.decision.kind.CallTool?
    && Validate(env.reply.decision, boundary, None) == Some(UntrustedEvidence)
  }

  predicate RetryAccepted(boundary: DecisionBoundary, env: StepEnv) {
    env.retry.Decided? && env.retryAuditOk && Validate(env.retry.decision, boundary, None).None?
  }

  /** The branches that hand on a usage: a tool that ran, a write tool refused, an accepted answer. */
  predicate HandsOnUsage(registry: Registry, context: RunContext, boundary: DecisionBoundary, tools: ToolContext,
                         budget: Option<int>, env: StepEnv)
  {
    && Heard(context, budget, env)
    && var decision := Bind(env.reply.decision, context.state);
    if decision.kind.CallTool? then
      var spec := Resolve(registry, decision.tool.GetOr(""), "1", tools);
      spec.Ok? && (spec.value.risk.ReadOnly? ==> Validate(decision, boundary, Some(spec.value)).None? && env.tool.Executed?)
    else
      || Validate(decision, boundary, None).None?
      || (Retries(context, boundary, budget, env) && RetryAccepted(boundary, env))
  }

  /** What the model calls of the step report together, when each reports. */
  function ReportedTotal(context: RunContext, boundary: DecisionBoundary, budget: Option<int>, env: StepEnv): Option<nat> {
    if Gate(context, budget, env).Some? then Some(0)
    else if env.reply.GatewayError? || env.reply.usage.None? then None
    else if !Retries(context, boundary, budget, env) then env.reply.usage
    else if env.retry.GatewayError? || env.retry.usage.None? then None
    else Some(env.reply.usage.value + env.retry.usage.value)
  }

  // ---------------------------------------------------------------- one step

  /** The model is called a second time on exactly these inputs, and not at all exactly when a gate is closed. */
  lemma RetriesExactlyWhen(registry: Registry, context: RunContext, boundary: DecisionBoundary, tools: ToolContext,
                           budget: Option<int>, env: StepEnv)
    ensures var run := Step(registry, context, boundary, tools, budget, env);
      && (run.modelCalls == 2 <==> Retries(context, boundary, budget, env))
      && (run.modelCalls == 0 <==> Gate(context, budget, env).Some?)
      && run.modelCalls <= 2
  {
  }

  /** Every other branch, and a last call without a usage, is charged the conservative amount. */
  lemma ChargeIs(registry: Registry, context: RunContext, boundary: DecisionBoundary, tools: ToolContext,
                 budget: Option<int>, env: StepEnv, conservative: nat)
    ensures ChargeOf(Step(registry, context, boundary, tools, budget, env).result, conservative)
      == if !HandsOnUsage(registry, context, boundary, tools, budget, env) then conservative
         else if Retries(context, boundary, budget, env) then env.retry.usage.GetOr(conservative)
         else env.reply.usage.GetOr(conservative)
  {
    if env.retry.Decided? {
      ValidatorAcceptsExactlyTheSafe(env.retry.decision, boundary, None);
    }
  }

  /**
   A step whose model calls report `total` is charged `total` if and only if: on a branch that hands on a
   usage, there is no retry or the first call reported zero; on any other, the conservative charge happens
   to be the total.
   */
  lemma ChargeIsTheReportExactlyWhen(registry: Registry, context: RunContext, boundary: DecisionBoundary, tools: ToolContext,
                                     budget: Option<int>, env: StepEnv, conservative: nat, total: nat)
    requires ReportedTotal(context, boundary, budget, env) == Some(total)
    ensures ChargeOf(Step(registry, context, boundary, tools, budget, env).result, conservative) == total
       <==> if HandsOnUsage(registry, context, boundary, tools, budget, env) then
              (Retries(context, boundary, budget, env) ==> env.reply.usage == Some(0))
            else conservative == total
  {
    ChargeIs(registry, context, boundary, tools, budget, env, conservative);
  }

  const ANSWERS: DecisionBoundary := DecisionBoundary("support", {Respond}, {}, {}, {})

  function Reply(evidence: seq<string>): Decision {
    Decision(Respond, "support", None, map[], evidence, Some("answer"))
  }

  function TwoAnswers(first: nat, second: nat): StepEnv {
    StepEnv(false, false, Decided(Reply(["unknown"]), Some(first)), true, false, true, ExecutorRaised,
            Decided(Reply([]), Some(second)), true)
  }

  /** Two reported calls, the second of them charged: with any positive budget, also when the first call alone exceeds it. */
  lemma RetriedAnswerIsUndercharged(context: RunContext, tools: ToolContext, budget: int, first: nat, second: nat, conservative: nat)
    requires context.stepCount < MAX_STEPS && budget > 0
    ensures var run := Step(map[], context, ANSWERS, tools, Some(budget), TwoAnswers(first, second));
      && run.modelCalls == 2 && run.result.status.Complete?
      && ReportedTotal(context, ANSWERS, Some(budget), TwoAnswers(first, second)) == Some(first + second)
      && ChargeOf(run.result, conservative) == second
  {
    assert Reply(["unknown"]).evidenceIds[0] !in ANSWERS.trustedEvidenceIds;
  }

  function ForeignRoute(used: nat): StepEnv {
    StepEnv(false, false, Decided(Reply([]).(route := "elsewhere"), Some(used)), true, false, true, ExecutorRaised, GatewayError, true)
  }

  /** One reported call whose answer is rejected: charged the conservative amount, whatever was reported. */
  lemma RejectedAnswerIsChargedConservatively(context: RunContext, tools: ToolContext, budget: int, used: nat, conservative: nat)
    requires context.stepCount < MAX_STEPS && budget > 0
    ensures var run := Step(map[], context, ANSWERS, tools, Some(budget), ForeignRoute(used));
      && run.modelCalls == 1 && run.result.reason == Some(DecisionRejected)
      && ReportedTotal(context, ANSWERS, Some(budget), ForeignRoute(used)) == Some(used)
      && ChargeOf(run.result, conservative) == conservative
  {
  }

  // ---------------------------------------------------------------- the steps of a run

  /** The charge of this step is what its one model call reported, or the conservative amount if that call reported nothing. */
  predicate ChargedAsReported(w: LoopWorld, k: nat, run: StepRun) {
    && run.modelCalls == 1
    && w.rounds(k).env.reply.Decided?
    && run.result.usage == w.rounds(k).env.reply.usage
  }

  lemma ContinuingStepIsChargedAsReported(registry: Registry, context: RunContext, boundary: DecisionBoundary, tools: ToolContext,
                                          budget: Option<int>, env: StepEnv)
    ensures var run := Step(registry, context, boundary, tools, budget, env);
      run.result.status.Continue? ==> run.modelCalls == 1 && env.reply.Decided? && run.result.usage == env.reply.usage
  {
    RetriesOnlyAnswer(registry, context, boundary, tools, budget, env);
  }

  /** Only the last step of a run can be charged anything else. */
  lemma {:induction false} OnlyTheLastStepIsMischarged(w: LoopWorld, rs: RunState)
    requires forall k :: 0 <= k < |rs.log| ==> ChargedAsReported(w, k, rs.log[k])
    ensures var end := Loop(w, rs);
      && |rs.log| <= |end.log|
      && forall k :: 0 <= k < |end.log| - 1 ==> ChargedAsReported(w, k, end.log[k])
    decreases if rs.context.stepCount <= MAX_STEPS then MAX_STEPS + 1 - rs.context.stepCount else 0
  {
    if rs.context.status.RunningReadonly? {
      var round := w.rounds(|rs.log|);
      var advance := AdvanceOnce(w.registry, rs.context, w.boundary, rs.budget, round);
      if advance.Advanced? && advance.context.status.RunningReadonly? {
        var signature := SignatureOf(advance.run.result);
        ContinuingStepIsChargedAsReported(w.registry, rs.context, Widened(w.boundary, rs.context.state), round.tools, rs.budget, round.env);
        if !(signature.Some? && signature == rs.previous) {
          OnlyTheLastStepIsMischarged(w, RunState(advance.context, rs.log + [advance.run],
                                                  Spend(rs.budget, ChargeOf(advance.run.result, w.conservative)), signature));
        }
      }
    }
  }

  /** What the first k rounds' model calls reported, with the conservative amount where they did not. */
  function ReportedBefore(w: LoopWorld, k: nat): nat {
    if k == 0 then 0
    else
      var reply := w.rounds(k - 1).env.reply;
      ReportedBefore(w, k - 1) + if reply.Decided? then reply.usage.GetOr(w.conservative) else w.conservative
  }

  lemma {:induction false} ChargesAreReports(w: LoopWorld, log: seq<StepRun>, k: nat)
    requires k <= |log| && forall i :: 0 <= i < k ==> ChargedAsReported(w, i, log[i])
    ensures Total(ChargesOf(w, log[..k])) == ReportedBefore(w, k)
  {
    if k > 0 {
      ChargesAreReports(w, log, k - 1);
      assert log[..k] == log[..k - 1] + [log[k - 1]];
      ChargesSnoc(w, log[..k - 1], log[k - 1]);
    }
  }

  /** What the charges leave of the budget at the start of this pass. */
  ghost predicate HoldsRemainder(w: LoopWorld, b: Option<int>, rs: RunState) {
    rs.budget == Remaining(b, ChargesOf(w, rs.log))
  }

  /** Step k is the executor's step on the context and the budget that the loop holds in pass k. */
  predicate MadeAt(w: LoopWorld, rs: RunState, run: StepRun) {
    var round := w.rounds(|rs.log|);
    run == Step(w.registry, rs.context, Widened(w.boundary, rs.context.state), round.tools, rs.budget, round.env)
  }

  lemma RoundAddsItsStep(w: LoopWorld, rs: RunState)
    ensures match RoundOf(w, rs)
      case Goes(next) => |next.log| == |rs.log| + 1 && next.log[..|rs.log|] == rs.log && MadeAt(w, rs, next.log[|rs.log|])
      case Ends(end) =>
        && |rs.log| <= |end.log| <= |rs.log| + 1 && end.log[..|rs.log|] == rs.log
        && (|end.log| > |rs.log| ==> MadeAt(w, rs, end.log[|rs.log|]))
  {
    var advance := AdvanceOnce(w.registry, rs.context, w.boundary, rs.budget, w.rounds(|rs.log|));
    if rs.context.status.RunningReadonly? && advance.AdvanceRaised? && advance.effects == [] {
      assert rs.log + advance.effects == rs.log;
    }
  }

  lemma RoundKeepsRemainder(w: LoopWorld, b: Option<int>, rs: RunState)
    requires HoldsRemainder(w, b, rs) && RoundOf(w, rs).Goes?
    ensures HoldsRemainder(w, b, RoundOf(w, rs).next)
  {
    var run := AdvanceOnce(w.registry, rs.context, w.boundary, rs.budget, w.rounds(|rs.log|)).run;
    SpendFollowsTotal(w, b, rs.log, run);
  }

  /** Every pass adds at most its step to the log, and only the last may add none. */
  lemma {:induction false} PassesMakeTheLog(w: LoopWorld, rs: RunState)
    ensures var n, log := |StatesOf(w, rs)|, Loop(w, rs).log;
      |rs.log| + n - 1 <= |log| <= |rs.log| + n && log[..|rs.log|] == rs.log
    decreases if rs.context.stepCount <= MAX_STEPS then MAX_STEPS + 1 - rs.context.stepCount else 0
  {
    RoundAddsItsStep(w, rs);
    if RoundOf(w, rs).Goes? {
      var next, log := RoundOf(w, rs).next, Loop(w, rs).log;
      PassesMakeTheLog(w, next);
      assert log[..|next.log|][..|rs.log|] == log[..|rs.log|];
    }
  }

  /** This state starts a pass with the first steps of the log and adds the next, made on what it holds. */
  predicate MakesNext(w: LoopWorld, state: RunState, log: seq<StepRun>) {
    && |state.log| <= |log| && state.log == log[..|state.log|]
    && (|state.log| < |log| ==> MadeAt(w, state, log[|state.log|]))
  }

  lemma PassMakesNext(w: LoopWorld, rs: RunState)
    ensures MakesNext(w, rs, Loop(w, rs).log)
  {
    RoundAddsItsStep(w, rs);
    PassesMakeTheLog(w, rs);
    if RoundOf(w, rs).Goes? {
      var next, log := RoundOf(w, rs).next, Loop(w, rs).log;
      PassesMakeTheLog(w, next);
      assert log[..|next.log|][|rs.log|] == log[|rs.log|];
    }
  }

  /** Each of these states is the one that the pass before it leads to. */
  ghost predicate Chained(w: LoopWorld, states: seq<RunState>) {
    forall i :: 0 <= i < |states| - 1 ==> RoundOf(w, states[i]) == Goes(states[i + 1])
  }

  lemma {:induction false} StatesAreChained(w: LoopWorld, rs: RunState)
    ensures Chained(w, StatesOf(w, rs))
    decreases if rs.context.stepCount <= MAX_STEPS then MAX_STEPS + 1 - rs.context.stepCount else 0
  {
    if RoundOf(w, rs).Goes? {
      StatesAreChained(w, RoundOf(w, rs).next);
    }
  }

  lemma GoesOnTo(w: LoopWorld, rs: RunState, next: RunState)
    requires RoundOf(w, rs) == Goes(next)
    ensures Loop(w, rs) == Loop(w, next) && |next.log| == |rs.log| + 1
  {
  }

  /** From every pass the run goes on to the same end. */
  lemma {:induction false} PassesReachTheEnd(w: LoopWorld, states: seq<RunState>, k: nat)
    requires Chained(w, states) && k < |states|
    ensures Loop(w, states[k]) == Loop(w, states[0]) && |states[k].log| == |states[0].log| + k
  {
    if k > 0 {
      PassesReachTheEnd(w, states, k - 1);
      GoesOnTo(w, states[k - 1], states[k]);
    }
  }

  lemma {:induction false} PassesHoldTheRemainder(w: LoopWorld, b: Option<int>, states: seq<RunState>, k: nat)
    requires Chained(w, states) && k < |states| && HoldsRemainder(w, b, states[0])
    ensures HoldsRemainder(w, b, states[k])
  {
    if k > 0 {
      PassesHoldTheRemainder(w, b, states, k - 1);
      assert RoundOf(w, states[k - 1]) == Goes(states[k - 1 + 1]);
      RoundKeepsRemainder(w, b, states[k - 1]);
    }
  }

  /** Every step is given the budget that the charges of the steps before it leave. */
  lemma StepsAreGivenTheRemainder(w: LoopWorld, context: RunContext, b: Option<int>, k: nat)
    requires k < |Loop(w, RunState(context, [], b, None)).log|
    ensures var start := RunState(context, [], b, None);
      var states, log := StatesOf(w, start), Loop(w, start).log;
      && k < |states| && states[k].log == log[..k]
      && MadeAt(w, states[k], log[k])
      && states[k].budget == Remaining(b, ChargesOf(w, log[..k]))
  {
    var start := RunState(context, [], b, None);
    var states := StatesOf(w, start);
    PassesMakeTheLog(w, start);
    StatesAreChained(w, start);
    PassesHoldTheRemainder(w, b, states, k);
    PassesReachTheEnd(w, states, k);
    PassMakesNext(w, states[k]);
  }

  /**
   So step k of a run is the executor's step on exactly this budget: all of B for the first, and then
   max(0, B - what the earlier model calls reported), with the conservative amount where they did not.
   */
  lemma StepsAreGivenExactBudgets(w: LoopWorld, context: RunContext, budget: int, k: nat)
    requires k < |Loop(w, RunState(context, [], Some(budget), None)).log|
    ensures var start := RunState(context, [], Some(budget), None);
      var states, log := StatesOf(w, start), Loop(w, start).log;
      && k < |states| && |states[k].log| == k
      && MadeAt(w, states[k], log[k])
      && states[k].budget
        == Some(if k == 0 then budget else if ReportedBefore(w, k) > budget then 0 else budget - ReportedBefore(w, k))
  {
    var start := RunState(context, [], Some(budget), None);
    var log := Loop(w, start).log;
    StepsAreGivenTheRemainder(w, context, Some(budget), k);
    OnlyTheLastStepIsMischarged(w, start);
    ChargesAreReports(w, log, k);
    RemainingIs(budget, ChargesOf(w, log[..k]));
  }

  /** So a model is called only while what the earlier calls of the run reported is below the budget. */
  lemma BudgetBoundsReports(w: LoopWorld, context: RunContext, budget: int, log: seq<StepRun>, k: nat)
    requires WellFiled(w.registry) && context.stepCount <= MAX_STEPS
    requires log == Loop(w, RunState(context, [], Some(budget), None)).log
    requires k < |log| && log[k].modelCalls > 0
    ensures ReportedBefore(w, k) < budget
  {
    NoModelCallBeyondBudget(w, context, budget, log, k);
    OnlyTheLastStepIsMischarged(w, RunState(context, [], Some(budget), None));
    ChargesAreReports(w, log, k);
  }
}
