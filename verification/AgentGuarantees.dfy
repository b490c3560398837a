/** What every readonly step, and every run of the bounded loop, guarantees. */
module AgentGuarantees {
  import opened Prelude
  import opened Json
  import opened Ordering
  import opened AgentProtocol
  import opened DecisionValidation
  import opened AgentStep
  import opened AgentLoop

  // ---------------------------------------------------------------- one step, every path

  /** The stage with this index of a step's records. */
  function OutcomeAt(run: StepRun, i: nat): StageOutcome
    requires i < |run.stages|
  {
    run.stages[i].outcome
  }

  /**
   Every path records request_decision, validate, execute and observe exactly once and in that order;
   `execute` is not skipped exactly when the executor was invoked, and completed exactly when the step
   goes on.
   */
  lemma StagesAreCompleteAndOrdered(registry: Registry, context: RunContext, boundary: DecisionBoundary, tools: ToolContext, budget: Option<int>, env: StepEnv)
    ensures var run := Step(registry, context, boundary, tools, budget, env);
      && |run.stages| == 4
      && run.stages[0].stage == RequestDecision && run.stages[1].stage == ValidateStage
      && run.stages[2].stage == ExecuteStage && run.stages[3] == StageRecord(Observe, StageCompleted)
      && (OutcomeAt(run, 0).StageSkipped? <==> run.modelCalls == 0)
      && (!OutcomeAt(run, 2).StageSkipped? <==> run.toolCalls != [])
      && (OutcomeAt(run, 2).StageCompleted? <==> run.result.status.Continue?)
      && (run.result.status.Continue? ==> OutcomeAt(run, 1).StageCompleted?)
  {
  }

  /**
   The executor is called at most once per step, only on a resolved READ_ONLY specification, and only with
   the rebound decision of the single model call, which is safe against the boundary in every respect.
   */
  lemma ToolCallsAreSafe(registry: Registry, context: RunContext, boundary: DecisionBoundary, tools: ToolContext, budget: Option<int>, env: StepEnv)
    requires WellFiled(registry)
    ensures var run := Step(registry, context, boundary, tools, budget, env);
      && |run.toolCalls| <= 1
      && (run.toolCalls != [] ==>
        && run.modelCalls == 1 && env.reply.Decided?
        && var spec := run.toolCalls[0].spec;
        && var decision := Bind(env.reply.decision, context.state);
        && run.toolCalls[0].args == decision.args
        && run.result.decision == Some(decision)
        && spec.risk.ReadOnly? && spec.modelVisible && spec.requiredScopes <= tools.scopes
        && (spec.name, "1") in registry && registry[(spec.name, "1")] == spec
        && SafeToolCall(decision, boundary, spec))
  {
    var run := Step(registry, context, boundary, tools, budget, env);
    if run.toolCalls != [] {
      ValidatorAcceptsExactlyTheSafe(Bind(env.reply.decision, context.state), boundary, Some(run.toolCalls[0].spec));
    }
  }

  /**
   A second model call never leads to a tool call or to another step, happens only after an answer that
   cites untrusted evidence, and the final "unsupported decision" is unreachable.
   */
  lemma RetriesOnlyAnswer(registry: Registry, context: RunContext, boundary: DecisionBoundary, tools: ToolContext, budget: Option<int>, env: StepEnv)
    ensures var run := Step(registry, context, boundary, tools, budget, env);
      && run.modelCalls <= 2
      && (run.modelCalls == 2 ==>
        && run.toolCalls == [] && !run.result.status.Continue?
        && env.reply.Decided? && !env.reply.decision.kind.CallTool?
        && Validate(env.reply.decision, boundary, None) == Some(UntrustedEvidence))
      && run.result.reason != Some(UnsupportedDecision)
      && (run.result.status.WaitUser? || run.result.status.Complete? ==>
        run.result.decision.Some? && SafeAnswer(run.result.decision.value, boundary))
  {
    var run := Step(registry, context, boundary, tools, budget, env);
    if env.reply.Decided? {
      ValidatorAcceptsExactlyTheSafe(env.reply.decision, boundary, None);
    }
    if env.retry.Decided? {
      ValidatorAcceptsExactlyTheSafe(env.retry.decision, boundary, None);
    }
  }

  /** Rebinding only touches delivery lookups, drops a copied tracking id, and never overrides an order id. */
  lemma BindingIsNarrow(decision: Decision, state: Object)
    ensures var bound := Bind(decision, state);
      && bound == decision.(args := bound.args)
      && (bound != decision ==> decision.kind.CallTool? && decision.tool == Some("get_delivery_tracking"))
      && (forall name :: name in bound.args && name != "order_id" ==> name in decision.args && bound.args[name] == decision.args[name])
      && ("order_id" in decision.args ==> "order_id" in bound.args && bound.args["order_id"] == decision.args["order_id"])
      && ("order_id" in bound.args && "order_id" !in decision.args ==>
        TrustedOrderId(state).Some? && bound.args["order_id"] == Str(TrustedOrderId(state).value))
      && Bind(bound, state) == bound
  {
    var bound := Bind(decision, state);
    if decision.kind.CallTool? && decision.tool == Some("get_delivery_tracking") {
      assert bound.args - {"tracking_id"} == bound.args;
    }
  }

  /** And that leaves rebinding no choice. */
  lemma RebindingIsDetermined(bound: Decision, decision: Decision, state: Object)
    ensures ReboundFrom(bound, decision, state) <==> bound == Bind(decision, state)
  {
    if ReboundFrom(bound, decision, state) && DeliveryLookup(decision) {
      assert bound.args == Bind(decision, state).args;
    }
  }

  // ---------------------------------------------------------------- signatures

  function ItemsOf(names: seq<string>, args: Object): seq<(string, Value)>
    requires forall i :: 0 <= i < |names| ==> names[i] in args
  {
    seq(|names|, i requires 0 <= i < |names| => (names[i], args[names[i]]))
  }

  ghost function SortedItems(args: Object): seq<(string, Value)> {
    ItemsOf(Sorted(args.Keys), args)
  }

  lemma ItemsIdentifyArguments(x: seq<string>, a: Object, y: seq<string>, b: Object)
    requires (forall i :: 0 <= i < |x| ==> x[i] in a) && (forall name :: name in a ==> name in x)
    requires (forall i :: 0 <= i < |y| ==> y[i] in b) && (forall name :: name in b ==> name in y)
    requires ItemsOf(x, a) == ItemsOf(y, b)
    ensures a == b
  {
    assert |x| == |ItemsOf(x, a)| == |ItemsOf(y, b)| == |y|;
    forall i | 0 <= i < |x| ensures x[i] == y[i] && a[x[i]] == b[y[i]] {
      assert ItemsOf(x, a)[i] == ItemsOf(y, b)[i];
    }
    assert x == y;
  }

  /** `tuple(sorted(args.items()))` identifies the arguments as a map, whatever order they came in. */
  lemma SortedItemsIdentifyArguments(a: Object, b: Object)
    ensures SortedItems(a) == SortedItems(b) <==> a == b
  {
    if SortedItems(a) == SortedItems(b) {
      ItemsIdentifyArguments(Sorted(a.Keys), a, Sorted(b.Keys), b);
    }
  }

  /** Any ascending listing of the argument names gives those items: there is only one such order. */
  lemma SortedItemsAreTheAscendingOnes(names: seq<string>, args: Object)
    requires Ascending(names) && forall name :: name in names <==> name in args
    ensures ItemsOf(names, args) == SortedItems(args)
  {
    AscendingIsUnique(names, Sorted(args.Keys));
  }

  // ---------------------------------------------------------------- the invariant of a run

  function Total(charges: seq<nat>): nat {
    if charges == [] then 0 else Total(charges[..|charges| - 1]) + charges[|charges| - 1]
  }

  function ChargesOf(w: LoopWorld, log: seq<StepRun>): seq<nat> {
    seq(|log|, i requires 0 <= i < |log| => ChargeOf(log[i].result, w.conservative))
  }

  /** What is left of budget `b` after these charges: max(0, b - total), untouched before the first. */
  function Remaining(b: Option<int>, charges: seq<nat>): Option<int> {
    if b.None? || charges == [] then b
    else if b.value - Total(charges) < 0 then Some(0)
    else Some(b.value - Total(charges))
  }

  predicate SameCall(a: ToolCall, b: ToolCall) {
    a.spec.name == b.spec.name && a.args == b.args
  }

  /** A step after which the loop may go on: one model call, one tool call, and that call is its signature. */
  predicate Productive(run: StepRun) {
    && run.result.status.Continue? && run.modelCalls == 1 && |run.toolCalls| == 1
    && run.result.decision.Some? && run.result.decision.value.kind.CallTool?
    && run.result.decision.value.tool == Some(run.toolCalls[0].spec.name)
    && run.result.decision.value.args == run.toolCalls[0].args
  }

  /** Any step at all. */
  predicate Modest(run: StepRun) {
    run.modelCalls <= 2 && |run.toolCalls| <= 1 && (run.modelCalls == 0 ==> run.toolCalls == [])
    && (run.toolCalls != [] ==> run.modelCalls == 1)
  }

  lemma StepIsModest(registry: Registry, context: RunContext, boundary: DecisionBoundary, tools: ToolContext, budget: Option<int>, env: StepEnv)
    requires WellFiled(registry)
    ensures var run := Step(registry, context, boundary, tools, budget, env);
      && Modest(run)
      && (run.result.status.Continue? ==> Productive(run))
      && (context.stepCount >= MAX_STEPS || (budget.Some? && budget.value <= 0) ==> run.modelCalls == 0)
  {
    ToolCallsAreSafe(registry, context, boundary, tools, budget, env);
    RetriesOnlyAnswer(registry, context, boundary, tools, budget, env);
  }

  ghost predicate AllProductive(log: seq<StepRun>) {
    forall i :: 0 <= i < |log| ==> Productive(log[i])
  }

  /** No two neighbouring steps made the same call. */
  ghost predicate NoRepeat(log: seq<StepRun>) {
    forall i :: 0 < i < |log| ==>
      log[i - 1].toolCalls != [] && log[i].toolCalls != [] ==> !SameCall(log[i - 1].toolCalls[0], log[i].toolCalls[0])
  }

  /** A model was called only while the charges so far were below the budget. */
  ghost predicate WithinBudget(w: LoopWorld, b: Option<int>, log: seq<StepRun>) {
    b.Some? ==> forall k :: 0 <= k < |log| && log[k].modelCalls > 0 ==> Total(ChargesOf(w, log[..k])) < b.value
  }

  ghost predicate Running(w: LoopWorld, start: nat, b: Option<int>, rs: RunState) {
    && rs.context.stepCount == start + |rs.log|
    && (rs.log != [] ==> start + |rs.log| <= MAX_STEPS)
    && AllProductive(rs.log)
    && NoRepeat(rs.log)
    && rs.budget == Remaining(b, ChargesOf(w, rs.log))
    && WithinBudget(w, b, rs.log)
    && rs.previous == (if rs.log == [] then None else SignatureOf(rs.log[|rs.log| - 1].result))
  }

  /** How a run can have ended: productive steps without repetition, then at most one more step of any kind. */
  ghost predicate WellEnded(w: LoopWorld, start: nat, b: Option<int>, log: seq<StepRun>) {
    && (log != [] ==>
      && AllProductive(log[..|log| - 1]) && NoRepeat(log[..|log| - 1]) && Modest(log[|log| - 1])
      && start + |log| <= MAX_STEPS + 1
      && (start + |log| > MAX_STEPS ==> log[|log| - 1].modelCalls == 0))
    && WithinBudget(w, b, log)
  }

  lemma ChargesSnoc(w: LoopWorld, log: seq<StepRun>, run: StepRun)
    ensures ChargesOf(w, log + [run]) == ChargesOf(w, log) + [ChargeOf(run.result, w.conservative)]
    ensures Total(ChargesOf(w, log + [run])) == Total(ChargesOf(w, log)) + ChargeOf(run.result, w.conservative)
  {
    var charges := ChargesOf(w, log);
    assert (charges + [ChargeOf(run.result, w.conservative)])[..|charges|] == charges;
  }

  lemma SpendFollowsTotal(w: LoopWorld, b: Option<int>, log: seq<StepRun>, run: StepRun)
    ensures Spend(Remaining(b, ChargesOf(w, log)), ChargeOf(run.result, w.conservative)) == Remaining(b, ChargesOf(w, log + [run]))
  {
    ChargesSnoc(w, log, run);
  }

  lemma BudgetSnoc(w: LoopWorld, b: Option<int>, log: seq<StepRun>, run: StepRun)
    requires WithinBudget(w, b, log)
    requires b.Some? && run.modelCalls > 0 ==> Remaining(b, ChargesOf(w, log)).value > 0
    ensures WithinBudget(w, b, log + [run])
  {
    var longer := log + [run];
    if b.Some? {
      forall k | 0 <= k < |longer| && longer[k].modelCalls > 0 ensures Total(ChargesOf(w, longer[..k])) < b.value {
        if k < |log| {
          assert longer[..k] == log[..k];
        } else {
          assert longer[..k] == log;
        }
      }
    }
  }

  lemma NoRepeatSnoc(log: seq<StepRun>, run: StepRun)
    requires AllProductive(log) && NoRepeat(log) && Productive(run)
    requires log != [] ==> SignatureOf(run.result) != SignatureOf(log[|log| - 1].result)
    ensures AllProductive(log + [run]) && NoRepeat(log + [run])
  {
    if log != [] && SameCall(log[|log| - 1].toolCalls[0], run.toolCalls[0]) {
      assert false;
    }
  }

  lemma RoundKeepsRunning(w: LoopWorld, start: nat, b: Option<int>, rs: RunState, run: StepRun, context: RunContext)
    requires Running(w, start, b, rs) && Productive(run) && rs.context.stepCount < MAX_STEPS
    requires context.stepCount == rs.context.stepCount + 1
    requires b.Some? ==> rs.budget.value > 0
    requires SignatureOf(run.result) != rs.previous
    ensures Running(w, start, b, RunState(context, rs.log + [run], Spend(rs.budget, ChargeOf(run.result, w.conservative)), SignatureOf(run.result)))
  {
    SpendFollowsTotal(w, b, rs.log, run);
    BudgetSnoc(w, b, rs.log, run);
    NoRepeatSnoc(rs.log, run);
  }

  lemma LastRoundEndsWell(w: LoopWorld, start: nat, b: Option<int>, rs: RunState, run: StepRun)
    requires Running(w, start, b, rs) && Modest(run) && start <= MAX_STEPS
    requires rs.context.stepCount >= MAX_STEPS ==> run.modelCalls == 0
    requires b.Some? && run.modelCalls > 0 ==> rs.budget.value > 0
    ensures WellEnded(w, start, b, rs.log + [run])
  {
    BudgetSnoc(w, b, rs.log, run);
    assert (rs.log + [run])[..|rs.log|] == rs.log;
  }

  lemma PauseEndsWell(w: LoopWorld, start: nat, b: Option<int>, rs: RunState)
    requires Running(w, start, b, rs) && start <= MAX_STEPS
    ensures WellEnded(w, start, b, rs.log)
  {
  }

  /** How a run has ended, and what it has left. */
  ghost predicate EndsWell(w: LoopWorld, start: nat, b: Option<int>, end: RunEnd) {
    && WellEnded(w, start, b, end.log)
    && (end.Stopped? ==> !end.context.status.RunningReadonly? && end.budget == Remaining(b, ChargesOf(w, end.log)))
  }

  lemma RaisedEndsWell(w: LoopWorld, start: nat, b: Option<int>, rs: RunState, effects: seq<StepRun>)
    requires start <= MAX_STEPS && Running(w, start, b, rs)
    requires |effects| <= 1 && (effects != [] ==> FitsState(rs, effects[0]))
    ensures EndsWell(w, start, b, RunRaised(rs.log + effects))
  {
    if effects == [] {
      assert rs.log + effects == rs.log;
      PauseEndsWell(w, start, b, rs);
    } else {
      LastRoundEndsWell(w, start, b, rs, effects[0]);
      assert effects == [effects[0]];
    }
  }

  /** One pass keeps the invariant, or ends the run well. */
  lemma RoundKeepsOrEnds(w: LoopWorld, start: nat, b: Option<int>, rs: RunState)
    requires WellFiled(w.registry) && start <= MAX_STEPS && Running(w, start, b, rs)
    ensures match RoundOf(w, rs)
      case Goes(next) => Running(w, start, b, next)
      case Ends(end) => EndsWell(w, start, b, end)
  {
    if !rs.context.status.RunningReadonly? {
      PauseEndsWell(w, start, b, rs);
    } else {
      var round := w.rounds(|rs.log|);
      var advance := AdvanceOnce(w.registry, rs.context, w.boundary, rs.budget, round);
      AdvanceIsAStep(w, rs);
      if advance.AdvanceRaised? {
        RaisedEndsWell(w, start, b, rs, advance.effects);
      } else {
        AdvancedKeepsOrEnds(w, start, b, rs, advance.context, advance.run);
      }
    }
  }

  lemma AdvancedKeepsOrEnds(w: LoopWorld, start: nat, b: Option<int>, rs: RunState, context: RunContext, run: StepRun)
    requires start <= MAX_STEPS && Running(w, start, b, rs) && rs.context.status.RunningReadonly?
    requires AdvanceOnce(w.registry, rs.context, w.boundary, rs.budget, w.rounds(|rs.log|)) == Advanced(context, run)
    requires FitsState(rs, run) && context.stepCount == rs.context.stepCount + 1
    requires context.status.RunningReadonly? ==> Productive(run) && SignatureOf(run.result).Some?
    ensures match RoundOf(w, rs)
      case Goes(next) => Running(w, start, b, next)
      case Ends(end) => EndsWell(w, start, b, end)
  {
    LastRoundEndsWell(w, start, b, rs, run);
    SpendFollowsTotal(w, b, rs.log, run);
    if RoundOf(w, rs).Goes? {
      RoundKeepsRunning(w, start, b, rs, run, context);
    }
  }

  lemma {:induction false} LoopEndsWell(w: LoopWorld, start: nat, b: Option<int>, rs: RunState)
    requires WellFiled(w.registry) && start <= MAX_STEPS && Running(w, start, b, rs)
    ensures EndsWell(w, start, b, Loop(w, rs))
    decreases if rs.context.stepCount <= MAX_STEPS then MAX_STEPS + 1 - rs.context.stepCount else 0
  {
    RoundKeepsOrEnds(w, start, b, rs);
    if RoundOf(w, rs).Goes? {
      LoopEndsWell(w, start, b, RoundOf(w, rs).next);
    }
  }

  /** What an advance, raising or not, can have done. */
  lemma AdvanceIsAStep(w: LoopWorld, rs: RunState)
    requires WellFiled(w.registry)
    ensures match AdvanceOnce(w.registry, rs.context, w.boundary, rs.budget, w.rounds(|rs.log|))
      case AdvanceRaised(effects) => |effects| <= 1 && (effects != [] ==> FitsState(rs, effects[0]))
      case Advanced(context, run) =>
        && FitsState(rs, run)
        && (context.status.RunningReadonly? ==> Productive(run) && SignatureOf(run.result).Some?)
        && context.stepCount == rs.context.stepCount + 1
  {
    var round := w.rounds(|rs.log|);
    StepIsModest(w.registry, rs.context, Widened(w.boundary, rs.context.state), round.tools, rs.budget, round.env);
  }

  predicate FitsState(rs: RunState, run: StepRun) {
    && Modest(run)
    && (rs.context.stepCount >= MAX_STEPS || (rs.budget.Some? && rs.budget.value <= 0) ==> run.modelCalls == 0)
  }

  // ---------------------------------------------------------------- the promises of a run

  lemma {:induction false} ProductiveCalls(log: seq<StepRun>)
    requires AllProductive(log)
    ensures |CallsIn(log)| == |log| && ModelCallsIn(log) == |log|
    decreases |log|
  {
    if log != [] {
      assert Productive(log[|log| - 1]);
      ProductiveCalls(log[..|log| - 1]);
    }
  }

  lemma {:induction false} ProductiveCallAt(log: seq<StepRun>, i: nat)
    requires AllProductive(log) && i < |log| && |CallsIn(log)| == |log|
    ensures CallsIn(log)[i] == log[i].toolCalls[0]
    decreases |log|
  {
    var earlier := log[..|log| - 1];
    ProductiveCalls(earlier);
    if i < |earlier| {
      assert earlier[i] == log[i];
      ProductiveCallAt(earlier, i);
    }
  }

  /** Counting the calls of a run that ended well. */
  lemma WellEndedCalls(w: LoopWorld, start: nat, b: Option<int>, log: seq<StepRun>)
    requires start <= MAX_STEPS && WellEnded(w, start, b, log)
    ensures ModelCallsIn(log) <= 2 * (MAX_STEPS - start)
    ensures ModelCallsIn(log) <= MAX_STEPS + 1 - start
    ensures |CallsIn(log)| <= MAX_STEPS - start
    ensures forall i :: 0 <= i && i + 2 < |CallsIn(log)| ==> !SameCall(CallsIn(log)[i], CallsIn(log)[i + 1])
  {
    if log != [] {
      var earlier := log[..|log| - 1];
      ProductiveCalls(earlier);
      forall i | 0 <= i && i + 2 < |CallsIn(log)| ensures !SameCall(CallsIn(log)[i], CallsIn(log)[i + 1]) {
        ProductiveCallAt(earlier, i);
        ProductiveCallAt(earlier, i + 1);
        assert CallsIn(log)[i] == earlier[i].toolCalls[0] && CallsIn(log)[i + 1] == earlier[i + 1].toolCalls[0];
        assert earlier[i + 1 - 1].toolCalls != [];
      }
    }
  }

  /**
   A readonly run started at step count s <= 6, with any model, tools, deadlines and cancellations, makes at
   most 7-s advances and one handoff, at most 7-s model calls (and 2(6-s)), at most 6-s tool executions; a
   tool call equal to the one before it is the last of the run; and it ends outside RUNNING_READONLY unless
   an advance or the handoff raised.
   */
  lemma RunsAreBounded(w: LoopWorld, context: RunContext, b: Option<int>)
    requires WellFiled(w.registry) && context.stepCount <= MAX_STEPS
    ensures var end, s := Loop(w, RunState(context, [], b, None)), context.stepCount;
      && |end.log| <= MAX_STEPS + 1 - s && |ResultsOf(end)| <= |end.log| + 1
      && ModelCallsIn(end.log) <= MAX_STEPS + 1 - s && ModelCallsIn(end.log) <= 2 * (MAX_STEPS - s)
      && |CallsIn(end.log)| <= MAX_STEPS - s
      && (forall i :: 0 <= i && i + 2 < |CallsIn(end.log)| ==> !SameCall(CallsIn(end.log)[i], CallsIn(end.log)[i + 1]))
      && (end.Stopped? ==> !end.context.status.RunningReadonly?)
  {
    LoopEndsWell(w, context.stepCount, b, RunState(context, [], b, None));
    WellEndedCalls(w, context.stepCount, b, Loop(w, RunState(context, [], b, None)).log);
  }

  lemma BudgetAt(w: LoopWorld, budget: int, log: seq<StepRun>, k: nat)
    requires WithinBudget(w, Some(budget), log) && k < |log| && log[k].modelCalls > 0
    ensures Total(ChargesOf(w, log[..k])) < budget
  {
  }

  /** No step calls a model once the charges of the steps before it have reached the budget. */
  lemma NoModelCallBeyondBudget(w: LoopWorld, context: RunContext, budget: int, log: seq<StepRun>, k: nat)
    requires WellFiled(w.registry) && context.stepCount <= MAX_STEPS
    requires log == Loop(w, RunState(context, [], Some(budget), None)).log
    requires k < |log| && log[k].modelCalls > 0
    ensures Total(ChargesOf(w, log[..k])) < budget
  {
    LoopEndsWell(w, context.stepCount, Some(budget), RunState(context, [], Some(budget), None));
    BudgetAt(w, budget, log, k);
  }

  lemma RemainingIs(budget: int, charges: seq<nat>)
    ensures Remaining(Some(budget), charges)
         == Some(if charges == [] then budget else if Total(charges) > budget then 0 else budget - Total(charges))
  {
  }

  /** When a run stops, clamping after every step has lost nothing: what is left is max(0, B - total charge). */
  lemma RemainingBudgetIsExact(w: LoopWorld, context: RunContext, budget: int, end: RunEnd)
    requires WellFiled(w.registry) && context.stepCount <= MAX_STEPS
    requires end == Loop(w, RunState(context, [], Some(budget), None)) && end.Stopped?
    ensures var total := Total(ChargesOf(w, end.log));
      end.budget == Some(if end.log == [] then budget else if total > budget then 0 else budget - total)
  {
    LoopEndsWell(w, context.stepCount, Some(budget), RunState(context, [], Some(budget), None));
    RemainingIs(budget, ChargesOf(w, end.log));
  }
}
