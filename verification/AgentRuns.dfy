/**
 Why every run of the bounded readonly loop ends where it ends, read off its log
 (src/agent/loop.py:530-564).
 */
module AgentRuns {
  import opened Prelude
  import opened Json
  import opened AgentProtocol
  import opened AgentStep
  import opened AgentLoop
  import opened AgentGuarantees
  import opened AgentOutcomes

  /** The run state after these steps: each one's result is reduced into it in turn. */
  function StateAfter(state: Object, log: seq<StepRun>): Object {
    if log == [] then state else ReducedState(StateAfter(state, log[..|log| - 1]), log[|log| - 1].result)
  }

  /** The step that round k leads to. */
  function StepIn(w: LoopWorld, k: nat, context: RunContext, budget: Option<int>): StepRun {
    Step(w.registry, context, Widened(w.boundary, context.state), w.rounds(k).tools, budget, w.rounds(k).env)
  }

  /** The run after these steps, while it is readonly: each has counted once and left its state. */
  function ContextAfter(context: RunContext, log: seq<StepRun>): RunContext {
    RunContext(RunningReadonly, StateAfter(context.state, log), context.stepCount + |log|)
  }

  /** This is the step of round k, made on this context and budget. */
  ghost predicate MadeOn(w: LoopWorld, run: StepRun, k: nat, context: RunContext, budget: Option<int>) {
    run == StepIn(w, k, context, budget)
  }

  /** The next step, given the steps before it: the run's state, count and budget are what they left. */
  ghost predicate StepAfter(w: LoopWorld, context: RunContext, b: Option<int>, log: seq<StepRun>, run: StepRun) {
    MadeOn(w, run, |log|, ContextAfter(context, log), Remaining(b, ChargesOf(w, log)))
  }

  /** Steps k - 1 and k both went on, with the same tool and the same arguments. */
  predicate RepeatsAt(log: seq<StepRun>, k: nat) {
    && 0 < k < |log|
    && log[k - 1].result.status.Continue? && log[k].result.status.Continue?
    && log[k - 1].result.decision.Some? && log[k].result.decision.Some?
    && log[k - 1].result.decision.value.tool == log[k].result.decision.value.tool
    && log[k - 1].result.decision.value.args == log[k].result.decision.value.args
  }

  /** Every logged step was made on what the ones before it left. */
  ghost predicate Traced(w: LoopWorld, context: RunContext, b: Option<int>, log: seq<StepRun>) {
    forall k {:trigger StepAfter(w, context, b, log[..k], log[k])} :: 0 <= k < |log| ==>
      StepAfter(w, context, b, log[..k], log[k]) && w.rounds(k).inputsOk
  }

  /** These first steps were persisted, went on, and none repeated the one before it. */
  ghost predicate WentOn(w: LoopWorld, log: seq<StepRun>, n: nat) {
    forall k :: 0 <= k < n && k < |log| ==>
      w.rounds(k).checkpointOk && log[k].result.status.Continue? && !RepeatsAt(log, k)
  }

  /**
   Where a run started at step count s and left in this state ends: it stops at the first step that does not go on or that
   repeats the one before it, and raises only where something did.
   */
  ghost predicate EndsAt(w: LoopWorld, s: nat, end: RunEnd, state: Object) {
    var log := end.log;
    var last := |log| - 1;
    && (log != [] ==> WentOn(w, log, last))
    && match end
       case Stopped(final, _, _, handedOff) =>
         && log != [] && w.rounds(last).checkpointOk
         && (handedOff <==> RepeatsAt(log, last))
         && (handedOff ==> w.handoffOk)
         && (handedOff ==>
              final == RunContext(WaitingHuman, state["last_step_reason" := Str("readonly_loop_no_progress")], s + |log| + 1))
         && (!handedOff ==>
              && !log[last].result.status.Continue? && StatusFits(final.status, log[last].result)
              && final == RunContext(final.status, state, s + |log|))
       case RunRaised(_) =>
         || (log != [] && !w.rounds(last).checkpointOk)
         || (log != [] && RepeatsAt(log, last) && !w.handoffOk)
         || (!w.rounds(|log|).inputsOk && WentOn(w, log, |log|))
  }

  /** Every step was made on what the ones before it left, and the run ended for its reason. */
  ghost predicate Explained(w: LoopWorld, context: RunContext, b: Option<int>, end: RunEnd) {
    Traced(w, context, b, end.log) && EndsAt(w, context.stepCount, end, StateAfter(context.state, end.log))
  }

  /** The loop's variables between two rounds. */
  ghost predicate Underway(w: LoopWorld, context: RunContext, b: Option<int>, rs: RunState) {
    && Running(w, context.stepCount, b, rs)
    && rs.context == ContextAfter(context, rs.log)
    && Traced(w, context, b, rs.log)
    && WentOn(w, rs.log, |rs.log|)
  }

  lemma TracedSnoc(w: LoopWorld, context: RunContext, b: Option<int>, log: seq<StepRun>, run: StepRun)
    requires Traced(w, context, b, log) && StepAfter(w, context, b, log, run) && w.rounds(|log|).inputsOk
    ensures Traced(w, context, b, log + [run])
  {
    var longer := log + [run];
    forall k | 0 <= k < |longer| ensures StepAfter(w, context, b, longer[..k], longer[k]) && w.rounds(k).inputsOk {
      if k < |log| {
        assert longer[..k] == log[..k] && longer[k] == log[k];
        assert StepAfter(w, context, b, log[..k], log[k]);
      } else {
        assert longer[..k] == log;
      }
    }
  }

  lemma WentOnSnoc(w: LoopWorld, log: seq<StepRun>, run: StepRun)
    requires WentOn(w, log, |log|)
    ensures WentOn(w, log + [run], |log|)
    ensures (w.rounds(|log|).checkpointOk && run.result.status.Continue? && !RepeatsAt(log + [run], |log|) ==>
              WentOn(w, log + [run], |log| + 1))
  {
    var longer := log + [run];
    forall k | 0 <= k < |log| ensures !RepeatsAt(longer, k) && longer[k] == log[k] {
      assert !RepeatsAt(log, k);
    }
  }

  lemma StateSnoc(state: Object, log: seq<StepRun>, run: StepRun)
    ensures StateAfter(state, log + [run]) == ReducedState(StateAfter(state, log), run.result)
  {
    assert (log + [run])[..|log|] == log;
  }

  /** What the loop compares is whether the new step repeats the one before it. */
  lemma SignaturesShowRepeats(w: LoopWorld, start: nat, b: Option<int>, rs: RunState, run: StepRun)
    requires Running(w, start, b, rs) && Productive(run)
    ensures SignatureOf(run.result) == rs.previous <==> RepeatsAt(rs.log + [run], |rs.log|)
  {
    if rs.log != [] {
      assert Productive(rs.log[|rs.log| - 1]);
    }
  }

  /** A step made with the loop's variables is the one that the steps before it lead to. */
  lemma StepContinues(w: LoopWorld, context: RunContext, b: Option<int>, rs: RunState, run: StepRun)
    requires MadeOn(w, run, |rs.log|, rs.context, rs.budget)
    requires rs.context == ContextAfter(context, rs.log) && rs.budget == Remaining(b, ChargesOf(w, rs.log))
    ensures StepAfter(w, context, b, rs.log, run)
  {
  }

  /** One round either keeps the run underway or ends it as explained. */
  ghost predicate RoundExplained(w: LoopWorld, context: RunContext, b: Option<int>, round: RoundEnd) {
    match round
    case Goes(next) => Underway(w, context, b, next)
    case Ends(end) => Explained(w, context, b, end)
  }

  /** A round whose prompt or inputs raise makes no step. */
  lemma RefusedRound(w: LoopWorld, context: RunContext, b: Option<int>, rs: RunState)
    requires Underway(w, context, b, rs) && !w.rounds(|rs.log|).inputsOk
    ensures Explained(w, context, b, RunRaised(rs.log))
  {
  }

  /** A round whose checkpoint raises has made its step. */
  lemma UnsavedRound(w: LoopWorld, context: RunContext, b: Option<int>, rs: RunState, run: StepRun)
    requires Underway(w, context, b, rs) && StepAfter(w, context, b, rs.log, run)
    requires w.rounds(|rs.log|).inputsOk && !w.rounds(|rs.log|).checkpointOk
    ensures Explained(w, context, b, RunRaised(rs.log + [run]))
  {
    TracedSnoc(w, context, b, rs.log, run);
    WentOnSnoc(w, rs.log, run);
  }

  /** A step that was persisted and does not go on ends the run. */
  lemma LastRound(w: LoopWorld, s: nat, log: seq<StepRun>, status: RunStatus, budget: Option<int>, state: Object)
    requires log != [] && WentOn(w, log, |log| - 1) && w.rounds(|log| - 1).checkpointOk
    requires !log[|log| - 1].result.status.Continue? && StatusFits(status, log[|log| - 1].result)
    ensures EndsAt(w, s, Stopped(RunContext(status, state, s + |log|), log, budget, false), state)
  {
  }

  /** A persisted step that repeats the one before it ends the run as well, by a handoff unless that raises. */
  lemma RepeatedRound(w: LoopWorld, s: nat, log: seq<StepRun>, status: RunStatus, budget: Option<int>, state: Object)
    requires log != [] && WentOn(w, log, |log| - 1) && w.rounds(|log| - 1).checkpointOk
    requires RepeatsAt(log, |log| - 1)
    ensures w.handoffOk ==> EndsAt(w, s, Stopped(HandedOff(RunContext(status, state, s + |log|)), log, budget, true), state)
    ensures !w.handoffOk ==> EndsAt(w, s, RunRaised(log), state)
  {
  }

  /** How one round ends, given its step and the status that the step leads to. */
  ghost predicate RoundIs(w: LoopWorld, rs: RunState, run: StepRun, status: RunStatus, round: RoundEnd) {
    var log, budget := rs.log + [run], Spend(rs.budget, ChargeOf(run.result, w.conservative));
    var current := RunContext(status, ReducedState(rs.context.state, run.result), rs.context.stepCount + 1);
    if !w.rounds(|rs.log|).inputsOk then round == Ends(RunRaised(rs.log))
    else if !w.rounds(|rs.log|).checkpointOk then round == Ends(RunRaised(log))
    else if !status.RunningReadonly? then round == Ends(Stopped(current, log, budget, false))
    else if SignatureOf(run.result).Some? && SignatureOf(run.result) == rs.previous then
      round == Ends(if w.handoffOk then Stopped(HandedOff(current), log, budget, true) else RunRaised(log))
    else round == Goes(RunState(current, log, budget, SignatureOf(run.result)))
  }

  lemma RoundFromStep(w: LoopWorld, rs: RunState, run: StepRun)
    requires rs.context.status.RunningReadonly? && MadeOn(w, run, |rs.log|, rs.context, rs.budget)
    ensures StatusFits(TargetStatus(run.result), run.result)
    ensures RoundIs(w, rs, run, TargetStatus(run.result), RoundOf(w, rs))
  {
    AdvanceIsExact(w.registry, rs.context, w.boundary, rs.budget, w.rounds(|rs.log|).(inputsOk := true, checkpointOk := true));
    assert rs.log + [] == rs.log;
  }

  lemma GoingOnIsProductive(w: LoopWorld, rs: RunState, run: StepRun)
    requires WellFiled(w.registry) && MadeOn(w, run, |rs.log|, rs.context, rs.budget)
    ensures run.result.status.Continue? ==> Productive(run)
  {
    StepIsModest(w.registry, rs.context, Widened(w.boundary, rs.context.state), w.rounds(|rs.log|).tools, rs.budget, w.rounds(|rs.log|).env);
  }

  lemma PersistedRound(w: LoopWorld, context: RunContext, b: Option<int>, rs: RunState, run: StepRun, status: RunStatus, round: RoundEnd)
    requires Underway(w, context, b, rs) && StepAfter(w, context, b, rs.log, run)
    requires w.rounds(|rs.log|).inputsOk && w.rounds(|rs.log|).checkpointOk
    requires StatusFits(status, run.result) && RoundIs(w, rs, run, status, round)
    requires run.result.status.Continue? ==> Productive(run)
    requires round.Goes? ==> Running(w, context.stepCount, b, round.next)
    ensures RoundExplained(w, context, b, round)
  {
    var log, budget := rs.log + [run], Spend(rs.budget, ChargeOf(run.result, w.conservative));
    TracedSnoc(w, context, b, rs.log, run);
    WentOnSnoc(w, rs.log, run);
    StateSnoc(context.state, rs.log, run);
    if !run.result.status.Continue? {
      LastRound(w, context.stepCount, log, status, budget, StateAfter(context.state, log));
    } else {
      SignaturesShowRepeats(w, context.stepCount, b, rs, run);
      if round.Ends? {
        RepeatedRound(w, context.stepCount, log, status, budget, StateAfter(context.state, log));
      }
    }
  }

  lemma StepIsExplained(w: LoopWorld, context: RunContext, b: Option<int>, rs: RunState, run: StepRun, status: RunStatus, round: RoundEnd)
    requires Underway(w, context, b, rs) && MadeOn(w, run, |rs.log|, rs.context, rs.budget)
    requires StatusFits(status, run.result) && RoundIs(w, rs, run, status, round)
    requires run.result.status.Continue? ==> Productive(run)
    requires round.Goes? ==> Running(w, context.stepCount, b, round.next)
    ensures RoundExplained(w, context, b, round)
  {
    StepContinues(w, context, b, rs, run);
    if !w.rounds(|rs.log|).inputsOk {
      RefusedRound(w, context, b, rs);
    } else if !w.rounds(|rs.log|).checkpointOk {
      UnsavedRound(w, context, b, rs, run);
    } else {
      PersistedRound(w, context, b, rs, run, status, round);
    }
  }

  lemma RoundIsExplained(w: LoopWorld, context: RunContext, b: Option<int>, rs: RunState)
    requires WellFiled(w.registry) && context.stepCount <= MAX_STEPS && Underway(w, context, b, rs)
    ensures RoundExplained(w, context, b, RoundOf(w, rs))
  {
    var run := StepIn(w, |rs.log|, rs.context, rs.budget);
    RoundFromStep(w, rs, run);
    GoingOnIsProductive(w, rs, run);
    RoundKeepsOrEnds(w, context.stepCount, b, rs);
    StepIsExplained(w, context, b, rs, run, TargetStatus(run.result), RoundOf(w, rs));
  }

  lemma {:induction false} LoopIsExplained(w: LoopWorld, context: RunContext, b: Option<int>, rs: RunState)
    requires WellFiled(w.registry) && context.stepCount <= MAX_STEPS && Underway(w, context, b, rs)
    ensures Explained(w, context, b, Loop(w, rs))
    decreases if rs.context.stepCount <= MAX_STEPS then MAX_STEPS + 1 - rs.context.stepCount else 0
  {
    RoundIsExplained(w, context, b, rs);
    if RoundOf(w, rs).Goes? {
      LoopIsExplained(w, context, b, RoundOf(w, rs).next);
    }
  }

  /**
   Every readonly run: each step was made on what the earlier ones left; all but the last went on without repetition;
   and the run ended by a handoff for no progress exactly when its last two steps repeated the same call.
   */
  lemma RunsEndForTheirReason(w: LoopWorld, context: RunContext, b: Option<int>)
    requires WellFiled(w.registry) && context.status.RunningReadonly? && context.stepCount <= MAX_STEPS
    ensures Explained(w, context, b, Loop(w, RunState(context, [], b, None)))
  {
    LoopIsExplained(w, context, b, RunState(context, [], b, None));
  }

  /** A run whose last step went on with a call of its own does not stop there: something raised. */
  lemma NewCallsGoOn(w: LoopWorld, context: RunContext, b: Option<int>, log: seq<StepRun>)
    requires WellFiled(w.registry) && context.status.RunningReadonly? && context.stepCount <= MAX_STEPS
    requires var end := Loop(w, RunState(context, [], b, None)); end.log == log
    requires log == [] || (log[|log| - 1].result.status.Continue? && !RepeatsAt(log, |log| - 1))
    ensures var end := Loop(w, RunState(context, [], b, None));
      && end.RunRaised?
      && ((log != [] && !w.rounds(|log| - 1).checkpointOk) || !w.rounds(|log|).inputsOk)
  {
    RunsEndForTheirReason(w, context, b);
  }

  /** The results handed back are those of the logged steps, and after a repetition one more that asks for a human. */
  lemma ResultsAreTheSteps(w: LoopWorld, context: RunContext, b: Option<int>)
    requires WellFiled(w.registry) && context.status.RunningReadonly? && context.stepCount <= MAX_STEPS
    ensures var end := Loop(w, RunState(context, [], b, None));
      var results, n := ResultsOf(end), |end.log|;
      var repeated := n > 0 && RepeatsAt(end.log, n - 1);
      && (forall k :: 0 <= k < n ==> results[k] == end.log[k].result)
      && (end.Stopped? ==> |results| == if repeated then n + 1 else n)
      && (end.Stopped? && repeated ==>
            && results[n].status.WaitHuman? && results[n].reason == Some(ReadonlyLoopNoProgress)
            && results[n].decision.None? && results[n].execution.None? && results[n].response.None?)
  {
    RunsEndForTheirReason(w, context, b);
  }

  /** A run that is not readonly is handed back as it is. */
  lemma OtherRunsAreLeftAlone(w: LoopWorld, context: RunContext, b: Option<int>)
    requires !context.status.RunningReadonly?
    ensures var end := Loop(w, RunState(context, [], b, None));
      end == Stopped(context, [], b, false) && ResultsOf(end) == []
  {
  }
}
