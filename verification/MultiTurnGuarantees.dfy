/**
 What every dialogue satisfies, for any simulator that passes validation, any agent, and any
 cancellation or timeout: the verifier's reading of the recorded turns agrees with the state machine.
 */
module MultiTurnGuarantees {
  import opened Prelude
  import opened Listing
  import opened IntentState
  import opened MultiTurnSchema
  import opened UserSimulator
  import opened MultiTurnVerifier
  import opened MultiTurnRunner

  // ---------------------------------------------------------------- effect of raising and addressing

  ghost predicate Within(intents: seq<string>, m: Machine) {
    forall i :: i in intents ==> i in m.states
  }

  /** Raising tracked intents never errs, and touches exactly those not raised yet. */
  lemma {:induction false} RaiseEffect(m: Machine, intents: seq<string>, turn: nat, evidence: seq<Evidence>)
    requires Within(intents, m)
    ensures var (m', error) := Steps(m, Raise, intents, turn, evidence);
      && error.None? && m'.states.Keys == m.states.Keys
      && forall i :: i in m.states ==>
        m'.states[i] == if i in intents && m.states[i].NotRaised? then Raised else m.states[i]
    decreases |intents|
  {
    if intents != [] {
      var next := StepOne(m, Raise, intents[0], turn, evidence).value;
      RaiseEffect(next, intents[1..], turn, evidence);
      assert forall i :: i in intents <==> i == intents[0] || i in intents[1..];
    }
  }

  /** Addressing raised intents never errs, and touches exactly those in RAISED. */
  lemma {:induction false} AddressEffect(m: Machine, intents: seq<string>, turn: nat, evidence: seq<Evidence>)
    requires Within(intents, m) && forall i :: i in intents ==> !m.states[i].NotRaised?
    ensures var (m', error) := Steps(m, Address, intents, turn, evidence);
      && error.None? && m'.states.Keys == m.states.Keys
      && forall i :: i in m.states ==>
        m'.states[i] == if i in intents && m.states[i].Raised? then Addressed else m.states[i]
    decreases |intents|
  {
    if intents != [] {
      var next := StepOne(m, Address, intents[0], turn, evidence).value;
      AddressEffect(next, intents[1..], turn, evidence);
      assert forall i :: i in intents <==> i == intents[0] || i in intents[1..];
    }
  }

  // ---------------------------------------------------------------- the invariant of a dialogue

  function AllTransitions(turns: seq<TurnTrace>): seq<Transition> {
    if turns == [] then [] else AllTransitions(turns[..|turns| - 1]) + turns[|turns| - 1].transitions
  }

  /** The state machine holds exactly what the turns say. */
  ghost predicate SameSets(states: map<string, IntentStatus>, turns: seq<TurnTrace>) {
    && RaisedIn(turns) <= states.Keys
    && AddressedIn(turns) <= RaisedIn(turns)
    && (forall i :: i in states ==> (!states[i].NotRaised? <==> i in RaisedIn(turns)))
    && (forall i :: i in states ==> (states[i].Done() <==> i in AddressedIn(turns)))
  }

  ghost predicate NumberedTurns(turns: seq<TurnTrace>) {
    forall k :: 0 <= k < |turns| ==> turns[k].turnId == k + 1
  }

  ghost predicate Matches(s: Scenario, m: Machine, turns: seq<TurnTrace>) {
    && Consistent(m, Fresh(TrackedIntents(s)).states)
    && SameSets(m.states, turns)
    && m.history == AllTransitions(turns)
    && NumberedTurns(turns)
  }

  ghost predicate NoFailure(turns: seq<TurnTrace>) {
    forall k :: 0 <= k < |turns| ==> !turns[k].trace.status.Fail?
  }

  /** A dialogue that goes on: nothing failed and some key intent is open. */
  ghost predicate Going(w: World, d: Dialogue) {
    Matches(w.scenario, d.machine, d.turns) && NoFailure(d.turns) && !AllDone(KeyIntents(w.scenario), d.machine.states)
  }

  /** A dialogue that ended for this reason. */
  ghost predicate Ended(w: World, d: Dialogue, reason: Reason) {
    && Matches(w.scenario, d.machine, d.turns)
    && (d.turns != [] ==> NoFailure(d.turns[..|d.turns| - 1]))
    && (reason.AgentFailed? <==> d.turns != [] && d.turns[|d.turns| - 1].trace.status.Fail?)
    && (reason.Status().Completed? <==> AllDone(KeyIntents(w.scenario), d.machine.states))
    && !reason.SimulatorContractError? && !reason.AgentContractError?
  }

  lemma RaisedInSnoc(turns: seq<TurnTrace>, t: TurnTrace)
    ensures RaisedIn(turns + [t]) == RaisedIn(turns) + SetOf(t.raised)
    ensures AddressedIn(turns + [t]) == AddressedIn(turns) + SetOf(t.addressed)
  {
    assert forall u :: u in turns + [t] <==> u in turns || u == t;
  }

  // ---------------------------------------------------------------- one accepted action

  function RaisedBy(d: Dialogue, turnId: nat, action: UserAction): Machine {
    Steps(d.machine, Raise, action.targets, turnId, [UserTurn(turnId)]).0
  }

  function HeardBy(w: World, d: Dialogue, turnId: nat, action: UserAction): Trace {
    TraceOf(w, WithUserMessage(d.messages, action.message), turnId)
  }

  function AddressedBy(w: World, d: Dialogue, turnId: nat, action: UserAction): Machine {
    var trace := HeardBy(w, d, turnId, action);
    Steps(RaisedBy(d, turnId, action), Address, AddressedIntents(action, trace), turnId, TraceEvidence(trace, turnId)).0
  }

  /** The states change by this rule and no other. */
  lemma AcceptedStates(w: World, d: Dialogue, turnId: nat, action: UserAction)
    requires forall i :: i in action.targets ==> i in d.machine.states
    ensures Steps(d.machine, Raise, action.targets, turnId, [UserTurn(turnId)]).1.None?
    ensures var trace := HeardBy(w, d, turnId, action);
      && Steps(RaisedBy(d, turnId, action), Address, AddressedIntents(action, trace), turnId, TraceEvidence(trace, turnId)).1.None?
      && AddressedBy(w, d, turnId, action).states.Keys == d.machine.states.Keys
      && forall i :: i in d.machine.states ==>
        AddressedBy(w, d, turnId, action).states[i] ==
          if i in AddressedIntents(action, trace) && d.machine.states[i].Rank() <= 1 then Addressed
          else if i in action.targets && d.machine.states[i].NotRaised? then Raised
          else d.machine.states[i]
  {
    RaiseEffect(d.machine, action.targets, turnId, [UserTurn(turnId)]);
    var trace := HeardBy(w, d, turnId, action);
    AddressEffect(RaisedBy(d, turnId, action), AddressedIntents(action, trace), turnId, TraceEvidence(trace, turnId));
  }

  lemma AcceptedHistory(w: World, d: Dialogue, turnId: nat, action: UserAction)
    requires Consistent(d.machine, Fresh(TrackedIntents(w.scenario)).states)
    ensures Consistent(AddressedBy(w, d, turnId, action), Fresh(TrackedIntents(w.scenario)).states)
    ensures d.machine.history <= AddressedBy(w, d, turnId, action).history
  {
    var start := Fresh(TrackedIntents(w.scenario)).states;
    StepsKeepConsistent(d.machine, start, Raise, action.targets, turnId, [UserTurn(turnId)]);
    var trace := HeardBy(w, d, turnId, action);
    StepsKeepConsistent(RaisedBy(d, turnId, action), start, Address, AddressedIntents(action, trace), turnId, TraceEvidence(trace, turnId));
  }

  /** The recorded turn, and the dialogue with it. */
  function TurnOf(w: World, d: Dialogue, turnId: nat, action: UserAction): TurnTrace
    requires |d.machine.history| <= |AddressedBy(w, d, turnId, action).history|
  {
    var machine := AddressedBy(w, d, turnId, action);
    var addressed := AddressedIntents(action, HeardBy(w, d, turnId, action));
    TurnTrace(turnId, action, HeardBy(w, d, turnId, action), action.targets, addressed, machine.states,
              machine.history[|d.machine.history|..], addressed != [] || action.targets == [])
  }

  function Recorded(w: World, d: Dialogue, turnId: nat, action: UserAction): Dialogue
    requires |d.machine.history| <= |AddressedBy(w, d, turnId, action).history|
  {
    Dialogue(d.actions, d.turns + [TurnOf(w, d, turnId, action)], WithUserMessage(d.messages, action.message),
             AddressedBy(w, d, turnId, action))
  }

  /** Both contract-error branches are unreachable for tracked targets. */
  lemma AcceptedActionIsRecorded(w: World, d: Dialogue, turnId: nat, action: UserAction)
    requires Matches(w.scenario, d.machine, d.turns)
    requires forall i :: i in action.targets ==> i in d.machine.states
    ensures |d.machine.history| <= |AddressedBy(w, d, turnId, action).history|
    ensures Respond(w, d, turnId, action)
         == Conclude(w, Recorded(w, d, turnId, action), TurnOf(w, d, turnId, action))
  {
    AcceptedStates(w, d, turnId, action);
    AcceptedHistory(w, d, turnId, action);
  }

  /** The rule of AcceptedStates keeps machine and turns in agreement. */
  lemma SetsStayEqual(states: map<string, IntentStatus>, after: map<string, IntentStatus>, turns: seq<TurnTrace>, turn: TurnTrace)
    requires SameSets(states, turns) && after.Keys == states.Keys
    requires forall i :: i in turn.raised ==> i in states
    requires forall i :: i in turn.addressed ==> i in turn.raised
    requires forall i :: i in states ==>
      after[i] == if i in turn.addressed && states[i].Rank() <= 1 then Addressed
                  else if i in turn.raised && states[i].NotRaised? then Raised
                  else states[i]
    ensures SameSets(after, turns + [turn])
  {
    RaisedInSnoc(turns, turn);
    var raised, addressed := RaisedIn(turns), AddressedIn(turns);
    assert RaisedIn(turns + [turn]) == raised + SetOf(turn.raised);
    assert AddressedIn(turns + [turn]) == addressed + SetOf(turn.addressed);
    forall i | i in after ensures !after[i].NotRaised? <==> i in raised + SetOf(turn.raised) {
      assert i in states;
    }
    forall i | i in after ensures after[i].Done() <==> i in addressed + SetOf(turn.addressed) {
      assert i in states;
    }
  }

  lemma RecordedKeepsSets(w: World, d: Dialogue, turnId: nat, action: UserAction)
    requires Matches(w.scenario, d.machine, d.turns) && |d.machine.history| <= |AddressedBy(w, d, turnId, action).history|
    requires forall i :: i in action.targets ==> i in d.machine.states
    ensures SameSets(Recorded(w, d, turnId, action).machine.states, Recorded(w, d, turnId, action).turns)
  {
    AcceptedStates(w, d, turnId, action);
    SetsStayEqual(d.machine.states, AddressedBy(w, d, turnId, action).states, d.turns, TurnOf(w, d, turnId, action));
  }

  lemma RecordedMatches(w: World, d: Dialogue, turnId: nat, action: UserAction)
    requires Matches(w.scenario, d.machine, d.turns) && turnId == |d.turns| + 1 && |d.machine.history| <= |AddressedBy(w, d, turnId, action).history|
    requires forall i :: i in action.targets ==> i in d.machine.states
    ensures var r := Recorded(w, d, turnId, action); Matches(w.scenario, r.machine, r.turns)
  {
    AcceptedStates(w, d, turnId, action);
    AcceptedHistory(w, d, turnId, action);
    RecordedKeepsSets(w, d, turnId, action);
    MatchesSnoc(w.scenario, d.machine, d.turns, AddressedBy(w, d, turnId, action), TurnOf(w, d, turnId, action));
  }

  // Not by induction: the turns before the last are only passed on.
  lemma {:induction false} MatchesSnoc(s: Scenario, before: Machine, turns: seq<TurnTrace>, after: Machine, turn: TurnTrace)
    requires before.history == AllTransitions(turns) && NumberedTurns(turns) && turn.turnId == |turns| + 1
    requires Consistent(after, Fresh(TrackedIntents(s)).states) && SameSets(after.states, turns + [turn])
    requires before.history <= after.history && turn.transitions == after.history[|before.history|..]
    ensures Matches(s, after, turns + [turn])
  {
    var longer := turns + [turn];
    assert longer[..|longer| - 1] == turns;
    assert after.history == before.history + turn.transitions;
  }

  // ---------------------------------------------------------------- one turn, and the whole dialogue

  lemma AcceptedTargetsAreTracked(w: World, d: Dialogue, action: UserAction)
    requires ValidScenario(w.scenario) && Matches(w.scenario, d.machine, d.turns) && Violation(action, w.scenario).None?
    ensures forall i :: i in action.targets ==> i in d.machine.states
  {
    TrackedIntentsAreTheAgenda(w.scenario);
    forall i | i in action.targets ensures i in d.machine.states {
      assert i in SetOf(action.targets);
      assert i in SetOf(Intents(w.scenario.agenda));
    }
  }

  /** A turn that addressed nothing leaves every open intent open. */
  lemma OpenStaysOpen(w: World, d: Dialogue, turnId: nat, action: UserAction)
    requires forall i :: i in action.targets ==> i in d.machine.states
    requires AddressedIntents(action, HeardBy(w, d, turnId, action)) == []
    requires !AllDone(KeyIntents(w.scenario), d.machine.states)
    ensures !AllDone(KeyIntents(w.scenario), AddressedBy(w, d, turnId, action).states)
  {
    AcceptedStates(w, d, turnId, action);
    var k :| 0 <= k < |KeyIntents(w.scenario)| && !DoneIn(d.machine.states, KeyIntents(w.scenario)[k]);
    assert !DoneIn(AddressedBy(w, d, turnId, action).states, KeyIntents(w.scenario)[k]);
  }

  predicate NoContractError(reason: Reason) {
    !reason.SimulatorContractError? && !reason.AgentContractError?
  }

  /** What the last turn makes of the dialogue. */
  lemma LastTurnClassifies(w: World, r: Dialogue, reason: Reason)
    requires Matches(w.scenario, r.machine, r.turns) && r.turns != [] && NoFailure(r.turns[..|r.turns| - 1])
    ensures var fails := r.turns[|r.turns| - 1].trace.status.Fail?;
      var done := AllDone(KeyIntents(w.scenario), r.machine.states);
      && (!fails && !done ==> Going(w, r))
      && ((reason.AgentFailed? <==> fails) && (reason.Status().Completed? <==> done) && NoContractError(reason)
          ==> Ended(w, r, reason))
  {
    forall k | 0 <= k < |r.turns| && !r.turns[|r.turns| - 1].trace.status.Fail? ensures !r.turns[k].trace.status.Fail? {
      if k < |r.turns| - 1 {
        assert r.turns[..|r.turns| - 1][k] == r.turns[k];
      }
    }
  }

  /** Concluding a turn adds at most a message. */
  lemma ConcludeKeeps(w: World, r: Dialogue, turn: TurnTrace)
    ensures match Conclude(w, r, turn)
      case Next(d') =>
        && d'.machine == r.machine && d'.turns == r.turns && d'.actions == r.actions
        && !turn.trace.status.Fail? && !AllDone(KeyIntents(w.scenario), r.machine.states)
      case Stop(d', reason) =>
        && d'.machine == r.machine && d'.turns == r.turns && d'.actions == r.actions && !reason.MaxTurnsReached?
        && !reason.SimulatorContractError? && !reason.AgentContractError?
        && (reason.AgentFailed? <==> turn.trace.status.Fail?)
        && (reason.Status().Completed? <==>
              !turn.trace.status.Fail? && !turn.action.kind.Abandon? && AllDone(KeyIntents(w.scenario), r.machine.states))
  {
  }

  lemma SameDialogue(w: World, r: Dialogue, d: Dialogue, reason: Reason)
    requires d.machine == r.machine && d.turns == r.turns
    ensures Going(w, r) ==> Going(w, d)
    ensures Ended(w, r, reason) ==> Ended(w, d, reason)
  {
  }

  /** How a recorded turn ends or continues the dialogue. */
  lemma ConcludeClassifies(w: World, r: Dialogue, turn: TurnTrace)
    requires Matches(w.scenario, r.machine, r.turns) && r.turns != [] && r.turns[|r.turns| - 1] == turn && NoFailure(r.turns[..|r.turns| - 1])
    requires turn.trace.status.Fail? || turn.action.kind.Abandon? ==> !AllDone(KeyIntents(w.scenario), r.machine.states)
    ensures match Conclude(w, r, turn)
      case Next(d') => Going(w, d') && d'.turns == r.turns
      case Stop(d', reason) => Ended(w, d', reason) && d'.turns == r.turns && !reason.MaxTurnsReached?
  {
    ConcludeKeeps(w, r, turn);
    match Conclude(w, r, turn)
    case Next(d') =>
      LastTurnClassifies(w, r, MaxTurnsReached);
      SameDialogue(w, r, d', MaxTurnsReached);
    case Stop(d', reason) =>
      LastTurnClassifies(w, r, reason);
      SameDialogue(w, r, d', reason);
  }

  lemma ResponseKeepsGoing(w: World, d: Dialogue, turnId: nat, action: UserAction)
    requires ValidScenario(w.scenario) && Going(w, d) && turnId == |d.turns| + 1
    requires forall i :: i in action.targets ==> i in d.machine.states
    ensures match Respond(w, d, turnId, action)
      case Next(d') => Going(w, d') && |d'.turns| == turnId
      case Stop(d', reason) => Ended(w, d', reason) && |d'.turns| == turnId && !reason.MaxTurnsReached?
  {
    AcceptedActionIsRecorded(w, d, turnId, action);
    RecordedMatches(w, d, turnId, action);
    var r, turn := Recorded(w, d, turnId, action), TurnOf(w, d, turnId, action);
    assert r.turns[..|r.turns| - 1] == d.turns;
    if turn.trace.status.Fail? || action.kind.Abandon? {
      assert AddressedIntents(action, HeardBy(w, d, turnId, action)) == [];
      OpenStaysOpen(w, d, turnId, action);
    }
    ConcludeClassifies(w, r, turn);
  }

  /** What the simulator is asked in this turn. */
  function Asked(w: World, d: Dialogue): Result<UserAction, string> {
    NextAction(w.provider, w.scenario, d.actions, LastResponse(d.turns), PendingOf(KeyIntents(w.scenario), d.machine.states))
  }

  predicate Accepted(w: World, d: Dialogue, turnId: nat) {
    && !w.cancelled(turnId) && !w.timedOut(turnId) && Asked(w, d).Ok?
    && RepeatCount(d.actions + [Asked(w, d).value], Asked(w, d).value.kind, Asked(w, d).value.message) < w.config.maxRepeatedAction
  }

  lemma UnacceptedTurnEnds(w: World, d: Dialogue, turnId: nat)
    requires !Accepted(w, d, turnId)
    ensures var r := PlayTurn(w, d, turnId);
      && r.Stop? && r.d.machine == d.machine && r.d.turns == d.turns
      && (r.d.actions == d.actions || (Asked(w, d).Ok? && r.d.actions == d.actions + [Asked(w, d).value]))
      && (r.reason.Cancelled? || r.reason.ScenarioTimeout? || r.reason.SimulatorFailed? || r.reason.SimulatorNoProgress?)
  {
  }

  lemma AcceptedTurnResponds(w: World, d: Dialogue, turnId: nat)
    requires Accepted(w, d, turnId)
    ensures var action := Asked(w, d).value;
      && Violation(action, w.scenario).None?
      && PlayTurn(w, d, turnId) == Respond(w, d.(actions := d.actions + [action]), turnId, action)
  {
  }

  lemma TurnKeepsGoing(w: World, d: Dialogue, turnId: nat)
    requires ValidScenario(w.scenario) && Going(w, d) && turnId == |d.turns| + 1
    ensures match PlayTurn(w, d, turnId)
      case Next(d') => Going(w, d') && |d'.turns| == turnId
      case Stop(d', reason) => Ended(w, d', reason) && |d'.turns| <= turnId && !reason.MaxTurnsReached?
  {
    if Accepted(w, d, turnId) {
      var action := Asked(w, d).value;
      AcceptedTurnResponds(w, d, turnId);
      AcceptedTargetsAreTracked(w, d, action);
      ResponseKeepsGoing(w, d.(actions := d.actions + [action]), turnId, action);
    } else {
      UnacceptedTurnEnds(w, d, turnId);
    }
  }

  lemma {:induction false} PlayKeepsGoing(w: World, d: Dialogue, turnId: nat)
    requires ValidScenario(w.scenario) && Going(w, d) && turnId == |d.turns| + 1 && turnId <= TurnLimit(w) + 1
    ensures var (d', reason) := Play(w, d, turnId);
      Ended(w, d', reason) && |d'.turns| <= TurnLimit(w) && (reason.MaxTurnsReached? ==> |d'.turns| == TurnLimit(w))
    decreases TurnLimit(w) + 1 - turnId
  {
    if turnId <= TurnLimit(w) {
      TurnKeepsGoing(w, d, turnId);
      match PlayTurn(w, d, turnId)
      case Next(d') => PlayKeepsGoing(w, d', turnId + 1);
      case Stop(_, _) =>
    }
  }

  lemma OpenedIsGoing(w: World)
    requires ValidScenario(w.scenario)
    ensures Going(w, Opened(w.scenario))
  {
    TrackedIntentsAreTheAgenda(w.scenario);
    assert !DoneIn(Opened(w.scenario).machine.states, KeyIntents(w.scenario)[0]);
  }

  // ---------------------------------------------------------------- the promises

  lemma SameSetsAreComprehensions(states: map<string, IntentStatus>, turns: seq<TurnTrace>)
    requires SameSets(states, turns)
    ensures RaisedIn(turns) == (set i | i in states && !states[i].NotRaised?)
    ensures AddressedIn(turns) == (set i | i in states && states[i].Done())
  {
  }

  /**
   For any validated simulator and any agent, the raised and addressed sets that the verifier recomputes
   from the turns are those of the state machine, the turns' transitions are the whole history, which
   replays to the final states, and turn ids are 1..n.
   */
  lemma VerifierAgreesWithStateMachine(w: World)
    requires ValidScenario(w.scenario) && ValidConfig(w.config)
    ensures var (d, reason) := PlayAll(w);
      && RaisedIn(d.turns) == (set i | i in d.machine.states && !d.machine.states[i].NotRaised?)
      && AddressedIn(d.turns) == (set i | i in d.machine.states && d.machine.states[i].Done())
      && AddressedIn(d.turns) <= RaisedIn(d.turns)
      && AllTransitions(d.turns) == d.machine.history
      && Replayed(Fresh(TrackedIntents(w.scenario)).states, AllTransitions(d.turns)) == d.machine.states
      && |d.turns| <= TurnLimit(w)
      && forall k :: 0 <= k < |d.turns| ==> d.turns[k].turnId == k + 1
  {
    OpenedIsGoing(w);
    PlayKeepsGoing(w, Opened(w.scenario), 1);
    var (d, _) := PlayAll(w);
    SameSetsAreComprehensions(d.machine.states, d.turns);
  }

  predicate FailedAt(turns: seq<TurnTrace>, k: int) {
    0 <= k < |turns| && turns[k].trace.status.Fail?
  }

  lemma OnlyLastFails(turns: seq<TurnTrace>)
    requires turns != [] ==> NoFailure(turns[..|turns| - 1])
    ensures forall k :: FailedAt(turns, k) ==> k == |turns| - 1
  {
  }

  /**
   Only the last turn can hold a failed trace, and it does exactly when that ended the dialogue; neither
   intent-contract error can end it; and it ends `completed` exactly when every key intent is ADDRESSED
   or later.
   */
  lemma DialoguesEndHonestly(w: World)
    requires ValidScenario(w.scenario) && ValidConfig(w.config)
    ensures var (d, reason) := PlayAll(w);
      && (forall k :: FailedAt(d.turns, k) ==> k == |d.turns| - 1)
      && (reason.AgentFailed? <==> FailedAt(d.turns, |d.turns| - 1))
      && !reason.SimulatorContractError? && !reason.AgentContractError?
      && (reason.Status().Completed? <==> AllDone(KeyIntents(w.scenario), d.machine.states))
  {
    OpenedIsGoing(w);
    PlayKeepsGoing(w, Opened(w.scenario), 1);
    OnlyLastFails(PlayAll(w).0.turns);
  }

  // ---------------------------------------------------------------- the report

  predicate Blames(t: TurnTrace) {
    t.trace.status.Fail? || ((t.action.kind.AskFollowup? || t.action.kind.ProvideFact?) && t.addressed == [])
  }

  lemma {:induction false} AgentErrorsComeFromTurns(turns: seq<TurnTrace>)
    ensures HasAgentError(TurnSignals(turns)) <==> exists k :: 0 <= k < |turns| && Blames(turns[k])
    decreases |turns|
  {
    if turns != [] {
      var earlier, last := turns[..|turns| - 1], turns[|turns| - 1];
      AgentErrorsComeFromTurns(earlier);
      var signals := TurnSignals(earlier);
      var all := TurnSignals(turns);
      if HasAgentError(signals) {
        var i :| 0 <= i < |signals| && signals[i].category.AgentError?;
        assert all[i] == signals[i];
        var k :| 0 <= k < |earlier| && Blames(earlier[k]);
        assert turns[k] == earlier[k];
      } else if Blames(last) {
        assert all[|signals|].category.AgentError?;
        assert Blames(turns[|turns| - 1]);
      } else {
        assert forall i :: 0 <= i < |signals| ==> all[i] == signals[i];
        assert forall k :: 0 <= k < |earlier| ==> turns[k] == earlier[k];
      }
    }
  }

  lemma FeedbackBlame(turns: seq<TurnTrace>, termination: string)
    requires termination != "max_turns_reached"
    ensures HasAgentError(FeedbackOf(turns, false, termination)) <==> exists k :: 0 <= k < |turns| && Blames(turns[k])
  {
    AgentErrorsComeFromTurns(turns);
    assert FeedbackOf(turns, false, termination) == TurnSignals(turns);
  }

  /**
   The scores of any dialogue: `agenda_progress` is the exposed accuracy whenever anything was raised, a
   completed dialogue has full coverage and no noise, and it is a success exactly when every follow-up and
   every volunteered fact was answered. Abandoned dialogues never succeed; incomplete ones are not judged.
   */
  lemma ReportsScoreExactly(w: World)
    requires ValidScenario(w.scenario) && ValidConfig(w.config)
    ensures var (d, reason) := PlayAll(w);
      var report := ReportOf(w.scenario, d.turns, reason.Text(), reason.Status());
      && (RaisedIn(d.turns) != {} ==> report.exposed == Some(report.progress))
      && (report.status.Completed? ==>
        && report.coverage == 1.0 && !report.noise
        && (report.taskSuccess == Some(true) <==>
            !exists k :: 0 <= k < |d.turns| && Blames(d.turns[k])))
      && (report.status.Abandoned? ==> report.taskSuccess == Some(false))
      && (report.status.Incomplete? ==> report.taskSuccess == None)
  {
    VerifierAgreesWithStateMachine(w);
    DialoguesEndHonestly(w);
    var (d, reason) := PlayAll(w);
    if reason.Status().Completed? {
      CompletedCoversKeys(w.scenario, d.machine.states, d.turns);
      forall k | 0 <= k < |d.turns| ensures !d.turns[k].trace.status.Fail? {
        assert !FailedAt(d.turns, k);
      }
      CompletedReport(w.scenario, d.turns, reason.Text());
    }
  }

  lemma CompletedCoverage(s: Scenario, turns: seq<TurnTrace>, termination: string)
    requires SetOf(KeyIntents(s)) <= RaisedIn(turns)
    requires SetOf(KeyIntents(s)) != {} && |RaisedIn(turns) * SetOf(KeyIntents(s))| == |SetOf(KeyIntents(s))|
    ensures var report := ReportOf(s, turns, termination, Completed); report.coverage == 1.0 && !report.noise
  {
    assert |SetOf(KeyIntents(s))| > 0;
    FullRatio(|SetOf(KeyIntents(s))|);
  }

  lemma CompletedReport(s: Scenario, turns: seq<TurnTrace>, termination: string)
    requires NoFailure(turns) && termination != "max_turns_reached"
    requires SetOf(KeyIntents(s)) <= AddressedIn(turns) && SetOf(KeyIntents(s)) <= RaisedIn(turns)
    requires SetOf(KeyIntents(s)) != {} && |RaisedIn(turns) * SetOf(KeyIntents(s))| == |SetOf(KeyIntents(s))|
    ensures var report := ReportOf(s, turns, termination, Completed);
      && report.coverage == 1.0 && !report.noise
      && (report.taskSuccess == Some(true) <==> !exists k :: 0 <= k < |turns| && Blames(turns[k]))
  {
    CompletedCoverage(s, turns, termination);
    CompletedSuccess(s, turns, termination);
  }

  lemma CompletedSuccess(s: Scenario, turns: seq<TurnTrace>, termination: string)
    requires NoFailure(turns) && termination != "max_turns_reached"
    requires SetOf(KeyIntents(s)) <= AddressedIn(turns) && SetOf(KeyIntents(s)) <= RaisedIn(turns)
    ensures ReportOf(s, turns, termination, Completed).taskSuccess == Some(true)
       <==> !exists k :: 0 <= k < |turns| && Blames(turns[k])
  {
    FeedbackBlame(turns, termination);
    forall t | t in turns ensures !t.trace.status.Fail? {
      var k :| 0 <= k < |turns| && turns[k] == t;
    }
  }

  lemma FullRatio(n: nat)
    requires n > 0
    ensures Ratio(n, n) == 1.0
  {
  }

  lemma CompletedCoversKeys(s: Scenario, states: map<string, IntentStatus>, turns: seq<TurnTrace>)
    requires ValidScenario(s) && AllDone(KeyIntents(s), states)
    requires RaisedIn(turns) == (set i | i in states && !states[i].NotRaised?)
    requires AddressedIn(turns) == (set i | i in states && states[i].Done())
    ensures SetOf(KeyIntents(s)) <= AddressedIn(turns) && SetOf(KeyIntents(s)) <= RaisedIn(turns)
    ensures SetOf(KeyIntents(s)) != {}
    ensures |RaisedIn(turns) * SetOf(KeyIntents(s))| == |SetOf(KeyIntents(s))|
  {
    TrackedIntentsAreTheAgenda(s);
    var keys := KeyIntents(s);
    assert keys[0] in SetOf(keys);
    forall i | i in SetOf(keys) ensures i in AddressedIn(turns) && i in RaisedIn(turns) {
      var k :| 0 <= k < |keys| && keys[k] == i;
      assert DoneIn(states, keys[k]);
    }
    assert RaisedIn(turns) * SetOf(keys) == SetOf(keys);
  }
}
