/**
 Bounded orchestration of a constrained user simulator and an agent runtime
 (src/harness/multiturn_runner.py): the specification of a dialogue, and `MultiTurnRunner.run`.
 */
module MultiTurnRunner {
  import opened Prelude
  import opened Text
  import opened IntentState
  import opened MultiTurnSchema
  import opened UserSimulator
  import opened MultiTurnVerifier

  datatype Config = Config(maxTurns: nat, maxRepeatedAction: nat)

  /** MultiTurnConfig.__post_init__ (mutation stays disabled). */
  predicate ValidConfig(c: Config) {
    1 <= c.maxTurns <= 32 && 1 <= c.maxRepeatedAction
  }

  /** What one agent invocation leads to. */
  datatype AgentReply = TimedOut | AgentRaised | Answer(trace: Trace)

  /**
   Everything a dialogue depends on: the simulator's provider and the agent are arbitrary, and so are
   cancellation (before a turn, and before its agent call) and the scenario timeout.
   */
  datatype World = World(scenario: Scenario, config: Config, provider: Provider,
                         agent: (seq<Message>, nat) -> AgentReply,
                         cancelled: nat -> bool, cancelledBeforeAgent: nat -> bool, timedOut: nat -> bool)

  datatype Reason =
    | Cancelled
    | ScenarioTimeout
    | SimulatorFailed(error: string)
    | SimulatorNoProgress
    | SimulatorContractError
    | AgentContractError
    | AgentFailed(text: string)
    | UserAbandoned
    | AllKeyIntentsAddressed
    | MaxTurnsReached
  {
    function Text(): string {
      match this
      case Cancelled => "cancelled"
      case ScenarioTimeout => "scenario_timeout"
      case SimulatorFailed(error) => error
      case SimulatorNoProgress => "simulator_no_progress"
      case SimulatorContractError => "simulator_intent_contract_error"
      case AgentContractError => "agent_intent_contract_error"
      case AgentFailed(text) => text
      case UserAbandoned => "user_abandoned"
      case AllKeyIntentsAddressed => "all_key_intents_addressed"
      case MaxTurnsReached => "max_turns_reached"
    }

    function Status(): DialogueStatus {
      match this
      case UserAbandoned => Abandoned
      case AllKeyIntentsAddressed => Completed
      case _ => Incomplete
    }
  }

  datatype Dialogue = Dialogue(actions: seq<UserAction>, turns: seq<TurnTrace>, messages: seq<Message>, machine: Machine)

  datatype TurnResult = Next(d: Dialogue) | Stop(d: Dialogue, reason: Reason)

  // ---------------------------------------------------------------- specification of one turn

  function Opened(s: Scenario): Dialogue {
    Dialogue([], [], s.initialMessages, Fresh(TrackedIntents(s)))
  }

  function TurnLimit(w: World): nat {
    if w.config.maxTurns < w.scenario.maxTurns then w.config.maxTurns else w.scenario.maxTurns
  }

  predicate DoneIn(states: map<string, IntentStatus>, intent: string) {
    intent in states && states[intent].Done()
  }

  /** Key intents not yet addressed, in agenda order. */
  function PendingOf(keys: seq<string>, states: map<string, IntentStatus>): seq<string> {
    if keys == [] then []
    else (if DoneIn(states, keys[0]) then [] else [keys[0]]) + PendingOf(keys[1..], states)
  }

  predicate AllDone(keys: seq<string>, states: map<string, IntentStatus>) {
    forall i :: 0 <= i < |keys| ==> DoneIn(states, keys[i])
  }

  /** How many of the latest actions repeat this kind and message. */
  function RepeatCount(actions: seq<UserAction>, kind: ActionKind, message: string): nat {
    if actions == [] then 0
    else
      var last := actions[|actions| - 1];
      if last.kind == kind && last.message == message then 1 + RepeatCount(actions[..|actions| - 1], kind, message) else 0
  }

  function WithUserMessage(messages: seq<Message>, content: string): seq<Message> {
    if messages != [] && messages[|messages| - 1] == Message("user", content) then messages
    else messages + [Message("user", content)]
  }

  function FailedTrace(caseId: string, reason: string): Trace {
    Trace(caseId, None, Some(reason), "", Fail, [])
  }

  function TraceOf(w: World, messages: seq<Message>, turnId: nat): Trace {
    var id := w.scenario.scenarioId;
    if w.cancelledBeforeAgent(turnId) then FailedTrace(id, "cancelled")
    else
      match w.agent(messages, turnId)
      case TimedOut => FailedTrace(id, "agent_turn_timeout")
      case AgentRaised => FailedTrace(id, "agent_turn_failed")
      case Answer(trace) => trace.(caseId := id)
  }

  function SourcesOf(ids: seq<string>): seq<Evidence> {
    if ids == [] then [] else [Source(ids[0])] + SourcesOf(ids[1..])
  }

  function TraceEvidence(trace: Trace, turnId: nat): seq<Evidence> {
    SourcesOf(trace.evidenceIds) + [ResponseTurn(turnId)]
  }

  function FailureText(trace: Trace): string {
    if trace.nextAction.None? || trace.nextAction.value == "" then "agent_turn_failed" else trace.nextAction.value
  }

  function LastResponse(turns: seq<TurnTrace>): string {
    if turns == [] then "" else turns[|turns| - 1].trace.response
  }

  /** The action is accepted: raise, call the agent, address, record, and decide how to go on. */
  function Respond(w: World, d: Dialogue, turnId: nat, action: UserAction): TurnResult {
    var (raisedMachine, raiseError) := Steps(d.machine, Raise, action.targets, turnId, [UserTurn(turnId)]);
    if raiseError.Some? then
      Stop(d.(machine := raisedMachine), SimulatorContractError)
    else
      var messages := WithUserMessage(d.messages, action.message);
      var trace := TraceOf(w, messages, turnId);
      var addressed := AddressedIntents(action, trace);
      var (machine, addressError) := Steps(raisedMachine, Address, addressed, turnId, TraceEvidence(trace, turnId));
      if addressError.Some? then
        Stop(Dialogue(d.actions, d.turns, messages, machine), AgentContractError)
      else
        var turn := TurnTrace(turnId, action, trace, action.targets, addressed, machine.states,
                              if |d.machine.history| <= |machine.history| then machine.history[|d.machine.history|..] else [],
                              addressed != [] || action.targets == []);
        Conclude(w, Dialogue(d.actions, d.turns + [turn], messages, machine), turn)
  }

  function Conclude(w: World, d: Dialogue, turn: TurnTrace): TurnResult {
    var heard := if Strip(turn.trace.response) != "" then
      d.(messages := d.messages + [Message("assistant", turn.trace.response)]) else d;
    if turn.trace.status.Fail? then Stop(d, AgentFailed(FailureText(turn.trace)))
    else if turn.action.kind.Abandon? then Stop(heard, UserAbandoned)
    else if AllDone(KeyIntents(w.scenario), d.machine.states) then Stop(heard, AllKeyIntentsAddressed)
    else Next(heard)
  }

  function PlayTurn(w: World, d: Dialogue, turnId: nat): TurnResult {
    if w.cancelled(turnId) then Stop(d, Cancelled)
    else if w.timedOut(turnId) then Stop(d, ScenarioTimeout)
    else
      match NextAction(w.provider, w.scenario, d.actions, LastResponse(d.turns), PendingOf(KeyIntents(w.scenario), d.machine.states))
      case Err(error) => Stop(d, SimulatorFailed(error))
      case Ok(action) =>
        var asked := d.(actions := d.actions + [action]);
        if RepeatCount(asked.actions, action.kind, action.message) >= w.config.maxRepeatedAction then
          Stop(asked, SimulatorNoProgress)
        else
          Respond(w, asked, turnId, action)
  }

  /** The rest of the dialogue from turn `turnId` on. */
  function Play(w: World, d: Dialogue, turnId: nat): (Dialogue, Reason)
    decreases TurnLimit(w) + 1 - turnId
  {
    if turnId > TurnLimit(w) then (d, MaxTurnsReached)
    else
      match PlayTurn(w, d, turnId)
      case Next(d') => Play(w, d', turnId + 1)
      case Stop(d', reason) => (d', reason)
  }

  function PlayAll(w: World): (Dialogue, Reason) {
    Play(w, Opened(w.scenario), 1)
  }

  // ---------------------------------------------------------------- the runner itself

  /** Same kind and same message. */
  predicate Repeats(previous: UserAction, action: UserAction) {
    previous.kind == action.kind && previous.message == action.message
  }

  /** `_repeat_count`: count back from the latest action. */
  method CountRepeats(actions: seq<UserAction>, action: UserAction) returns (count: nat)
    ensures count == RepeatCount(actions, action.kind, action.message) && count <= |actions|
    ensures forall k :: |actions| - count <= k < |actions| ==> Repeats(actions[k], action)
    ensures count < |actions| ==> !Repeats(actions[|actions| - count - 1], action)
  {
    count := 0;
    var i := |actions|;
    assert actions[..i] == actions;
    while i > 0
      invariant 0 <= i <= |actions| && count == |actions| - i
      invariant forall k :: i <= k < |actions| ==> Repeats(actions[k], action)
      invariant RepeatCount(actions, action.kind, action.message)
             == count + RepeatCount(actions[..i], action.kind, action.message)
    {
      var previous := actions[i - 1];
      assert actions[..i][..i - 1] == actions[..i - 1];
      if Repeats(previous, action) {
        count := count + 1;
      } else {
        return;
      }
      i := i - 1;
    }
  }

  /** The `pending` tuple, asking the state machine about one key intent at a time. */
  method Pending(keys: seq<string>, state: IntentStateMachine) returns (pending: seq<string>)
    requires forall i :: 0 <= i < |keys| ==> keys[i] in state.states
    ensures pending == PendingOf(keys, state.states)
  {
    pending := [];
    for i := 0 to |keys|
      invariant PendingOf(keys, state.states) == pending + PendingOf(keys[i..], state.states)
    {
      assert keys[i..][0] == keys[i] && keys[i..][1..] == keys[i + 1..];
      var addressed := state.AllAddressed([keys[i]]);
      assert addressed == DoneIn(state.states, keys[i]) by {
        assert [keys[i]][0] == keys[i];
      }
      if !addressed {
        pending := pending + [keys[i]];
      }
    }
  }

  /** A trace that ends the dialogue for this reason and addresses no intent, whatever the user asked. */
  ghost predicate FailsWith(trace: Trace, reason: string) {
    && trace.status.Fail? && FailureText(trace) == reason
    && trace.response == "" && trace.evidenceIds == []
    && forall action :: AddressedIntents(action, trace) == []
  }

  /**
   The agent's turn always yields a trace of this scenario: the agent's own answer, whatever case id it carries,
   or a failure that says why there is none.
   */
  method InvokeAgent(w: World, messages: seq<Message>, turnId: nat) returns (trace: Trace)
    ensures trace == TraceOf(w, messages, turnId)
    ensures trace.caseId == w.scenario.scenarioId
    ensures w.cancelledBeforeAgent(turnId) ==> FailsWith(trace, "cancelled")
    ensures !w.cancelledBeforeAgent(turnId) && w.agent(messages, turnId).TimedOut? ==> FailsWith(trace, "agent_turn_timeout")
    ensures !w.cancelledBeforeAgent(turnId) && w.agent(messages, turnId).AgentRaised? ==> FailsWith(trace, "agent_turn_failed")
    ensures !w.cancelledBeforeAgent(turnId) && w.agent(messages, turnId).Answer? ==>
      trace == w.agent(messages, turnId).trace.(caseId := trace.caseId)
  {
    if w.cancelledBeforeAgent(turnId) {
      return FailedTrace(w.scenario.scenarioId, "cancelled");
    }
    match w.agent(messages, turnId) {
      case TimedOut => return FailedTrace(w.scenario.scenarioId, "agent_turn_timeout");
      case AgentRaised => return FailedTrace(w.scenario.scenarioId, "agent_turn_failed");
      case Answer(answer) =>
        if answer.caseId != w.scenario.scenarioId {
          return answer.(caseId := w.scenario.scenarioId);
        }
        return answer;
    }
  }

  /** Every key intent is tracked. */
  ghost predicate Tracks(m: Machine, keys: seq<string>) {
    forall i :: 0 <= i < |keys| ==> keys[i] in m.states
  }

  lemma {:induction false} StepsKeepIntents(m: Machine, goal: Goal, intents: seq<string>, turn: nat, evidence: seq<Evidence>)
    ensures Steps(m, goal, intents, turn, evidence).0.states.Keys == m.states.Keys
    ensures m.history <= Steps(m, goal, intents, turn, evidence).0.history
    decreases |intents|
  {
    if intents != [] {
      var r := StepOne(m, goal, intents[0], turn, evidence);
      if r.Ok? {
        assert r.value.states.Keys == m.states.Keys;
        StepsKeepIntents(r.value, goal, intents[1..], turn, evidence);
      }
    }
  }

  /** One accepted action, from `raise_intents` to the decision how to go on (lines 101-159). */
  method Turn(w: World, state: IntentStateMachine, d: Dialogue, turnId: nat, action: UserAction)
    returns (after: Dialogue, stop: Option<Reason>)
    requires KeyIntents(w.scenario) != []
    requires d.machine == state.Abstract() && Tracks(d.machine, KeyIntents(w.scenario))
    modifies state
    ensures after.machine == state.Abstract() && Tracks(after.machine, KeyIntents(w.scenario))
    ensures Respond(w, d, turnId, action) == if stop.Some? then Stop(after, stop.value) else Next(after)
  {
    var historyStart := |state.history|;
    StepsKeepIntents(state.Abstract(), Raise, action.targets, turnId, [UserTurn(turnId)]);
    var raised := state.Handle(Raise, action.targets, turnId, [UserTurn(turnId)]);
    if raised.Err? {
      return d.(machine := Machine(state.states, state.history)), Some(SimulatorContractError);
    }
    var messages := d.messages;
    if !(messages != [] && messages[|messages| - 1].role == "user" && messages[|messages| - 1].content == action.message) {
      messages := messages + [Message("user", action.message)];
    }
    var trace := InvokeAgent(w, messages, turnId);
    var addressed := AddressedIntents(action, trace);
    StepsKeepIntents(state.Abstract(), Address, addressed, turnId, TraceEvidence(trace, turnId));
    var moved := state.Handle(Address, addressed, turnId, TraceEvidence(trace, turnId));
    if moved.Err? {
      return Dialogue(d.actions, d.turns, messages, Machine(state.states, state.history)), Some(AgentContractError);
    }
    var turn := TurnTrace(turnId, action, trace, action.targets, addressed, state.states, state.history[historyStart..],
                          addressed != [] || action.targets == []);
    after := Dialogue(d.actions, d.turns + [turn], messages, Machine(state.states, state.history));
    after, stop := ConcludeTurn(w, state, after, turn);
  }

  /** The part of the loop body after a turn is recorded (lines 148-159). */
  method ConcludeTurn(w: World, state: IntentStateMachine, d: Dialogue, turn: TurnTrace)
    returns (after: Dialogue, stop: Option<Reason>)
    requires KeyIntents(w.scenario) != []
    requires d.machine == state.Abstract() && Tracks(d.machine, KeyIntents(w.scenario))
    ensures after.machine == d.machine
    ensures Conclude(w, d, turn) == if stop.Some? then Stop(after, stop.value) else Next(after)
  {
    after := d;
    if turn.trace.status.Fail? {
      return after, Some(AgentFailed(FailureText(turn.trace)));
    }
    if Strip(turn.trace.response) != "" {
      after := after.(messages := after.messages + [Message("assistant", turn.trace.response)]);
    }
    if turn.action.kind.Abandon? {
      return after, Some(UserAbandoned);
    }
    var all := state.AllAddressed(KeyIntents(w.scenario));
    return after, if all then Some(AllKeyIntentsAddressed) else None;
  }

  /** One pass through the loop (lines 75-159). */
  method OneTurn(w: World, state: IntentStateMachine, d: Dialogue, turnId: nat)
    returns (after: Dialogue, stop: Option<Reason>)
    requires KeyIntents(w.scenario) != []
    requires d.machine == state.Abstract() && Tracks(d.machine, KeyIntents(w.scenario))
    modifies state
    ensures after.machine == state.Abstract() && Tracks(after.machine, KeyIntents(w.scenario))
    ensures PlayTurn(w, d, turnId) == if stop.Some? then Stop(after, stop.value) else Next(after)
  {
    if w.cancelled(turnId) {
      return d, Some(Cancelled);
    }
    if w.timedOut(turnId) {
      return d, Some(ScenarioTimeout);
    }
    var pending := Pending(KeyIntents(w.scenario), state);
    var action := NextAction(w.provider, w.scenario, d.actions, LastResponse(d.turns), pending);
    if action.Err? {
      return d, Some(SimulatorFailed(action.error));
    }
    after := d.(actions := d.actions + [action.value]);
    var repeats := CountRepeats(after.actions, action.value);
    if repeats >= w.config.maxRepeatedAction {
      return after, Some(SimulatorNoProgress);
    }
    after, stop := Turn(w, state, after, turnId, action.value);
  }

  /** MultiTurnRunner.run; also the final state machine, which the source discards. */
  method Run(w: World) returns (report: Report, final: Machine)
    requires ValidScenario(w.scenario) && ValidConfig(w.config)
    ensures var (d, reason) := PlayAll(w);
      report == ReportOf(w.scenario, d.turns, reason.Text(), reason.Status()) && final == d.machine
  {
    TrackedIntentsAreTheAgenda(w.scenario);
    var keys := KeyIntents(w.scenario);
    var created := NewMachine(TrackedIntents(w.scenario));
    var state := created.value;
    var d := Opened(w.scenario);
    var stop: Option<Reason> := None;
    var turnId := 1;
    assert forall i :: 0 <= i < |keys| ==> TrackedIntents(w.scenario)[i] == keys[i];
    while turnId <= TurnLimit(w) && stop.None?
      invariant d.machine == state.Abstract() && Tracks(d.machine, keys)
      invariant PlayAll(w) == if stop.Some? then (d, stop.value) else Play(w, d, turnId)
      modifies state
      decreases TurnLimit(w) + 1 - turnId
    {
      d, stop := OneTurn(w, state, d, turnId);
      turnId := turnId + 1;
    }
    var reason := if stop.Some? then stop.value else MaxTurnsReached;
    report := VerifyTurns(w.scenario, d.turns, reason.Text(), reason.Status());
    final := d.machine;
  }
}
