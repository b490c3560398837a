/**
 What was said and why the dialogue stopped, for every dialogue: the messages that the agent was given turn
 by turn, what simulator and agent made of them, and the cause of each ending (src/harness/multiturn_runner.py:75-163).
 */
module MultiTurnTranscript {
  import opened Prelude
  import opened Text
  import opened IntentState
  import opened MultiTurnSchema
  import opened UserSimulator
  import opened MultiTurnVerifier
  import opened MultiTurnRunner
  import opened MultiTurnGuarantees

  // ---------------------------------------------------------------- what the agent was given

  predicate IsLast(messages: seq<Message>, m: Message) {
    messages != [] && messages[|messages| - 1] == m
  }

  /** The user's message follows what came before, unless it already stands there as the last word. */
  predicate AskedWith(before: seq<Message>, text: string, given: seq<Message>) {
    if IsLast(before, Message("user", text)) then given == before else given == before + [Message("user", text)]
  }

  /** A blank response is not heard. */
  function Reply(turn: TurnTrace): seq<Message> {
    if Strip(turn.trace.response) == "" then [] else [Message("assistant", turn.trace.response)]
  }

  /** The conversation before the turn with this index. */
  function Before(initial: seq<Message>, turns: seq<TurnTrace>, given: seq<seq<Message>>, k: nat): seq<Message>
    requires k <= |turns| && k <= |given|
  {
    if k == 0 then initial else given[k - 1] + Reply(turns[k - 1])
  }

  /** In turn k the agent is given the conversation so far and then the user's message. */
  predicate ConversedAt(initial: seq<Message>, turns: seq<TurnTrace>, given: seq<seq<Message>>, k: nat)
    requires k < |turns| == |given|
  {
    AskedWith(Before(initial, turns, given, k), turns[k].action.message, given[k])
  }

  ghost predicate Conversed(initial: seq<Message>, turns: seq<TurnTrace>, given: seq<seq<Message>>) {
    |given| == |turns| && forall k :: 0 <= k < |turns| ==> ConversedAt(initial, turns, given, k)
  }

  /** The trace is the agent's own answer to these messages, or says why there is none. */
  ghost predicate Said(w: World, messages: seq<Message>, turnId: nat, trace: Trace) {
    && trace.caseId == w.scenario.scenarioId
    && if w.cancelledBeforeAgent(turnId) then FailsWith(trace, "cancelled")
       else
         match w.agent(messages, turnId)
         case TimedOut => FailsWith(trace, "agent_turn_timeout")
         case AgentRaised => FailsWith(trace, "agent_turn_failed")
         case Answer(answer) => trace == answer.(caseId := trace.caseId)
  }

  ghost predicate AllSaid(w: World, turns: seq<TurnTrace>, given: seq<seq<Message>>) {
    |given| == |turns| && forall k :: 0 <= k < |turns| ==> Said(w, given[k], k + 1, turns[k].trace)
  }

  // ---------------------------------------------------------------- what the simulator was asked

  /** `sub` consists of the elements of `all` at these ascending positions. */
  ghost predicate PickedAt(at: seq<nat>, sub: seq<string>, all: seq<string>) {
    && |at| == |sub|
    && (forall j :: 0 <= j < |at| ==> at[j] < |all| && all[at[j]] == sub[j])
    && forall j, k :: 0 <= j < k < |at| ==> at[j] < at[k]
  }

  /** Exactly the keys not addressed yet, in agenda order. */
  ghost predicate OpenKeys(keys: seq<string>, addressed: set<string>, pending: seq<string>) {
    && (forall i :: i in pending <==> i in keys && i !in addressed)
    && exists at :: PickedAt(at, pending, keys)
  }

  /** What the provider makes of the earlier actions, the agent's last response and the open keys. */
  ghost predicate Provides(w: World, actions: seq<UserAction>, turns: seq<TurnTrace>, reply: ProviderReply) {
    exists pending ::
      && OpenKeys(KeyIntents(w.scenario), AddressedIn(turns), pending)
      && w.provider(w.scenario, actions, if turns == [] then "" else turns[|turns| - 1].trace.response, pending) == reply
  }

  /** Every action is the provider's own, and keeps the scenario's contract. */
  ghost predicate Proposed(w: World, actions: seq<UserAction>, turns: seq<TurnTrace>) {
    && |turns| <= |actions| <= |turns| + 1
    && forall k :: 0 <= k < |actions| ==>
         Provides(w, actions[..k], turns[..k], Produced(actions[k])) && Violation(actions[k], w.scenario).None?
  }

  /** The last r actions are of one kind and message. */
  ghost predicate Streak(actions: seq<UserAction>, r: nat) {
    && 0 < r <= |actions|
    && forall j :: |actions| - r <= j < |actions| ==> Repeats(actions[j], actions[|actions| - 1])
  }

  // ---------------------------------------------------------------- what was recorded

  predicate AllAddressedIn(keys: seq<string>, turns: seq<TurnTrace>) {
    forall i :: 0 <= i < |keys| ==> keys[i] in AddressedIn(turns)
  }

  /** The dialogue goes on after its turn k. */
  ghost predicate GoesOn(w: World, turns: seq<TurnTrace>, k: nat)
    requires k < |turns|
  {
    && !turns[k].trace.status.Fail? && !turns[k].action.kind.Abandon?
    && !AllAddressedIn(KeyIntents(w.scenario), turns[..k + 1])
  }

  /** A turn was played neither cancelled nor timed out, before the action repeated too often, and says what it is about. */
  ghost predicate PlayedAt(w: World, actions: seq<UserAction>, turns: seq<TurnTrace>, k: nat)
    requires k < |turns| <= |actions|
  {
    && !w.cancelled(k + 1) && !w.timedOut(k + 1) && !Streak(actions[..k + 1], w.config.maxRepeatedAction)
    && turns[k].action == actions[k] && turns[k].raised == actions[k].targets
    && turns[k].addressed == AddressedIntents(actions[k], turns[k].trace)
    && (turns[k].verifierPass <==> turns[k].addressed != [] || actions[k].targets == [])
  }

  ghost predicate Played(w: World, actions: seq<UserAction>, turns: seq<TurnTrace>) {
    && |turns| <= |actions|
    && forall k :: 0 <= k < |turns| ==> PlayedAt(w, actions, turns, k)
  }

  ghost predicate WentOn(w: World, turns: seq<TurnTrace>, n: nat) {
    forall k :: 0 <= k < n && k < |turns| ==> GoesOn(w, turns, k)
  }

  /** Everything that was said, asked and recorded. */
  ghost predicate Told(w: World, actions: seq<UserAction>, turns: seq<TurnTrace>, given: seq<seq<Message>>) {
    && Conversed(w.scenario.initialMessages, turns, given)
    && AllSaid(w, turns, given)
    && Proposed(w, actions, turns)
    && Played(w, actions, turns)
  }

  /** The cause of each ending. */
  ghost predicate StopsFor(w: World, actions: seq<UserAction>, turns: seq<TurnTrace>, reason: Reason) {
    var n := |turns|;
    var next := n < w.config.maxTurns && n < w.scenario.maxTurns && WentOn(w, turns, n);
    match reason
    case Cancelled => next && |actions| == n && w.cancelled(n + 1)
    case ScenarioTimeout => next && |actions| == n && !w.cancelled(n + 1) && w.timedOut(n + 1)
    case SimulatorFailed(error) =>
      && next && |actions| == n && !w.cancelled(n + 1) && !w.timedOut(n + 1)
      && exists reply :: Provides(w, actions, turns, reply) && Refused(w.scenario, reply, error)
    case SimulatorNoProgress =>
      && next && |actions| == n + 1 && !w.cancelled(n + 1) && !w.timedOut(n + 1)
      && Streak(actions, w.config.maxRepeatedAction)
    case AgentFailed(text) =>
      && 0 < n && |actions| == n && WentOn(w, turns, n - 1)
      && turns[n - 1].trace.status.Fail? && text == FailureText(turns[n - 1].trace)
    case UserAbandoned =>
      && 0 < n && |actions| == n && WentOn(w, turns, n - 1)
      && !turns[n - 1].trace.status.Fail? && turns[n - 1].action.kind.Abandon?
    case AllKeyIntentsAddressed =>
      && 0 < n && |actions| == n && WentOn(w, turns, n - 1)
      && !turns[n - 1].trace.status.Fail? && !turns[n - 1].action.kind.Abandon?
      && AllAddressedIn(KeyIntents(w.scenario), turns)
    case MaxTurnsReached =>
      && WentOn(w, turns, n) && |actions| == n
      && n <= w.config.maxTurns && n <= w.scenario.maxTurns && (n == w.config.maxTurns || n == w.scenario.maxTurns)
    case SimulatorContractError => false
    case AgentContractError => false
  }

  predicate Refused(s: Scenario, reply: ProviderReply, error: string) {
    match reply
    case Unavailable => error == "simulator_provider_unavailable"
    case Unparsable => error == "invalid_user_action"
    case Produced(action) => Violation(action, s) == Some(error)
  }

  /** A dialogue between two turns. */
  ghost predicate Pausing(w: World, d: Dialogue, given: seq<seq<Message>>) {
    && Told(w, d.actions, d.turns, given) && |d.actions| == |d.turns|
    && WentOn(w, d.turns, |d.turns|)
    && d.messages == Before(w.scenario.initialMessages, d.turns, given, |d.turns|)
  }

  // ---------------------------------------------------------------- one more turn

  lemma ConversedSnoc(initial: seq<Message>, turns: seq<TurnTrace>, given: seq<seq<Message>>, turn: TurnTrace, messages: seq<Message>)
    requires Conversed(initial, turns, given)
    requires AskedWith(Before(initial, turns, given, |turns|), turn.action.message, messages)
    ensures Conversed(initial, turns + [turn], given + [messages])
  {
    var longer, more := turns + [turn], given + [messages];
    forall k | 0 <= k < |longer| ensures ConversedAt(initial, longer, more, k) {
      BeforeIsKept(initial, turns, given, turn, messages, k);
      if k < |turns| {
        assert ConversedAt(initial, turns, given, k);
      }
    }
  }

  lemma BeforeIsKept(initial: seq<Message>, turns: seq<TurnTrace>, given: seq<seq<Message>>, turn: TurnTrace, messages: seq<Message>, k: nat)
    requires k <= |turns| == |given|
    ensures Before(initial, turns + [turn], given + [messages], k) == Before(initial, turns, given, k)
  {
  }

  lemma AllSaidSnoc(w: World, turns: seq<TurnTrace>, given: seq<seq<Message>>, turn: TurnTrace, messages: seq<Message>)
    requires AllSaid(w, turns, given) && Said(w, messages, |turns| + 1, turn.trace)
    ensures AllSaid(w, turns + [turn], given + [messages])
  {
  }

  lemma ProposedSnoc(w: World, actions: seq<UserAction>, turns: seq<TurnTrace>, action: UserAction)
    requires Proposed(w, actions, turns) && |actions| == |turns|
    requires Provides(w, actions, turns, Produced(action)) && Violation(action, w.scenario).None?
    ensures Proposed(w, actions + [action], turns)
  {
    var longer := actions + [action];
    forall k | 0 <= k < |longer|
      ensures Provides(w, longer[..k], turns[..k], Produced(longer[k])) && Violation(longer[k], w.scenario).None?
    {
      assert longer[..k] == actions[..k] && (k == |actions| ==> actions[..k] == actions && turns[..k] == turns);
    }
  }

  lemma RecordingKeepsProposed(w: World, actions: seq<UserAction>, turns: seq<TurnTrace>, turn: TurnTrace)
    requires Proposed(w, actions, turns) && |actions| == |turns| + 1
    ensures Proposed(w, actions, turns + [turn])
  {
    forall k | 0 <= k < |actions|
      ensures Provides(w, actions[..k], (turns + [turn])[..k], Produced(actions[k])) && Violation(actions[k], w.scenario).None?
    {
      assert (turns + [turn])[..k] == turns[..k];
    }
  }

  lemma PlayedSnoc(w: World, actions: seq<UserAction>, turns: seq<TurnTrace>, turn: TurnTrace)
    requires |actions| == |turns| + 1 && Played(w, actions[..|turns|], turns)
    requires PlayedAt(w, actions, turns + [turn], |turns|)
    ensures Played(w, actions, turns + [turn])
  {
    var longer, earlier := turns + [turn], actions[..|turns|];
    forall k | 0 <= k < |turns| ensures PlayedAt(w, actions, longer, k) {
      assert PlayedAt(w, earlier, turns, k) && earlier[..k + 1] == actions[..k + 1];
    }
  }

  lemma WentOnSnoc(w: World, turns: seq<TurnTrace>, turn: TurnTrace)
    requires WentOn(w, turns, |turns|)
    ensures WentOn(w, turns + [turn], |turns|)
    ensures GoesOn(w, turns + [turn], |turns|) ==> WentOn(w, turns + [turn], |turns| + 1)
  {
    var longer := turns + [turn];
    forall k | 0 <= k < |turns| ensures GoesOn(w, longer, k) {
      assert GoesOn(w, turns, k) && longer[..k + 1] == turns[..k + 1];
    }
  }

  // ---------------------------------------------------------------- pending intents and streaks

  /** The pending intents are the open ones, each at its place in the agenda. */
  lemma {:induction false} PendingIsPicked(keys: seq<string>, states: map<string, IntentStatus>) returns (at: seq<nat>)
    ensures PickedAt(at, PendingOf(keys, states), keys)
  {
    if keys == [] {
      return [];
    }
    var later := PendingIsPicked(keys[1..], states);
    at := PickedNext(later, PendingOf(keys[1..], states), keys, !DoneIn(states, keys[0]));
  }

  lemma PickedNext(later: seq<nat>, rest: seq<string>, keys: seq<string>, first: bool) returns (at: seq<nat>)
    requires keys != [] && PickedAt(later, rest, keys[1..])
    ensures PickedAt(at, (if first then [keys[0]] else []) + rest, keys)
  {
    var shifted := seq(|later|, j requires 0 <= j < |later| => later[j] + 1);
    at := if first then [0] + shifted else shifted;
    assert forall j :: 0 <= j < |later| ==> keys[later[j] + 1] == keys[1..][later[j]];
  }

  lemma {:induction false} PendingMembers(keys: seq<string>, states: map<string, IntentStatus>, i: string)
    ensures i in PendingOf(keys, states) <==> i in keys && !DoneIn(states, i)
  {
    if keys != [] {
      PendingMembers(keys[1..], states, i);
      assert keys == [keys[0]] + keys[1..];
    }
  }

  lemma PendingIsOpen(keys: seq<string>, states: map<string, IntentStatus>, turns: seq<TurnTrace>)
    requires SameSets(states, turns) && forall i :: i in keys ==> i in states
    ensures OpenKeys(keys, AddressedIn(turns), PendingOf(keys, states))
  {
    var at := PendingIsPicked(keys, states);
    forall i ensures i in PendingOf(keys, states) <==> i in keys && i !in AddressedIn(turns) {
      PendingMembers(keys, states, i);
    }
  }

  lemma AllDoneIsAllAddressed(keys: seq<string>, states: map<string, IntentStatus>, turns: seq<TurnTrace>)
    requires SameSets(states, turns) && forall i :: i in keys ==> i in states
    ensures AllDone(keys, states) <==> AllAddressedIn(keys, turns)
  {
    forall k | 0 <= k < |keys| ensures DoneIn(states, keys[k]) <==> keys[k] in AddressedIn(turns) {
      assert keys[k] in keys;
    }
  }

  predicate Alike(action: UserAction, kind: ActionKind, message: string) {
    action.kind == kind && action.message == message
  }

  lemma {:induction false} RepeatsAreCounted(actions: seq<UserAction>, kind: ActionKind, message: string, r: nat)
    ensures RepeatCount(actions, kind, message) >= r
       <==> r <= |actions| && forall j :: |actions| - r <= j < |actions| ==> Alike(actions[j], kind, message)
    decreases |actions|
  {
    if actions != [] && r > 0 {
      var n := |actions| - 1;
      RepeatsAreCounted(actions[..n], kind, message, r - 1);
      if r <= |actions| && Alike(actions[n], kind, message) {
        assert forall j :: |actions| - r <= j < n ==> actions[..n][j] == actions[j];
      }
    }
  }

  lemma StreakIsCounted(actions: seq<UserAction>, action: UserAction, r: nat)
    requires 0 < r
    ensures RepeatCount(actions + [action], action.kind, action.message) >= r <==> Streak(actions + [action], r)
  {
    var longer := actions + [action];
    RepeatsAreCounted(longer, action.kind, action.message, r);
    if r <= |longer| {
      forall j | |longer| - r <= j < |longer| ensures Alike(longer[j], action.kind, action.message) <==> Repeats(longer[j], longer[|longer| - 1]) {
      }
    }
  }

  // ---------------------------------------------------------------- one turn

  lemma TraceIsSaid(w: World, messages: seq<Message>, turnId: nat)
    ensures Said(w, messages, turnId, TraceOf(w, messages, turnId))
  {
  }

  /** The dialogue with one more turn recorded. */
  lemma TurnIsTold(w: World, d: Dialogue, given: seq<seq<Message>>, turn: TurnTrace, messages: seq<Message>, actions: seq<UserAction>)
    requires Pausing(w, d, given) && actions == d.actions + [turn.action]
    requires AskedWith(d.messages, turn.action.message, messages) && Said(w, messages, |d.turns| + 1, turn.trace)
    requires Provides(w, d.actions, d.turns, Produced(turn.action)) && Violation(turn.action, w.scenario).None?
    requires PlayedAt(w, actions, d.turns + [turn], |d.turns|)
    ensures Conversed(w.scenario.initialMessages, d.turns + [turn], given + [messages])
    ensures AllSaid(w, d.turns + [turn], given + [messages])
    ensures Proposed(w, actions, d.turns + [turn])
    ensures Played(w, actions, d.turns + [turn])
  {
    ConversedSnoc(w.scenario.initialMessages, d.turns, given, turn, messages);
    AllSaidSnoc(w, d.turns, given, turn, messages);
    ProposedSnoc(w, d.actions, d.turns, turn.action);
    RecordingKeepsProposed(w, actions, d.turns, turn);
    assert actions[..|d.turns|] == d.actions;
    PlayedSnoc(w, actions, d.turns, turn);
  }

  lemma ConcludeIs(w: World, r: Dialogue, turn: TurnTrace)
    ensures var fails, leaves := turn.trace.status.Fail?, turn.action.kind.Abandon?;
      var done := AllDone(KeyIntents(w.scenario), r.machine.states);
      match Conclude(w, r, turn)
      case Next(d') => !fails && !leaves && !done && d' == r.(messages := r.messages + Reply(turn))
      case Stop(d', reason) =>
        && d'.turns == r.turns && d'.actions == r.actions && d'.machine == r.machine
        && reason == (if fails then AgentFailed(FailureText(turn.trace)) else if leaves then UserAbandoned else AllKeyIntentsAddressed)
        && (fails || leaves || done)
  {
    assert r.messages + [] == r.messages;
  }

  lemma NextGoesOn(w: World, earlier: seq<TurnTrace>, turn: TurnTrace)
    requires WentOn(w, earlier, |earlier|)
    requires !turn.trace.status.Fail? && !turn.action.kind.Abandon? && !AllAddressedIn(KeyIntents(w.scenario), earlier + [turn])
    ensures WentOn(w, earlier + [turn], |earlier| + 1)
  {
    WentOnSnoc(w, earlier, turn);
    assert (earlier + [turn])[..|earlier| + 1] == earlier + [turn];
  }

  lemma StopIsCaused(w: World, actions: seq<UserAction>, earlier: seq<TurnTrace>, turn: TurnTrace, reason: Reason)
    requires |actions| == |earlier| + 1 && WentOn(w, earlier, |earlier|)
    requires turn.trace.status.Fail? || turn.action.kind.Abandon? || AllAddressedIn(KeyIntents(w.scenario), earlier + [turn])
    requires reason == if turn.trace.status.Fail? then AgentFailed(FailureText(turn.trace))
                       else if turn.action.kind.Abandon? then UserAbandoned else AllKeyIntentsAddressed
    ensures StopsFor(w, actions, earlier + [turn], reason)
  {
    WentOnSnoc(w, earlier, turn);
  }

  /** How a told turn ends or continues the dialogue. */
  ghost predicate TurnTold(w: World, given: seq<seq<Message>>, result: TurnResult) {
    match result
    case Next(d') => Pausing(w, d', given)
    case Stop(d', reason) => Told(w, d'.actions, d'.turns, given) && StopsFor(w, d'.actions, d'.turns, reason)
  }

  lemma ConclusionIsTold(w: World, earlier: seq<TurnTrace>, r: Dialogue, turn: TurnTrace, given: seq<seq<Message>>)
    requires Told(w, r.actions, r.turns, given) && |r.actions| == |r.turns| && r.turns == earlier + [turn] && WentOn(w, earlier, |earlier|)
    requires AllDone(KeyIntents(w.scenario), r.machine.states) <==> AllAddressedIn(KeyIntents(w.scenario), r.turns)
    requires r.messages == given[|earlier|]
    ensures TurnTold(w, given, Conclude(w, r, turn))
  {
    ConcludeIs(w, r, turn);
    match Conclude(w, r, turn)
    case Next(_) => NextGoesOn(w, earlier, turn);
    case Stop(d', reason) => StopIsCaused(w, d'.actions, earlier, turn, reason);
  }

  /** Every key intent is tracked by the machine of a dialogue. */
  lemma KeysAreTracked(s: Scenario, m: Machine)
    requires ValidScenario(s) && Consistent(m, Fresh(TrackedIntents(s)).states)
    ensures forall i :: i in KeyIntents(s) ==> i in m.states
  {
    forall i | i in KeyIntents(s) ensures i in Fresh(TrackedIntents(s)).states {
      assert i in TrackedIntents(s);
    }
  }

  lemma SimulatorIsAsked(w: World, d: Dialogue)
    requires ValidScenario(w.scenario) && Matches(w.scenario, d.machine, d.turns)
    ensures exists reply ::
      && Provides(w, d.actions, d.turns, reply)
      && (Asked(w, d).Ok? ==> reply == Produced(Asked(w, d).value) && Violation(Asked(w, d).value, w.scenario).None?)
      && (Asked(w, d).Err? ==> Refused(w.scenario, reply, Asked(w, d).error))
  {
    KeysAreTracked(w.scenario, d.machine);
    var pending := PendingOf(KeyIntents(w.scenario), d.machine.states);
    PendingIsOpen(KeyIntents(w.scenario), d.machine.states, d.turns);
    var reply := w.provider(w.scenario, d.actions, LastResponse(d.turns), pending);
    assert Provides(w, d.actions, d.turns, reply);
  }

  /** An accepted action leads to a told turn. */
  lemma AcceptedTurnIsTold(w: World, d: Dialogue, given: seq<seq<Message>>, action: UserAction)
    requires ValidScenario(w.scenario) && ValidConfig(w.config) && Pausing(w, d, given) && Going(w, d)
    requires Accepted(w, d, |d.turns| + 1) && Asked(w, d) == Ok(action)
    ensures TurnTold(w, given + [WithUserMessage(d.messages, action.message)], PlayTurn(w, d, |d.turns| + 1))
  {
    var turnId, asked := |d.turns| + 1, d.(actions := d.actions + [action]);
    AcceptedTurnResponds(w, d, turnId);
    AcceptedTargetsAreTracked(w, d, action);
    AcceptedActionIsRecorded(w, asked, turnId, action);
    RecordedMatches(w, asked, turnId, action);
    RecordedIsTold(w, d, given, action);
    var r, turn := Recorded(w, asked, turnId, action), TurnOf(w, asked, turnId, action);
    KeysAreTracked(w.scenario, r.machine);
    AllDoneIsAllAddressed(KeyIntents(w.scenario), r.machine.states, r.turns);
    ConclusionIsTold(w, d.turns, r, turn, given + [WithUserMessage(d.messages, action.message)]);
  }

  /** What an accepted action records. */
  lemma TurnOfIs(w: World, d: Dialogue, turnId: nat, action: UserAction)
    requires |d.machine.history| <= |AddressedBy(w, d, turnId, action).history|
    ensures var turn := TurnOf(w, d, turnId, action);
      && turn.action == action && turn.raised == action.targets && turn.addressed == AddressedIntents(action, turn.trace)
      && (turn.verifierPass <==> turn.addressed != [] || action.targets == [])
      && Said(w, WithUserMessage(d.messages, action.message), turnId, turn.trace)
  {
    TraceIsSaid(w, WithUserMessage(d.messages, action.message), turnId);
  }

  lemma AcceptedIs(w: World, d: Dialogue, action: UserAction)
    requires ValidScenario(w.scenario) && ValidConfig(w.config) && Matches(w.scenario, d.machine, d.turns)
    requires Accepted(w, d, |d.turns| + 1) && Asked(w, d) == Ok(action)
    ensures !w.cancelled(|d.turns| + 1) && !w.timedOut(|d.turns| + 1)
    ensures !Streak(d.actions + [action], w.config.maxRepeatedAction)
    ensures Provides(w, d.actions, d.turns, Produced(action)) && Violation(action, w.scenario).None?
  {
    SimulatorIsAsked(w, d);
    StreakIsCounted(d.actions, action, w.config.maxRepeatedAction);
  }

  lemma RecordedIsTold(w: World, d: Dialogue, given: seq<seq<Message>>, action: UserAction)
    requires ValidScenario(w.scenario) && ValidConfig(w.config) && Pausing(w, d, given) && Matches(w.scenario, d.machine, d.turns)
    requires Accepted(w, d, |d.turns| + 1) && Asked(w, d) == Ok(action)
    requires var asked := d.(actions := d.actions + [action]);
      |d.machine.history| <= |AddressedBy(w, asked, |d.turns| + 1, action).history|
    ensures var asked := d.(actions := d.actions + [action]);
      Told(w, asked.actions, d.turns + [TurnOf(w, asked, |d.turns| + 1, action)], given + [WithUserMessage(d.messages, action.message)])
  {
    var asked := d.(actions := d.actions + [action]);
    AcceptedIs(w, d, action);
    TurnOfIs(w, asked, |d.turns| + 1, action);
    PlayedNow(w, asked.actions, d.turns, TurnOf(w, asked, |d.turns| + 1, action));
    TurnIsTold(w, d, given, TurnOf(w, asked, |d.turns| + 1, action), WithUserMessage(d.messages, action.message), asked.actions);
  }

  lemma PlayedNow(w: World, actions: seq<UserAction>, turns: seq<TurnTrace>, turn: TurnTrace)
    requires |actions| == |turns| + 1 && !w.cancelled(|actions|) && !w.timedOut(|actions|)
    requires !Streak(actions, w.config.maxRepeatedAction)
    requires turn.action == actions[|turns|] && turn.raised == turn.action.targets
    requires turn.addressed == AddressedIntents(turn.action, turn.trace)
    requires turn.verifierPass <==> turn.addressed != [] || turn.action.targets == []
    ensures PlayedAt(w, actions, turns + [turn], |turns|)
  {
    assert actions[..|turns| + 1] == actions;
  }

  /** The simulator is not asked, or gives no action. */
  lemma UnaskedTurnIsTold(w: World, d: Dialogue, given: seq<seq<Message>>)
    requires ValidScenario(w.scenario) && Pausing(w, d, given) && Going(w, d) && |d.turns| < TurnLimit(w)
    requires w.cancelled(|d.turns| + 1) || w.timedOut(|d.turns| + 1) || Asked(w, d).Err?
    ensures TurnTold(w, given, PlayTurn(w, d, |d.turns| + 1))
  {
    SimulatorIsAsked(w, d);
  }

  /** The simulator repeats itself. */
  lemma StuckTurnIsTold(w: World, d: Dialogue, given: seq<seq<Message>>, action: UserAction)
    requires ValidScenario(w.scenario) && ValidConfig(w.config) && Pausing(w, d, given) && Matches(w.scenario, d.machine, d.turns)
    requires Asked(w, d) == Ok(action)
    requires RepeatCount(d.actions + [action], action.kind, action.message) >= w.config.maxRepeatedAction
    ensures Told(w, d.actions + [action], d.turns, given) && Streak(d.actions + [action], w.config.maxRepeatedAction)
  {
    SimulatorIsAsked(w, d);
    StreakIsCounted(d.actions, action, w.config.maxRepeatedAction);
    ProposedSnoc(w, d.actions, d.turns, action);
    PlayedSoFar(w, d.actions, d.turns, action);
  }

  lemma StuckTurnIs(w: World, d: Dialogue, action: UserAction)
    requires !w.cancelled(|d.turns| + 1) && !w.timedOut(|d.turns| + 1) && Asked(w, d) == Ok(action)
    requires RepeatCount(d.actions + [action], action.kind, action.message) >= w.config.maxRepeatedAction
    ensures PlayTurn(w, d, |d.turns| + 1) == Stop(d.(actions := d.actions + [action]), SimulatorNoProgress)
  {
  }

  /** A turn that ends before the agent is called. */
  lemma UnacceptedTurnIsTold(w: World, d: Dialogue, given: seq<seq<Message>>)
    requires ValidScenario(w.scenario) && ValidConfig(w.config) && Pausing(w, d, given) && Going(w, d)
    requires |d.turns| < TurnLimit(w) && !Accepted(w, d, |d.turns| + 1)
    ensures TurnTold(w, given, PlayTurn(w, d, |d.turns| + 1))
  {
    if w.cancelled(|d.turns| + 1) || w.timedOut(|d.turns| + 1) || Asked(w, d).Err? {
      UnaskedTurnIsTold(w, d, given);
    } else {
      var action := Asked(w, d).value;
      StuckTurnIs(w, d, action);
      StuckTurnIsTold(w, d, given, action);
    }
  }

  lemma PlayedSoFar(w: World, actions: seq<UserAction>, turns: seq<TurnTrace>, action: UserAction)
    requires Played(w, actions, turns)
    ensures Played(w, actions + [action], turns)
  {
    forall k | 0 <= k < |turns| ensures PlayedAt(w, actions + [action], turns, k) {
      assert PlayedAt(w, actions, turns, k) && (actions + [action])[..k + 1] == actions[..k + 1];
    }
  }

  // ---------------------------------------------------------------- the whole dialogue

  /** How a whole dialogue was told and stopped. */
  ghost predicate DialogueTold(w: World, given: seq<seq<Message>>, result: (Dialogue, Reason)) {
    Told(w, result.0.actions, result.0.turns, given) && StopsFor(w, result.0.actions, result.0.turns, result.1)
  }

  lemma {:induction false} PlayIsTold(w: World, d: Dialogue, turnId: nat, given: seq<seq<Message>>) returns (more: seq<seq<Message>>)
    requires ValidScenario(w.scenario) && ValidConfig(w.config) && Pausing(w, d, given) && Going(w, d)
    requires turnId == |d.turns| + 1 && |d.turns| <= TurnLimit(w)
    ensures DialogueTold(w, more, Play(w, d, turnId))
    decreases TurnLimit(w) - |d.turns|
  {
    more := given;
    if |d.turns| < TurnLimit(w) {
      if Accepted(w, d, |d.turns| + 1) {
        more := given + [WithUserMessage(d.messages, Asked(w, d).value.message)];
        AcceptedTurnIsTold(w, d, given, Asked(w, d).value);
      } else {
        UnacceptedTurnIsTold(w, d, given);
      }
      TurnKeepsGoing(w, d, |d.turns| + 1);
      match PlayTurn(w, d, |d.turns| + 1)
      case Next(d') => more := PlayIsTold(w, d', turnId + 1, more);
      case Stop(_, _) =>
    }
  }

  lemma OpenedIsPausing(w: World)
    ensures Pausing(w, Opened(w.scenario), [])
  {
  }

  lemma PlayAllIsTold(w: World) returns (given: seq<seq<Message>>)
    requires ValidScenario(w.scenario) && ValidConfig(w.config)
    ensures DialogueTold(w, given, PlayAll(w))
  {
    OpenedIsGoing(w);
    OpenedIsPausing(w);
    given := PlayIsTold(w, Opened(w.scenario), 1, []);
  }

  /**
   For any simulator and any agent there is one list of what the agent was given, turn by turn: the initial messages, then
   each earlier turn's user message and audible reply, then this turn's user message, added unless it was said already. Every
   trace answers exactly that, every action is the provider's own on what had happened, and the dialogue stops for its reason.
   */
  lemma EveryDialogueIsTold(w: World)
    requires ValidScenario(w.scenario) && ValidConfig(w.config)
    ensures exists given :: DialogueTold(w, given, PlayAll(w))
  {
    var given := PlayAllIsTold(w);
  }

  lemma AskingIsHeard(before: seq<Message>, text: string, given: seq<Message>)
    requires AskedWith(before, text, given)
    ensures IsLast(given, Message("user", text)) && before <= given && |given| <= |before| + 1
  {
  }

  predicate ExtendsAt<T(==)>(first: seq<T>, lists: seq<seq<T>>, k: nat)
    requires k < |lists|
  {
    (if k == 0 then first else lists[k - 1]) <= lists[k]
  }

  /** Each list extends the one before it, the first one this. */
  predicate Growing<T(==)>(first: seq<T>, lists: seq<seq<T>>) {
    forall k :: 0 <= k < |lists| ==> ExtendsAt(first, lists, k)
  }

  lemma {:induction false} GrowingKeepsFirst<T>(first: seq<T>, lists: seq<seq<T>>, k: nat)
    requires Growing(first, lists) && k < |lists|
    ensures first <= lists[k]
  {
    assert ExtendsAt(first, lists, k);
    if k > 0 {
      GrowingKeepsFirst(first, lists, k - 1);
    }
  }

  lemma NothingIsLost(initial: seq<Message>, turns: seq<TurnTrace>, given: seq<seq<Message>>)
    requires Conversed(initial, turns, given)
    ensures Growing(initial, given)
  {
    forall k | 0 <= k < |given| ensures ExtendsAt(initial, given, k) {
      assert ConversedAt(initial, turns, given, k);
      AskingIsHeard(Before(initial, turns, given, k), turns[k].action.message, given[k]);
      if k > 0 {
        SaidBefore(given[k - 1], Reply(turns[k - 1]), given[k]);
      }
    }
  }

  lemma SaidBefore<T>(earlier: seq<T>, more: seq<T>, later: seq<T>)
    requires earlier + more <= later
    ensures earlier <= later
  {
    assert earlier <= earlier + more;
  }

  /** So what the agent is given always ends with the user's message of the turn, and nothing said before is lost. */
  lemma TheUserHasTheLastWord(initial: seq<Message>, turns: seq<TurnTrace>, given: seq<seq<Message>>, k: nat)
    requires Conversed(initial, turns, given) && k < |turns|
    ensures IsLast(given[k], Message("user", turns[k].action.message))
    ensures Before(initial, turns, given, k) <= given[k] && |given[k]| <= |Before(initial, turns, given, k)| + 1
    ensures initial <= given[k]
  {
    assert ConversedAt(initial, turns, given, k);
    AskingIsHeard(Before(initial, turns, given, k), turns[k].action.message, given[k]);
    NothingIsLost(initial, turns, given);
    GrowingKeepsFirst(initial, given, k);
  }

  /** The dialogue's status: abandoned exactly when its last turn was the user's leaving, completed exactly when all key intents are addressed. */
  lemma StatusIsExact(w: World)
    requires ValidScenario(w.scenario) && ValidConfig(w.config)
    ensures var (d, reason) := PlayAll(w);
      && (reason.Status().Abandoned? <==> LeavesLast(d.turns))
      && (reason.Status().Completed? <==> AllAddressedIn(KeyIntents(w.scenario), d.turns))
  {
    EveryDialogueIsTold(w);
    LeavingIsAbandoned(w, PlayAll(w).0.actions, PlayAll(w).0.turns, PlayAll(w).1);
    CompletionIsExact(w);
  }

  predicate LeavesLast(turns: seq<TurnTrace>) {
    turns != [] && turns[|turns| - 1].action.kind.Abandon? && !turns[|turns| - 1].trace.status.Fail?
  }

  lemma LeavingIsAbandoned(w: World, actions: seq<UserAction>, turns: seq<TurnTrace>, reason: Reason)
    requires StopsFor(w, actions, turns, reason)
    ensures reason.Status().Abandoned? <==> LeavesLast(turns)
  {
    if turns != [] && WentOn(w, turns, |turns|) {
      assert GoesOn(w, turns, |turns| - 1);
    }
  }

  lemma CompletionIsExact(w: World)
    requires ValidScenario(w.scenario) && ValidConfig(w.config)
    ensures var (d, reason) := PlayAll(w);
      reason.Status().Completed? <==> AllAddressedIn(KeyIntents(w.scenario), d.turns)
  {
    DialoguesEndHonestly(w);
    OpenedIsGoing(w);
    PlayKeepsGoing(w, Opened(w.scenario), 1);
    var d := PlayAll(w).0;
    KeysAreTracked(w.scenario, d.machine);
    AllDoneIsAllAddressed(KeyIntents(w.scenario), d.machine.states, d.turns);
  }
}
