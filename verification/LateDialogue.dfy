/**
 The bound on rule-driven dialogues is reached: an agent that answers each key intent only when the user is
 about to stop asking makes the dialogue as long as it can be (src/harness/user_simulator.py:183-247).
 */
module LateDialogue {
  import opened Prelude
  import opened Listing
  import opened Text
  import opened IntentState
  import opened MultiTurnSchema
  import opened UserSimulator
  import opened MultiTurnVerifier
  import opened MultiTurnRunner
  import opened MultiTurnGuarantees
  import opened RuleDialogue

  function FactMessage(s: Scenario, fact: string): string {
    FactAction(s, "", fact).message
  }

  /** Nothing that the user says is held back, and no two facts read the same. */
  ghost predicate Plainspoken(s: Scenario) {
    && s.hidden == []
    && forall f, g :: f in Candidates(s) && g in Candidates(s) && FactMessage(s, f) == FactMessage(s, g) ==> f == g
  }

  // ---------------------------------------------------------------- the agent

  /** The intent due at time t when one is due every r turns. */
  function IntentAt(keys: seq<string>, t: int, r: nat): Option<string>
    decreases |keys|
  {
    if keys == [] || t < r then None
    else if t == r then Some(keys[0])
    else IntentAt(keys[1..], t - r, r)
  }

  lemma {:induction false} DueAt(keys: seq<string>, a: nat, k: nat, r: nat)
    requires a < |keys| && 1 <= k <= r
    ensures IntentAt(keys, a * r + k, r) == if k == r then Some(keys[a]) else None
    decreases a
  {
    if a > 0 {
      assert a * r + k - r == (a - 1) * r + k;
      assert a * r >= r;
      DueAt(keys[1..], a - 1, k, r);
      assert keys[1..][a - 1] == keys[a];
    }
  }

  const REPLY := "好的"

  function LateTrace(s: Scenario, r: nat, turnId: nat): Trace {
    Trace(s.scenarioId, IntentAt(KeyIntents(s), turnId - 1 - |SetOf(Candidates(s))|, r), None, REPLY, TraceStatus.Complete, [])
  }

  /** The rule simulator and that agent, without cancellation or timeout, and with a user who may ask twice. */
  ghost predicate Late(w: World) {
    && UsesRules(w) && ValidScenario(w.scenario) && Plainspoken(w.scenario) && w.config.maxRepeatedAction >= 2
    && (forall turnId :: !w.cancelled(turnId) && !w.timedOut(turnId) && !w.cancelledBeforeAgent(turnId))
    && (forall messages, turnId :: w.agent(messages, turnId) == Answer(LateTrace(w.scenario, w.config.maxRepeatedAction - 1, turnId)))
  }

  lemma ReplyIsHelpful()
    ensures Strip(REPLY) == REPLY && !IsUnhelpful(REPLY)
  {
    assert !IsSpace(REPLY[0]) && !IsSpace(REPLY[1]);
    assert TrimLeft(REPLY) == REPLY;
    assert |REPLY| == 2 && |"无法处理。"| == 5 && |"我不知道。"| == 5;
  }

  // ---------------------------------------------------------------- the invariant

  /** The last action, when it is a fact, reads like a revealed one. */
  ghost predicate LastFactIsKnown(s: Scenario, actions: seq<UserAction>) {
    actions != [] && actions[|actions| - 1].kind.ProvideFact? ==>
      exists g :: g in RevealedFacts(actions) && actions[|actions| - 1].message == FactMessage(s, g)
  }

  /** The account of the actions so far, exactly. */
  ghost predicate ExactAccount(s: Scenario, r: nat, actions: seq<UserAction>, a: nat)
    requires a < |KeyIntents(s)|
  {
    var asking := Asking(actions, KeyIntents(s)[a]);
    && RevealedFacts(actions) <= SetOf(Candidates(s))
    && |actions| == (if actions == [] then 0 else 1) + |RevealedFacts(actions)| + a * r + asking
    && (a > 0 || asking > 0 ==> RevealedFacts(actions) == SetOf(Candidates(s)))
    && (actions == [] ==> a == 0)
    && LastFactIsKnown(s, actions)
  }

  // ---------------------------------------------------------------- what the user does next

  lemma RevealedByOne(s: Scenario, actions: seq<UserAction>, action: UserAction)
    ensures RevealedFacts(actions + [action]) == RevealedFacts(actions) + SetOf(action.revealed)
    ensures forall kind, message ::
      RepeatCount(actions + [action], kind, message)
      == (if action.kind == kind && action.message == message then 1 + RepeatCount(actions, kind, message) else 0)
  {
    SnocFacts(actions, action);
    assert (actions + [action])[..|actions|] == actions;
  }

  /** What the user's next action must be for the dialogue to go on, and what the account is then. */
  ghost predicate GoodNext(s: Scenario, r: nat, actions: seq<UserAction>, a: nat, action: UserAction)
    requires a < |KeyIntents(s)|
  {
    var longer := actions + [action];
    var asking := Asking(longer, KeyIntents(s)[a]);
    && (action.kind.InitialRequest? || action.kind.ProvideFact? || action.kind.AskFollowup?)
    && action.targets == [KeyIntents(s)[a]] && action.shouldContinue
    && RepeatCount(longer, action.kind, action.message) <= r
    && ExactAccount(s, r, longer, a) && asking <= r
    && (asking == 0 ==> a == 0 && |longer| <= 1 + |SetOf(Candidates(s))|)
  }

  lemma OpeningIsGood(s: Scenario, r: nat, a: nat, action: UserAction)
    requires a < |KeyIntents(s)| && r >= 1 && ExactAccount(s, r, [], a)
    requires action.kind.InitialRequest? && action.targets == [KeyIntents(s)[a]] && action.revealed == [] && action.shouldContinue
    ensures GoodNext(s, r, [], a, action)
  {
    RevealedByOne(s, [], action);
    assert RevealedFacts([]) == {} && SetOf(action.revealed) == {};
  }

  lemma FactIsGood(s: Scenario, r: nat, actions: seq<UserAction>, a: nat, fact: string)
    requires Plainspoken(s) && a < |KeyIntents(s)| && r >= 1 && actions != []
    requires ExactAccount(s, r, actions, a)
    requires fact in Candidates(s) && fact !in RevealedFacts(actions)
    ensures GoodNext(s, r, actions, a, FactAction(s, KeyIntents(s)[a], fact))
  {
    var action := FactAction(s, KeyIntents(s)[a], fact);
    var longer, before := actions + [action], RevealedFacts(actions);
    RevealedByOne(s, actions, action);
    assert fact in SetOf(Candidates(s)) && SetOf(action.revealed) == {fact};
    assert action.message == FactMessage(s, fact);
    forall g | g in before ensures FactMessage(s, g) != action.message {
      assert g in SetOf(Candidates(s));
    }
    assert RepeatCount(actions, ProvideFact, action.message) == 0;
    assert fact in RevealedFacts(longer) && longer[|longer| - 1] == action;
    SubsetSize(RevealedFacts(longer), SetOf(Candidates(s)));
  }

  lemma FollowupIsGood(s: Scenario, r: nat, actions: seq<UserAction>, a: nat)
    requires a < |KeyIntents(s)| && actions != [] && ExactAccount(s, r, actions, a)
    requires SetOf(Candidates(s)) <= RevealedFacts(actions) && Asking(actions, KeyIntents(s)[a]) < r
    ensures GoodNext(s, r, actions, a, Followup(s, KeyIntents(s)[a]))
  {
    var action := Followup(s, KeyIntents(s)[a]);
    RevealedByOne(s, actions, action);
    assert SetOf(action.revealed) == {};
    assert (actions + [action])[|actions|] == action;
  }

  lemma NextIsGood(s: Scenario, r: nat, actions: seq<UserAction>, a: nat)
    requires Plainspoken(s) && a < |KeyIntents(s)| && r >= 1
    requires ExactAccount(s, r, actions, a) && Asking(actions, KeyIntents(s)[a]) < r
    ensures GoodNext(s, r, actions, a, RuleAction(s, actions, REPLY, KeyIntents(s)[a..]))
  {
    ReplyIsHelpful();
    if actions == [] {
      OpeningIsGood(s, r, a, RuleAction(s, actions, REPLY, KeyIntents(s)[a..]));
    } else if NextRevealedFact(s, actions).Some? {
      FactIsGood(s, r, actions, a, NextRevealedFact(s, actions).value);
    } else {
      FollowupIsGood(s, r, actions, a);
    }
  }

  // ---------------------------------------------------------------- one turn

  ghost predicate LateCount(s: Scenario, d: Dialogue, r: nat, a: nat) {
    && a < |KeyIntents(s)| && |d.turns| == |d.actions|
    && ExactAccount(s, r, d.actions, a) && Asking(d.actions, KeyIntents(s)[a]) < r
  }

  /** A dialogue that goes on, as long as it can be so far. */
  ghost predicate LateSoFar(w: World, d: Dialogue, r: nat) {
    && Ready(w, d)
    && LateCount(w.scenario, d, r, DonePrefix(KeyIntents(w.scenario), d.machine.states))
    && (d.turns != [] ==> LastResponse(d.turns) == REPLY)
  }

  /** The reply counts for this intent exactly when it is due. */
  lemma ReplyAddresses(s: Scenario, r: nat, turnId: nat, action: UserAction, intent: string)
    requires action.targets == [intent] && !Terminal(action.kind)
    ensures AddressedIntents(action, LateTrace(s, r, turnId)) != [] <==> LateTrace(s, r, turnId).intent == Some(intent)
  {
    ReplyIsHelpful();
    var trace := LateTrace(s, r, turnId);
    var addressed := AddressedIntents(action, trace);
    AddressedExactlyWhen(action, trace, intent);
    if addressed != [] {
      assert addressed[0] in addressed && addressed[0] in action.targets;
    }
  }

  /** When the next action is answered: only as the last follow-up that the user has for the open intent. */
  lemma DueExactlyAtTheEnd(s: Scenario, r: nat, actions: seq<UserAction>, a: nat, action: UserAction)
    requires r >= 1 && a < |KeyIntents(s)| && GoodNext(s, r, actions, a, action)
    ensures var asking := Asking(actions + [action], KeyIntents(s)[a]);
      LateTrace(s, r, |actions| + 1).intent == if asking == r then Some(KeyIntents(s)[a]) else None
  {
    var longer := actions + [action];
    var asking, facts := Asking(longer, KeyIntents(s)[a]), |SetOf(Candidates(s))|;
    if asking > 0 {
      assert |longer| - 1 - facts == a * r + asking;
      DueAt(KeyIntents(s), a, asking, r);
    } else {
      assert |longer| - 1 - facts <= 0;
    }
  }

  lemma Allowed(s: Scenario, action: UserAction)
    requires s.hidden == [] && NonTerminal(action.kind) && action.shouldContinue
    requires SetOf(action.targets) <= SetOf(Intents(s.agenda)) && SetOf(action.revealed) <= SetOf(Candidates(s))
    ensures Violation(action, s).None?
  {
  }

  lemma GoodNextIsAllowed(s: Scenario, r: nat, actions: seq<UserAction>, a: nat, action: UserAction)
    requires ValidScenario(s) && s.hidden == [] && a < |KeyIntents(s)| && GoodNext(s, r, actions, a, action)
    ensures Violation(action, s).None?
  {
    TrackedIntentsAreTheAgenda(s);
    RevealedByOne(s, actions, action);
    assert SetOf(action.targets) == {KeyIntents(s)[a]};
    Allowed(s, action);
  }

  /** The rule simulator's next action in a late dialogue. */
  function NextOf(w: World, d: Dialogue): UserAction
    requires KeyIntents(w.scenario) != []
  {
    RuleAction(w.scenario, d.actions, REPLY, KeyIntents(w.scenario)[DonePrefix(KeyIntents(w.scenario), d.machine.states)..])
  }

  lemma AllowedIsAsked(w: World, d: Dialogue, pending: seq<string>, action: UserAction)
    requires UsesRules(w) && pending == PendingOf(KeyIntents(w.scenario), d.machine.states)
    requires action == RuleAction(w.scenario, d.actions, LastResponse(d.turns), pending) && Violation(action, w.scenario).None?
    ensures Asked(w, d) == Result.Ok(action)
  {
    assert w.provider(w.scenario, d.actions, LastResponse(d.turns), pending) == Produced(action);
  }

  lemma OpeningIgnoresResponse(s: Scenario, actions: seq<UserAction>, response: string, pending: seq<string>)
    requires KeyIntents(s) != [] && (actions == [] || response == REPLY)
    ensures RuleAction(s, actions, response, pending) == RuleAction(s, actions, REPLY, pending)
  {
  }

  lemma NextIsGoodAndAllowed(s: Scenario, r: nat, actions: seq<UserAction>, a: nat, action: UserAction)
    requires ValidScenario(s) && Plainspoken(s) && a < |KeyIntents(s)| && r >= 1
    requires ExactAccount(s, r, actions, a) && Asking(actions, KeyIntents(s)[a]) < r
    requires action == RuleAction(s, actions, REPLY, KeyIntents(s)[a..])
    ensures GoodNext(s, r, actions, a, action) && Violation(action, s).None?
  {
    NextIsGood(s, r, actions, a);
    GoodNextIsAllowed(s, r, actions, a, action);
  }

  lemma NextIsAsked(w: World, d: Dialogue, a: nat)
    requires Late(w) && LateSoFar(w, d, w.config.maxRepeatedAction - 1) && a == DonePrefix(KeyIntents(w.scenario), d.machine.states)
    requires Violation(NextOf(w, d), w.scenario).None?
    ensures Asked(w, d) == Result.Ok(NextOf(w, d))
  {
    PendingIsSuffix(KeyIntents(w.scenario), d.machine.states, a);
    OpeningIgnoresResponse(w.scenario, d.actions, LastResponse(d.turns), KeyIntents(w.scenario)[a..]);
    AllowedIsAsked(w, d, KeyIntents(w.scenario)[a..], NextOf(w, d));
  }

  lemma ReplyIsHeard(w: World, d: Dialogue, turnId: nat, action: UserAction)
    requires Late(w)
    ensures HeardBy(w, d, turnId, action) == LateTrace(w.scenario, w.config.maxRepeatedAction - 1, turnId)
  {
  }

  /** The turn that this action makes. */
  lemma LateTurnIsRecorded(w: World, d: Dialogue, turnId: nat, a: nat, action: UserAction)
    requires Late(w) && Going(w, d) && a < |KeyIntents(w.scenario)|
    requires Asked(w, d) == Result.Ok(action) && GoodNext(w.scenario, w.config.maxRepeatedAction - 1, d.actions, a, action)
    ensures var d1 := d.(actions := d.actions + [action]);
      && Accepted(w, d, turnId)
      && |d1.machine.history| <= |AddressedBy(w, d1, turnId, action).history|
      && PlayTurn(w, d, turnId) == Conclude(w, Recorded(w, d1, turnId, action), TurnOf(w, d1, turnId, action))
  {
    var d1 := d.(actions := d.actions + [action]);
    AcceptedTurnResponds(w, d, turnId);
    AcceptedTargetsAreTracked(w, d1, action);
    AcceptedActionIsRecorded(w, d1, turnId, action);
  }

  lemma AnsweredAtTheEnd(s: Scenario, r: nat, actions: seq<UserAction>, a: nat, action: UserAction)
    requires r >= 1 && a < |KeyIntents(s)| && GoodNext(s, r, actions, a, action)
    ensures AddressedIntents(action, LateTrace(s, r, |actions| + 1)) != [] <==> Asking(actions + [action], KeyIntents(s)[a]) == r
  {
    ReplyAddresses(s, r, |actions| + 1, action, KeyIntents(s)[a]);
    DueExactlyAtTheEnd(s, r, actions, a, action);
  }

  /** The open intent is answered exactly by the last follow-up that the user has for it. */
  lemma LateTurnAddresses(w: World, d1: Dialogue, turnId: nat, a: nat, actions: seq<UserAction>, action: UserAction)
    requires Late(w) && a < |KeyIntents(w.scenario)| && turnId == |actions| + 1
    requires GoodNext(w.scenario, w.config.maxRepeatedAction - 1, actions, a, action)
    ensures AddressedIntents(action, HeardBy(w, d1, turnId, action)) != []
       <==> Asking(actions + [action], KeyIntents(w.scenario)[a]) == w.config.maxRepeatedAction - 1
  {
    ReplyIsHeard(w, d1, turnId, action);
    AnsweredAtTheEnd(w.scenario, w.config.maxRepeatedAction - 1, actions, a, action);
  }

  /** The states after it. */
  lemma LateTurnStates(w: World, d: Dialogue, turnId: nat, a: nat, action: UserAction)
    requires ValidScenario(w.scenario) && Going(w, d) && OnTrack(w, d, a)
    requires action.targets == [KeyIntents(w.scenario)[a]]
    requires |d.machine.history| <= |AddressedBy(w, d.(actions := d.actions + [action]), turnId, action).history|
    ensures var d1 := d.(actions := d.actions + [action]);
      var r := Recorded(w, d1, turnId, action);
      && RuleDialogue.InOrder(KeyIntents(w.scenario), r.machine.states)
      && DonePrefix(KeyIntents(w.scenario), r.machine.states)
         == a + (if AddressedIntents(action, HeardBy(w, d1, turnId, action)) != [] then 1 else 0)
  {
    var d1 := d.(actions := d.actions + [action]);
    KeysAreTracked(w, d1);
    RecordedIsOrdered(w, d1, turnId, action, a);
  }

  /** When the last follow-up closes an intent, the account goes on with the next. */
  lemma AccountGoesOn(s: Scenario, r: nat, actions: seq<UserAction>, a: nat)
    requires Unique(KeyIntents(s)) && a + 1 < |KeyIntents(s)| && r >= 1
    requires ExactAccount(s, r, actions, a) && Asking(actions, KeyIntents(s)[a]) == r
    ensures ExactAccount(s, r, actions, a + 1) && Asking(actions, KeyIntents(s)[a + 1]) == 0
  {
    var keys := KeyIntents(s);
    if FollowupMessage(keys[a]) == FollowupMessage(keys[a + 1]) {
      FollowupMessageInjective(keys[a], keys[a + 1]);
    }
    assert (a + 1) * r == a * r + r;
  }

  lemma AllDoneIsTheEnd(keys: seq<string>, states: map<string, IntentStatus>)
    requires RuleDialogue.InOrder(keys, states) && keys != []
    ensures AllDone(keys, states) <==> DonePrefix(keys, states) == |keys|
  {
    if AllDone(keys, states) {
      assert DoneIn(states, keys[|keys| - 1]);
    }
  }

  /** Exactly as many turns as the bound, once the last key intent is closed. */
  lemma LateTurnEnds(s: Scenario, r: nat, actions: seq<UserAction>, a: nat)
    requires a + 1 == |KeyIntents(s)| && r >= 1 && ExactAccount(s, r, actions, a) && Asking(actions, KeyIntents(s)[a]) == r
    ensures |actions| == TurnBound(s, r + 1)
  {
    assert (a + 1) * r == a * r + r;
  }

  /** While such a dialogue goes on, the bound is not reached yet. */
  lemma LateIsShort(s: Scenario, r: nat, actions: seq<UserAction>, a: nat)
    requires a < |KeyIntents(s)| && r >= 1 && ExactAccount(s, r, actions, a) && Asking(actions, KeyIntents(s)[a]) < r
    ensures |actions| < TurnBound(s, r + 1)
  {
    SubsetSize(RevealedFacts(actions), SetOf(Candidates(s)));
    MonotoneTimes(a + 1, |KeyIntents(s)|, r);
    assert (a + 1) * r == a * r + r;
  }

  /** The account after a recorded action: the dialogue is as long as the bound, or not yet and the account goes on. */
  lemma CountAfter(s: Scenario, r: nat, d: Dialogue, a: nat, done: nat)
    requires a < |KeyIntents(s)| && Unique(KeyIntents(s)) && r >= 1 && |d.turns| == |d.actions|
    requires ExactAccount(s, r, d.actions, a) && Asking(d.actions, KeyIntents(s)[a]) <= r
    requires done == a + (if Asking(d.actions, KeyIntents(s)[a]) == r then 1 else 0)
    ensures if done == |KeyIntents(s)| then |d.turns| == TurnBound(s, r + 1)
            else LateCount(s, d, r, done) && |d.turns| < TurnBound(s, r + 1)
  {
    if done == |KeyIntents(s)| {
      LateTurnEnds(s, r, d.actions, a);
    } else {
      if done > a {
        AccountGoesOn(s, r, d.actions, a);
      }
      LateIsShort(s, r, d.actions, done);
    }
  }

  /** What a recorded late turn leads to. */
  ghost predicate LateOutcome(w: World, result: TurnResult, turnId: nat)
    requires w.config.maxRepeatedAction >= 2
  {
    match result
    case Next(d') =>
      && LateCount(w.scenario, d', w.config.maxRepeatedAction - 1, DonePrefix(KeyIntents(w.scenario), d'.machine.states))
      && turnId == |d'.turns| < TurnBound(w.scenario, w.config.maxRepeatedAction)
    case Stop(d', reason) => reason.AllKeyIntentsAddressed? && |d'.turns| == TurnBound(w.scenario, w.config.maxRepeatedAction)
  }

  lemma SameOutcome(w: World, r: Dialogue, d: Dialogue, turnId: nat)
    requires w.config.maxRepeatedAction >= 2 && d.machine == r.machine && d.turns == r.turns && d.actions == r.actions
    requires LateOutcome(w, Next(r), turnId)
    ensures LateOutcome(w, Next(d), turnId)
  {
  }

  lemma LateTurnConcludes(w: World, r: Dialogue, turn: TurnTrace, turnId: nat, a: nat)
    requires w.config.maxRepeatedAction >= 2 && a < |KeyIntents(w.scenario)| && Unique(KeyIntents(w.scenario))
    requires turnId == |r.turns| == |r.actions|
    requires ExactAccount(w.scenario, w.config.maxRepeatedAction - 1, r.actions, a)
    requires Asking(r.actions, KeyIntents(w.scenario)[a]) <= w.config.maxRepeatedAction - 1
    requires RuleDialogue.InOrder(KeyIntents(w.scenario), r.machine.states)
    requires DonePrefix(KeyIntents(w.scenario), r.machine.states)
          == a + (if Asking(r.actions, KeyIntents(w.scenario)[a]) == w.config.maxRepeatedAction - 1 then 1 else 0)
    requires turn.trace.status.Complete? && !turn.action.kind.Abandon?
    ensures LateOutcome(w, Conclude(w, r, turn), turnId)
  {
    CountAfter(w.scenario, w.config.maxRepeatedAction - 1, r, a, DonePrefix(KeyIntents(w.scenario), r.machine.states));
    AllDoneIsTheEnd(KeyIntents(w.scenario), r.machine.states);
    ConcludeKeeps(w, r, turn);
    var result := Conclude(w, r, turn);
    if result.Next? {
      SameOutcome(w, r, result.d, turnId);
    }
  }

  lemma NextIsReady(w: World, d: Dialogue, turnId: nat)
    requires ValidScenario(w.scenario) && UsesRules(w) && Ready(w, d) && turnId == |d.turns| + 1
    ensures PlayTurn(w, d, turnId).Next? ==> Ready(w, PlayTurn(w, d, turnId).d)
  {
    RuleTurn(w, d, turnId);
  }

  /** The recorded turn, concluded. */
  lemma RecordedConcludes(w: World, d: Dialogue, turnId: nat, a: nat, action: UserAction)
    requires Late(w) && Going(w, d) && OnTrack(w, d, a) && turnId == |d.turns| + 1
    requires GoodNext(w.scenario, w.config.maxRepeatedAction - 1, d.actions, a, action)
    requires |d.machine.history| <= |AddressedBy(w, d.(actions := d.actions + [action]), turnId, action).history|
    ensures var d1 := d.(actions := d.actions + [action]);
      LateOutcome(w, Conclude(w, Recorded(w, d1, turnId, action), TurnOf(w, d1, turnId, action)), turnId)
  {
    var d1 := d.(actions := d.actions + [action]);
    LateTurnAddresses(w, d1, turnId, a, d.actions, action);
    LateTurnStates(w, d, turnId, a, action);
    ReplyIsHeard(w, d1, turnId, action);
    KeysAreTracked(w, d);
    LateTurnConcludes(w, Recorded(w, d1, turnId, action), TurnOf(w, d1, turnId, action), turnId, a);
  }

  lemma RecordedReply(w: World, d1: Dialogue, turnId: nat, action: UserAction)
    requires Late(w) && |d1.machine.history| <= |AddressedBy(w, d1, turnId, action).history|
    ensures var result := Conclude(w, Recorded(w, d1, turnId, action), TurnOf(w, d1, turnId, action));
      result.Next? ==> LastResponse(result.d.turns) == REPLY
  {
    ConcludeKeeps(w, Recorded(w, d1, turnId, action), TurnOf(w, d1, turnId, action));
    ReplyIsHeard(w, d1, turnId, action);
  }

  lemma LateTurnIs(w: World, d: Dialogue, turnId: nat, a: nat, action: UserAction)
    requires Late(w) && Going(w, d) && OnTrack(w, d, a) && turnId == |d.turns| + 1
    requires GoodNext(w.scenario, w.config.maxRepeatedAction - 1, d.actions, a, action) && Asked(w, d) == Result.Ok(action)
    ensures LateOutcome(w, PlayTurn(w, d, turnId), turnId)
    ensures PlayTurn(w, d, turnId).Next? ==> LastResponse(PlayTurn(w, d, turnId).d.turns) == REPLY
  {
    LateTurnIsRecorded(w, d, turnId, a, action);
    RecordedConcludes(w, d, turnId, a, action);
    RecordedReply(w, d.(actions := d.actions + [action]), turnId, action);
  }

  lemma NextFits(w: World, d: Dialogue, a: nat, action: UserAction)
    requires Late(w) && LateCount(w.scenario, d, w.config.maxRepeatedAction - 1, a)
    requires action == RuleAction(w.scenario, d.actions, REPLY, KeyIntents(w.scenario)[a..])
    ensures GoodNext(w.scenario, w.config.maxRepeatedAction - 1, d.actions, a, action) && Violation(action, w.scenario).None?
  {
    NextIsGoodAndAllowed(w.scenario, w.config.maxRepeatedAction - 1, d.actions, a, action);
  }

  lemma NextInTurn(w: World, d: Dialogue, a: nat) returns (action: UserAction)
    requires Late(w) && LateSoFar(w, d, w.config.maxRepeatedAction - 1) && a == DonePrefix(KeyIntents(w.scenario), d.machine.states)
    ensures GoodNext(w.scenario, w.config.maxRepeatedAction - 1, d.actions, a, action) && Asked(w, d) == Result.Ok(action)
  {
    action := NextOf(w, d);
    NextFits(w, d, a, action);
    NextIsAsked(w, d, a);
  }

  lemma LateTurnOutcome(w: World, d: Dialogue, turnId: nat)
    requires Late(w) && LateSoFar(w, d, w.config.maxRepeatedAction - 1) && turnId == |d.turns| + 1
    ensures LateOutcome(w, PlayTurn(w, d, turnId), turnId)
    ensures PlayTurn(w, d, turnId).Next? ==> LastResponse(PlayTurn(w, d, turnId).d.turns) == REPLY
  {
    var a := DonePrefix(KeyIntents(w.scenario), d.machine.states);
    var action := NextInTurn(w, d, a);
    LateTurnIs(w, d, turnId, a, action);
  }

  lemma LateTurn(w: World, d: Dialogue, turnId: nat)
    requires Late(w) && LateSoFar(w, d, w.config.maxRepeatedAction - 1) && turnId == |d.turns| + 1
    ensures LateOutcome(w, PlayTurn(w, d, turnId), turnId)
    ensures PlayTurn(w, d, turnId).Next? ==> LateSoFar(w, PlayTurn(w, d, turnId).d, w.config.maxRepeatedAction - 1)
  {
    LateTurnOutcome(w, d, turnId);
    NextIsReady(w, d, turnId);
  }

  predicate EndsAtBound(w: World, outcome: (Dialogue, Reason)) {
    outcome.1.AllKeyIntentsAddressed? && |outcome.0.turns| == TurnBound(w.scenario, w.config.maxRepeatedAction)
  }

  lemma {:induction false} LatePlay(w: World, d: Dialogue, turnId: nat)
    requires Late(w) && LateSoFar(w, d, w.config.maxRepeatedAction - 1) && turnId == |d.turns| + 1
    requires TurnLimit(w) >= TurnBound(w.scenario, w.config.maxRepeatedAction) > |d.turns|
    ensures EndsAtBound(w, Play(w, d, turnId))
    decreases TurnLimit(w) + 1 - turnId
  {
    var r := PlayTurn(w, d, turnId);
    LateTurn(w, d, turnId);
    if r.Next? {
      LatePlay(w, r.d, turnId + 1);
    }
  }

  lemma LateFromTheStart(w: World)
    requires Late(w) && ValidConfig(w.config)
    ensures LateSoFar(w, Opened(w.scenario), w.config.maxRepeatedAction - 1)
  {
    OpenedIsGoing(w);
    OpenedIsOnTrack(w);
    assert RevealedFacts([]) == {};
  }

  // ---------------------------------------------------------------- the bound is reached

  /**
   For every scenario whose facts read differently, every repeat limit R of at least 2 and every turn limit that
   leaves room: against this agent the dialogue completes after exactly 1 + F + K(R-1) turns.
   */
  lemma BoundIsReached(w: World)
    requires Late(w) && ValidConfig(w.config) && TurnLimit(w) >= TurnBound(w.scenario, w.config.maxRepeatedAction)
    ensures EndsAtBound(w, PlayAll(w))
  {
    LateFromTheStart(w);
    MonotoneTimes(0, |KeyIntents(w.scenario)|, w.config.maxRepeatedAction - 1);
    LatePlay(w, Opened(w.scenario), 1);
  }

  function RuleProvider(): Provider {
    (s: Scenario, history: seq<UserAction>, response: string, pending: seq<string>) =>
      if KeyIntents(s) == [] then Unparsable else Produced(RuleAction(s, history, response, pending))
  }

  /** Such a world, for a scenario and a configuration. */
  function LateWorld(s: Scenario, c: Config): World
    requires c.maxRepeatedAction >= 2
  {
    World(s, c, RuleProvider(),
          (messages: seq<Message>, turnId: nat) => Answer(LateTrace(s, c.maxRepeatedAction - 1, turnId)),
          (turnId: nat) => false, (turnId: nat) => false, (turnId: nat) => false)
  }

  lemma LateWorldIsLate(s: Scenario, c: Config)
    requires ValidScenario(s) && Plainspoken(s) && c.maxRepeatedAction >= 2
    ensures Late(LateWorld(s, c))
  {
    TrackedIntentsAreTheAgenda(s);
  }

  // ---------------------------------------------------------------- for any numbers of facts and key intents

  /** A name of n + 1 letters. */
  function Name(n: nat): (r: string)
    ensures |r| == n + 1
  {
    if n == 0 then "n" else Name(n - 1) + "n"
  }

  function Names(n: nat): (r: seq<string>)
    ensures |r| == n && forall i :: 0 <= i < n ==> r[i] == Name(i)
  {
    if n == 0 then [] else Names(n - 1) + [Name(n - 1)]
  }

  function Agenda(k: nat): (r: seq<AgendaItem>)
    ensures |r| == k && forall i :: 0 <= i < k ==> r[i] == AgendaItem(Name(i), true)
  {
    if k == 0 then [] else Agenda(k - 1) + [AgendaItem(Name(k - 1), true)]
  }

  /** A scenario with this many facts to tell and key intents to address. */
  function Sample(facts: nat, keys: nat, maxTurns: nat): Scenario {
    Scenario("sample", Agenda(keys), [], [], maxTurns, Some(Profile("neutral", "hello", Names(facts), 0)), [])
  }

  lemma {:induction false} AllKeys(items: seq<AgendaItem>)
    requires forall i :: 0 <= i < |items| ==> items[i].key
    ensures |OfPriority(items, true)| == |items|
  {
    if items != [] {
      AllKeys(items[1..]);
    }
  }

  lemma SampleIsPlainspoken(facts: nat, keys: nat, maxTurns: nat)
    ensures Plainspoken(Sample(facts, keys, maxTurns))
  {
    var s := Sample(facts, keys, maxTurns);
    forall f, g | f in Candidates(s) && g in Candidates(s) && FactMessage(s, f) == FactMessage(s, g) ensures f == g {
      assert |FactMessage(s, f)| == |f| + |FactMessage(s, "")| && |FactMessage(s, g)| == |g| + |FactMessage(s, "")|;
      var i :| 0 <= i < facts && Names(facts)[i] == f;
      var j :| 0 <= j < facts && Names(facts)[j] == g;
    }
  }

  lemma SampleIsValid(facts: nat, keys: nat, maxTurns: nat)
    requires keys >= 1 && 1 <= maxTurns <= 32
    ensures ValidScenario(Sample(facts, keys, maxTurns))
    ensures |KeyIntents(Sample(facts, keys, maxTurns))| == keys
  {
    var s := Sample(facts, keys, maxTurns);
    assert s.agenda[0].key;
    forall i, j | 0 <= i < j < keys ensures Intents(s.agenda)[i] != Intents(s.agenda)[j] {
      assert |Intents(s.agenda)[i]| == i + 1 && |Intents(s.agenda)[j]| == j + 1;
    }
    AllKeys(s.agenda);
  }

  lemma SampleHasFacts(facts: nat, keys: nat, maxTurns: nat)
    ensures |SetOf(Candidates(Sample(facts, keys, maxTurns)))| == facts
  {
    var names := Names(facts);
    forall i, j | 0 <= i < j < facts ensures names[i] != names[j] {
      assert |names[i]| == i + 1 && |names[j]| == j + 1;
    }
    DistinctMeans(names);
  }

  /** For any F, any K of at least 1 and any R of at least 2, as far as the turn limit reaches, some dialogue has 1 + F + K(R-1) turns. */
  lemma BoundIsTight(facts: nat, keys: nat, repeatLimit: nat)
    requires keys >= 1 && repeatLimit >= 2 && 1 + facts + keys * (repeatLimit - 1) <= 32
    ensures var w := LateWorld(Sample(facts, keys, 32), Config(32, repeatLimit));
      && UsesRules(w) && ValidScenario(w.scenario) && ValidConfig(w.config)
      && |SetOf(Candidates(w.scenario))| == facts && |KeyIntents(w.scenario)| == keys
      && |PlayAll(w).0.turns| == 1 + facts + keys * (repeatLimit - 1) && PlayAll(w).1.AllKeyIntentsAddressed?
  {
    var s := Sample(facts, keys, 32);
    SampleIsValid(facts, keys, 32);
    SampleIsPlainspoken(facts, keys, 32);
    SampleHasFacts(facts, keys, 32);
    LateWorldIsLate(s, Config(32, repeatLimit));
    BoundIsReached(LateWorld(s, Config(32, repeatLimit)));
  }
}
