/**
 Dialogues driven by the deterministic rule simulator: it walks the key intents in order and makes
 progress, whatever the agent answers (src/harness/user_simulator.py:183-247).
 */
module RuleDialogue {
  import opened Listing
  import opened IntentState
  import opened MultiTurnSchema
  import opened UserSimulator
  import opened MultiTurnVerifier
  import opened MultiTurnRunner
  import opened MultiTurnGuarantees

  ghost predicate UsesRules(w: World) {
    KeyIntents(w.scenario) != [] && forall history, response, pending ::
      w.provider(w.scenario, history, response, pending) == Produced(RuleAction(w.scenario, history, response, pending))
  }

  // ---------------------------------------------------------------- key intents are worked through in order

  /** How many leading key intents are addressed. */
  function DonePrefix(keys: seq<string>, states: map<string, IntentStatus>): (a: nat)
    ensures a <= |keys|
  {
    if keys == [] || !DoneIn(states, keys[0]) then 0 else 1 + DonePrefix(keys[1..], states)
  }

  predicate RaisedOne(states: map<string, IntentStatus>, intent: string) {
    intent in states && !states[intent].NotRaised?
  }

  /** The addressed key intents are a prefix, and the raised ones are that prefix or one longer. */
  predicate InOrder(keys: seq<string>, states: map<string, IntentStatus>) {
    forall i :: 0 <= i < |keys| ==>
      && (DoneIn(states, keys[i]) <==> i < DonePrefix(keys, states))
      && (RaisedOne(states, keys[i]) ==> i <= DonePrefix(keys, states))
  }

  lemma {:induction false} DonePrefixIs(keys: seq<string>, states: map<string, IntentStatus>, a: nat)
    requires a <= |keys| && forall i :: 0 <= i < |keys| ==> (DoneIn(states, keys[i]) <==> i < a)
    ensures DonePrefix(keys, states) == a
  {
    if a > 0 {
      assert DoneIn(states, keys[0]);
      forall i | 0 <= i < |keys| - 1 ensures DoneIn(states, keys[1..][i]) <==> i < a - 1 {
        assert keys[1..][i] == keys[i + 1];
      }
      DonePrefixIs(keys[1..], states, a - 1);
    } else if keys != [] {
      assert !DoneIn(states, keys[0]);
    }
  }

  lemma {:induction false} PendingIsSuffix(keys: seq<string>, states: map<string, IntentStatus>, a: nat)
    requires a <= |keys| && forall i :: 0 <= i < |keys| ==> (DoneIn(states, keys[i]) <==> i < a)
    ensures PendingOf(keys, states) == keys[a..]
  {
    if keys != [] {
      var rest := if a > 0 then a - 1 else 0;
      assert DoneIn(states, keys[0]) <==> 0 < a;
      forall i | 0 <= i < |keys| - 1 ensures DoneIn(states, keys[1..][i]) <==> i < rest {
        assert keys[1..][i] == keys[i + 1];
      }
      PendingIsSuffix(keys[1..], states, rest);
      assert a == 0 ==> [keys[0]] + keys[1..] == keys;
    }
  }

  /** A turn about the first open key intent keeps the order, and closes at most that intent. */
  lemma OrderKept(keys: seq<string>, before: map<string, IntentStatus>, after: map<string, IntentStatus>, answered: bool)
    requires Unique(keys) && InOrder(keys, before) && DonePrefix(keys, before) < |keys|
    requires forall i :: 0 <= i < |keys| ==> keys[i] in before && before[keys[i]] != Verified
    requires after.Keys == before.Keys
    requires var target := keys[DonePrefix(keys, before)];
      forall i :: i in before ==> after[i] == if i != target then before[i] else if answered then Addressed else Raised
    ensures InOrder(keys, after)
    ensures DonePrefix(keys, after) == DonePrefix(keys, before) + if answered then 1 else 0
  {
    var a := DonePrefix(keys, before);
    forall i | 0 <= i < |keys| ensures DoneIn(after, keys[i]) <==> i < a + if answered then 1 else 0 {
      if i != a {
        assert keys[i] != keys[a];
        assert DoneIn(after, keys[i]) == DoneIn(before, keys[i]);
      }
    }
    DonePrefixIs(keys, after, a + if answered then 1 else 0);
    forall i | 0 <= i < |keys| && RaisedOne(after, keys[i]) ensures i <= a {
      if i != a {
        assert keys[i] != keys[a];
        assert RaisedOne(before, keys[i]);
      }
    }
  }

  // ---------------------------------------------------------------- counting actions

  function CountKind(actions: seq<UserAction>, kind: ActionKind): nat {
    if actions == [] then 0
    else CountKind(actions[..|actions| - 1], kind) + if actions[|actions| - 1].kind == kind then 1 else 0
  }

  /** Trailing follow-ups about one intent. */
  function Asking(actions: seq<UserAction>, intent: string): nat {
    RepeatCount(actions, AskFollowup, FollowupMessage(intent))
  }

  /** Only openings, facts and follow-ups so far. */
  predicate Plain(actions: seq<UserAction>) {
    forall k :: 0 <= k < |actions| ==>
      actions[k].kind.InitialRequest? || actions[k].kind.ProvideFact? || actions[k].kind.AskFollowup?
  }

  /** Every fact told is a new one, and follow-ups come after the last. */
  ghost predicate FactsCounted(s: Scenario, actions: seq<UserAction>) {
    && CountKind(actions, ProvideFact) <= |RevealedFacts(actions)|
    && RevealedFacts(actions) <= SetOf(Candidates(s))
    && (CountKind(actions, AskFollowup) > 0 ==> SetOf(Candidates(s)) <= RevealedFacts(actions))
  }

  /**
   The progress measure: one opening, facts that are all new, follow-ups only when no fact is left, and
   at most R-1 of them per addressed intent besides the trailing ones about the intent now open.
   */
  ghost predicate Accounted(s: Scenario, repeatLimit: nat, actions: seq<UserAction>, a: nat)
    requires a < |KeyIntents(s)|
  {
    && repeatLimit >= 1
    && Plain(actions)
    && |actions| == (if actions == [] then 0 else 1) + CountKind(actions, ProvideFact) + CountKind(actions, AskFollowup)
    && FactsCounted(s, actions)
    && FollowupsCounted(KeyIntents(s)[a], repeatLimit, actions, a)
  }

  /** Few enough follow-ups: R-1 for each addressed intent, and the trailing ones about the intent now open. */
  ghost predicate FollowupsCounted(open: string, repeatLimit: nat, actions: seq<UserAction>, a: nat) {
    && Asking(actions, open) <= repeatLimit - 1
    && CountKind(actions, AskFollowup) <= a * (repeatLimit - 1) + Asking(actions, open)
  }

  lemma SnocFacts(actions: seq<UserAction>, action: UserAction)
    ensures RevealedFacts(actions + [action]) == RevealedFacts(actions) + SetOf(action.revealed)
    ensures CountKind(actions + [action], ProvideFact) == CountKind(actions, ProvideFact) + if action.kind.ProvideFact? then 1 else 0
    ensures CountKind(actions + [action], AskFollowup) == CountKind(actions, AskFollowup) + if action.kind.AskFollowup? then 1 else 0
  {
    assert (actions + [action])[..|actions|] == actions;
    assert forall x :: x in actions + [action] <==> x in actions || x == action;
  }

  lemma OpeningIsAccounted(s: Scenario, repeatLimit: nat, a: nat)
    requires a < |KeyIntents(s)| && repeatLimit >= 1
    ensures Accounted(s, repeatLimit, [Opening(s)], a)
  {
    OpeningTellsNothing(s);
  }

  lemma OpeningTellsNothing(s: Scenario)
    requires KeyIntents(s) != []
    ensures FactsCounted(s, [Opening(s)])
    ensures CountKind([Opening(s)], ProvideFact) == 0 == CountKind([Opening(s)], AskFollowup)
  {
    SnocFacts([], Opening(s));
    assert [] + [Opening(s)] == [Opening(s)];
  }

  lemma FactIsAccounted(s: Scenario, repeatLimit: nat, actions: seq<UserAction>, a: nat, intent: string)
    requires a < |KeyIntents(s)| && Accounted(s, repeatLimit, actions, a) && actions != []
    requires NextRevealedFact(s, actions).Some?
    ensures Accounted(s, repeatLimit, actions + [FactAction(s, intent, NextRevealedFact(s, actions).value)], a)
  {
    var fact := NextRevealedFact(s, actions).value;
    var action := FactAction(s, intent, fact);
    FactIsNew(s, actions);
    FactKeepsFacts(s, actions, action, fact);
    SnocFacts(actions, action);
    NoFollowupsYet(KeyIntents(s)[a], repeatLimit, actions + [action], a);
  }

  lemma NoFollowupsYet(open: string, repeatLimit: nat, actions: seq<UserAction>, a: nat)
    requires repeatLimit >= 1 && CountKind(actions, AskFollowup) == 0
    requires actions != [] && !actions[|actions| - 1].kind.AskFollowup?
    ensures FollowupsCounted(open, repeatLimit, actions, a)
  {
    assert a * (repeatLimit - 1) >= 0;
  }

  lemma FactKeepsFacts(s: Scenario, actions: seq<UserAction>, action: UserAction, fact: string)
    requires FactsCounted(s, actions) && action.kind.ProvideFact? && action.revealed == [fact]
    requires fact in SetOf(Candidates(s)) && fact !in RevealedFacts(actions)
    ensures FactsCounted(s, actions + [action]) && CountKind(actions, AskFollowup) == 0
  {
    SnocFacts(actions, action);
    assert SetOf([fact]) == {fact};
    NewFactCounts(RevealedFacts(actions), fact);
  }

  lemma FactIsNew(s: Scenario, actions: seq<UserAction>)
    requires NextRevealedFact(s, actions).Some?
    ensures var fact := NextRevealedFact(s, actions).value; fact in SetOf(Candidates(s)) && fact !in RevealedFacts(actions)
  {
  }

  lemma NewFactCounts<T>(facts: set<T>, fact: T)
    requires fact !in facts
    ensures |facts + {fact}| == |facts| + 1
  {
  }

  lemma FollowupIsAccounted(s: Scenario, repeatLimit: nat, actions: seq<UserAction>, a: nat)
    requires a < |KeyIntents(s)| && Accounted(s, repeatLimit, actions, a) && actions != []
    requires NextRevealedFact(s, actions).None?
    requires Asking(actions + [Followup(s, KeyIntents(s)[a])], KeyIntents(s)[a]) < repeatLimit
    ensures Accounted(s, repeatLimit, actions + [Followup(s, KeyIntents(s)[a])], a)
  {
    var action := Followup(s, KeyIntents(s)[a]);
    SnocFacts(actions, action);
    assert (actions + [action])[..|actions|] == actions;
    assert SetOf<string>([]) == {};
  }

  /** An accepted action of the rule simulator, other than giving up, keeps the account. */
  lemma ActionIsAccounted(s: Scenario, repeatLimit: nat, actions: seq<UserAction>, a: nat, response: string, pending: seq<string>)
    requires KeyIntents(s) != [] && a < |KeyIntents(s)| && Accounted(s, repeatLimit, actions, a)
    requires pending != [] && pending[0] == KeyIntents(s)[a]
    requires var action := RuleAction(s, actions, response, pending);
      !action.kind.Abandon? && RepeatCount(actions + [action], action.kind, action.message) < repeatLimit
    ensures Accounted(s, repeatLimit, actions + [RuleAction(s, actions, response, pending)], a)
  {
    if actions == [] {
      OpeningIsAccounted(s, repeatLimit, a);
      assert [] + [Opening(s)] == [Opening(s)];
    } else if NextRevealedFact(s, actions).Some? {
      FactIsAccounted(s, repeatLimit, actions, a, pending[0]);
    } else {
      FollowupIsAccounted(s, repeatLimit, actions, a);
    }
  }

  /** When the open intent gets addressed, its trailing follow-ups become part of the per-intent allowance. */
  lemma AdvanceIsAccounted(s: Scenario, repeatLimit: nat, actions: seq<UserAction>, a: nat)
    requires Unique(KeyIntents(s)) && a + 1 < |KeyIntents(s)| && actions != [] && Accounted(s, repeatLimit, actions, a)
    requires var last := actions[|actions| - 1]; last.kind.AskFollowup? ==> last.message == FollowupMessage(KeyIntents(s)[a])
    ensures Accounted(s, repeatLimit, actions, a + 1)
  {
    var keys := KeyIntents(s);
    if FollowupMessage(keys[a]) == FollowupMessage(keys[a + 1]) {
      FollowupMessageInjective(keys[a], keys[a + 1]);
    }
    assert Asking(actions, keys[a + 1]) == 0;
    assert (a + 1) * (repeatLimit - 1) == a * (repeatLimit - 1) + (repeatLimit - 1);
  }

  /** 1 + F + K(R-1) */
  function TurnBound(s: Scenario, repeatLimit: nat): int {
    1 + |SetOf(Candidates(s))| + |KeyIntents(s)| * (repeatLimit - 1)
  }

  lemma AccountBounds(s: Scenario, repeatLimit: nat, actions: seq<UserAction>, a: nat)
    requires a < |KeyIntents(s)| && Accounted(s, repeatLimit, actions, a)
    ensures |actions| <= TurnBound(s, repeatLimit)
  {
    SubsetSize(RevealedFacts(actions), SetOf(Candidates(s)));
    MonotoneTimes(a + 1, |KeyIntents(s)|, repeatLimit - 1);
    assert (a + 1) * (repeatLimit - 1) == a * (repeatLimit - 1) + (repeatLimit - 1);
  }

  lemma MonotoneTimes(x: nat, y: nat, r: nat)
    requires x <= y
    ensures x * r <= y * r
  {
  }

  lemma {:induction false} SubsetSize(a: set<string>, b: set<string>)
    requires a <= b
    ensures |a| <= |b|
    decreases |a|
  {
    if a != {} {
      var x :| x in a;
      SubsetSize(a - {x}, b - {x});
    }
  }

  // ---------------------------------------------------------------- the invariant of a rule-driven dialogue

  ghost predicate OrderedTurns(keys: seq<string>, turns: seq<TurnTrace>) {
    forall k :: 0 <= k < |turns| ==> InOrder(keys, turns[k].states)
  }

  predicate NoneVerified(states: map<string, IntentStatus>) {
    forall i :: i in states ==> states[i] != Verified
  }

  predicate NoFinish(actions: seq<UserAction>) {
    forall k :: 0 <= k < |actions| ==> !actions[k].kind.Finish?
  }

  ghost predicate StatesOnTrack(keys: seq<string>, states: map<string, IntentStatus>, turns: seq<TurnTrace>) {
    InOrder(keys, states) && NoneVerified(states) && OrderedTurns(keys, turns)
  }

  /** A dialogue that goes on, with `a` key intents addressed. */
  ghost predicate OnTrack(w: World, d: Dialogue, a: nat) {
    && a < |KeyIntents(w.scenario)|
    && StatesOnTrack(KeyIntents(w.scenario), d.machine.states, d.turns)
    && DonePrefix(KeyIntents(w.scenario), d.machine.states) == a
    && |d.actions| == |d.turns|
    && (d.actions == [] ==> a == 0)
    && Accounted(w.scenario, w.config.maxRepeatedAction, d.actions, a)
  }

  /** A dialogue that may have ended. */
  ghost predicate StayedOnTrack(w: World, d: Dialogue) {
    && StatesOnTrack(KeyIntents(w.scenario), d.machine.states, d.turns)
    && NoFinish(d.actions)
    && WithinBound(w, d.turns)
  }

  predicate WithinBound(w: World, turns: seq<TurnTrace>) {
    |turns| <= TurnBound(w.scenario, w.config.maxRepeatedAction) + if GaveUp(turns) then 1 else 0
  }

  predicate GaveUp(turns: seq<TurnTrace>) {
    turns != [] && turns[|turns| - 1].action.kind.Abandon?
  }

  /** The rule simulator talks about the first open key intent and nothing else. */
  lemma RuleTargetsOpenIntent(s: Scenario, actions: seq<UserAction>, response: string, pending: seq<string>, a: nat)
    requires a < |KeyIntents(s)| && pending == KeyIntents(s)[a..] && (actions == [] ==> a == 0)
    ensures var action := RuleAction(s, actions, response, pending);
      && action.targets == [KeyIntents(s)[a]]
      && !action.kind.Finish?
      && (action.kind.AskFollowup? ==> action.message == FollowupMessage(KeyIntents(s)[a]))
      && (action.kind.InitialRequest? || action.kind.ProvideFact? || action.kind.AskFollowup? || action.kind.Abandon?)
  {
  }

  lemma RuleAsked(w: World, d: Dialogue, a: nat)
    requires UsesRules(w) && OnTrack(w, d, a) && Asked(w, d).Ok?
    ensures Asked(w, d).value == RuleAction(w.scenario, d.actions, LastResponse(d.turns), KeyIntents(w.scenario)[a..])
  {
    PendingIsSuffix(KeyIntents(w.scenario), d.machine.states, a);
  }

  lemma KeysAreTracked(w: World, d: Dialogue)
    requires ValidScenario(w.scenario) && Matches(w.scenario, d.machine, d.turns)
    ensures Unique(KeyIntents(w.scenario)) && Tracks(d.machine, KeyIntents(w.scenario))
  {
    TrackedIntentsAreTheAgenda(w.scenario);
    forall i | 0 <= i < |KeyIntents(w.scenario)| ensures KeyIntents(w.scenario)[i] in d.machine.states {
      assert TrackedIntents(w.scenario)[i] == KeyIntents(w.scenario)[i];
    }
  }

  /** An accepted action about one open intent changes that intent only. */
  lemma RecordedChangesTarget(w: World, d: Dialogue, turnId: nat, action: UserAction, target: string)
    requires target in d.machine.states && !d.machine.states[target].Done() && action.targets == [target]
    ensures var after := AddressedBy(w, d, turnId, action).states;
      var answered := AddressedIntents(action, HeardBy(w, d, turnId, action)) != [];
      && after.Keys == d.machine.states.Keys
      && forall i :: i in d.machine.states ==>
        after[i] == if i != target then d.machine.states[i] else if answered then Addressed else Raised
  {
    AcceptedStates(w, d, turnId, action);
    var addressed := AddressedIntents(action, HeardBy(w, d, turnId, action));
    assert forall i :: i in addressed ==> i == target;
    assert addressed != [] ==> addressed[0] == target;
  }

  /** The states after an accepted action about the open intent. */
  lemma RecordedStaysInOrder(w: World, d: Dialogue, turnId: nat, action: UserAction, a: nat)
    requires Unique(KeyIntents(w.scenario)) && Tracks(d.machine, KeyIntents(w.scenario))
    requires InOrder(KeyIntents(w.scenario), d.machine.states)
    requires DonePrefix(KeyIntents(w.scenario), d.machine.states) == a < |KeyIntents(w.scenario)|
    requires NoneVerified(d.machine.states) && action.targets == [KeyIntents(w.scenario)[a]]
    ensures var after := AddressedBy(w, d, turnId, action).states;
      && InOrder(KeyIntents(w.scenario), after) && NoneVerified(after)
      && DonePrefix(KeyIntents(w.scenario), after)
        == a + if AddressedIntents(action, HeardBy(w, d, turnId, action)) != [] then 1 else 0
  {
    var keys := KeyIntents(w.scenario);
    assert !DoneIn(d.machine.states, keys[a]);
    RecordedChangesTarget(w, d, turnId, action, keys[a]);
    OrderKept(keys, d.machine.states, AddressedBy(w, d, turnId, action).states,
              AddressedIntents(action, HeardBy(w, d, turnId, action)) != []);
  }

  /** What is left of the account once the turn is recorded and the dialogue goes on. */
  lemma GoingOnIsAccounted(s: Scenario, repeatLimit: nat, actions: seq<UserAction>, a: nat, answered: bool)
    requires Unique(KeyIntents(s)) && a < |KeyIntents(s)| && actions != [] && Accounted(s, repeatLimit, actions, a)
    requires var last := actions[|actions| - 1]; last.kind.AskFollowup? ==> last.message == FollowupMessage(KeyIntents(s)[a])
    requires answered ==> a + 1 < |KeyIntents(s)|
    ensures Accounted(s, repeatLimit, actions, a + if answered then 1 else 0)
  {
    if answered {
      AdvanceIsAccounted(s, repeatLimit, actions, a);
    }
  }

  lemma RecordedIsOrdered(w: World, d1: Dialogue, turnId: nat, action: UserAction, a: nat)
    requires Unique(KeyIntents(w.scenario)) && Tracks(d1.machine, KeyIntents(w.scenario))
    requires StatesOnTrack(KeyIntents(w.scenario), d1.machine.states, d1.turns)
    requires DonePrefix(KeyIntents(w.scenario), d1.machine.states) == a < |KeyIntents(w.scenario)|
    requires action.targets == [KeyIntents(w.scenario)[a]]
    requires |d1.machine.history| <= |AddressedBy(w, d1, turnId, action).history|
    ensures var r := Recorded(w, d1, turnId, action); StatesOnTrack(KeyIntents(w.scenario), r.machine.states, r.turns)
    ensures DonePrefix(KeyIntents(w.scenario), Recorded(w, d1, turnId, action).machine.states)
         == a + if TurnOf(w, d1, turnId, action).addressed != [] then 1 else 0
  {
    RecordedStaysInOrder(w, d1, turnId, action, a);
  }

  /** Counting the recorded turn: either the account covers it, or it is the one in which the user gives up. */
  lemma RecordedIsBounded(w: World, d: Dialogue, turns: seq<TurnTrace>, action: UserAction, a: nat)
    requires OnTrack(w, d, a) && |turns| == |d.actions| + 1 && turns[|d.actions|].action == action
    requires !action.kind.Abandon? ==> Accounted(w.scenario, w.config.maxRepeatedAction, d.actions + [action], a)
    requires !action.kind.Finish?
    ensures WithinBound(w, turns) && NoFinish(d.actions + [action])
  {
    AccountBounds(w.scenario, w.config.maxRepeatedAction, d.actions, a);
    if !action.kind.Abandon? {
      AccountBounds(w.scenario, w.config.maxRepeatedAction, d.actions + [action], a);
    }
  }

  lemma RuleActionIsAccounted(w: World, d: Dialogue, turnId: nat, a: nat)
    requires UsesRules(w) && OnTrack(w, d, a) && Accepted(w, d, turnId)
    ensures var action := Asked(w, d).value;
      && action.targets == [KeyIntents(w.scenario)[a]] && !action.kind.Finish?
      && (action.kind.AskFollowup? ==> action.message == FollowupMessage(KeyIntents(w.scenario)[a]))
      && (!action.kind.Abandon? ==> Accounted(w.scenario, w.config.maxRepeatedAction, d.actions + [action], a))
  {
    var keys := KeyIntents(w.scenario);
    RuleAsked(w, d, a);
    RuleTargetsOpenIntent(w.scenario, d.actions, LastResponse(d.turns), keys[a..], a);
    if !Asked(w, d).value.kind.Abandon? {
      ActionIsAccounted(w.scenario, w.config.maxRepeatedAction, d.actions, a, LastResponse(d.turns), keys[a..]);
    }
  }

  lemma AcceptedRuleTurn(w: World, d: Dialogue, turnId: nat, a: nat)
    requires ValidScenario(w.scenario) && UsesRules(w) && Matches(w.scenario, d.machine, d.turns)
    requires OnTrack(w, d, a) && Accepted(w, d, turnId)
    ensures match PlayTurn(w, d, turnId)
      case Next(d') => OnTrack(w, d', DonePrefix(KeyIntents(w.scenario), d'.machine.states))
      case Stop(d', _) => StayedOnTrack(w, d')
  {
    var action := Asked(w, d).value;
    var d1 := d.(actions := d.actions + [action]);
    RuleActionIsAccounted(w, d, turnId, a);
    AcceptedTurnResponds(w, d, turnId);
    KeysAreTracked(w, d);
    AcceptedActionIsRecorded(w, d1, turnId, action);
    RecordedIsOrdered(w, d1, turnId, action, a);
    var r := Recorded(w, d1, turnId, action);
    RecordedIsBounded(w, d, r.turns, action, a);
    RuleTurnConcludes(w, r, TurnOf(w, d1, turnId, action), a);
  }

  lemma RuleTurnConcludes(w: World, r: Dialogue, turn: TurnTrace, a: nat)
    requires Unique(KeyIntents(w.scenario)) && a < |KeyIntents(w.scenario)|
    requires StayedOnTrack(w, r) && r.actions != [] && |r.turns| == |r.actions|
    requires turn.action == r.actions[|r.actions| - 1]
    requires turn.action.kind.AskFollowup? ==> turn.action.message == FollowupMessage(KeyIntents(w.scenario)[a])
    requires !turn.action.kind.Abandon? ==> Accounted(w.scenario, w.config.maxRepeatedAction, r.actions, a)
    requires DonePrefix(KeyIntents(w.scenario), r.machine.states) == a + if turn.addressed != [] then 1 else 0
    ensures match Conclude(w, r, turn)
      case Next(d') => OnTrack(w, d', DonePrefix(KeyIntents(w.scenario), d'.machine.states))
      case Stop(d', _) => StayedOnTrack(w, d')
  {
    if !AllDone(KeyIntents(w.scenario), r.machine.states) && !turn.action.kind.Abandon? {
      GoesOnOnTrack(w, r, a, turn.addressed != []);
    }
  }

  lemma GoesOnOnTrack(w: World, r: Dialogue, a: nat, answered: bool)
    requires Unique(KeyIntents(w.scenario)) && a < |KeyIntents(w.scenario)|
    requires StayedOnTrack(w, r) && r.actions != [] && |r.turns| == |r.actions|
    requires r.actions[|r.actions| - 1].kind.AskFollowup? ==> r.actions[|r.actions| - 1].message == FollowupMessage(KeyIntents(w.scenario)[a])
    requires Accounted(w.scenario, w.config.maxRepeatedAction, r.actions, a)
    requires DonePrefix(KeyIntents(w.scenario), r.machine.states) == a + if answered then 1 else 0
    requires !AllDone(KeyIntents(w.scenario), r.machine.states)
    ensures OnTrack(w, r, DonePrefix(KeyIntents(w.scenario), r.machine.states))
  {
    var keys := KeyIntents(w.scenario);
    var k :| 0 <= k < |keys| && !DoneIn(r.machine.states, keys[k]);
    assert DonePrefix(keys, r.machine.states) <= k;
    GoingOnIsAccounted(w.scenario, w.config.maxRepeatedAction, r.actions, a, answered);
  }

  lemma OnTrackNeverFinishes(w: World, d: Dialogue, a: nat)
    requires UsesRules(w) && OnTrack(w, d, a)
    ensures NoFinish(d.actions) && (Asked(w, d).Ok? ==> NoFinish(d.actions + [Asked(w, d).value]))
  {
    if Asked(w, d).Ok? {
      RuleAsked(w, d, a);
      RuleTargetsOpenIntent(w.scenario, d.actions, LastResponse(d.turns), KeyIntents(w.scenario)[a..], a);
    }
  }

  lemma OnTrackStays(w: World, d: Dialogue, a: nat, after: Dialogue)
    requires OnTrack(w, d, a) && after.machine == d.machine && after.turns == d.turns && NoFinish(after.actions)
    ensures StayedOnTrack(w, after)
  {
    AccountBounds(w.scenario, w.config.maxRepeatedAction, d.actions, a);
  }

  lemma UnacceptedRuleTurn(w: World, d: Dialogue, turnId: nat, a: nat)
    requires UsesRules(w) && OnTrack(w, d, a) && !Accepted(w, d, turnId)
    ensures var r := PlayTurn(w, d, turnId); r.Stop? && StayedOnTrack(w, r.d)
  {
    UnacceptedTurnEnds(w, d, turnId);
    OnTrackNeverFinishes(w, d, a);
    OnTrackStays(w, d, a, PlayTurn(w, d, turnId).d);
  }

  ghost predicate Ready(w: World, d: Dialogue) {
    Going(w, d) && OnTrack(w, d, DonePrefix(KeyIntents(w.scenario), d.machine.states))
  }

  lemma RuleTurn(w: World, d: Dialogue, turnId: nat)
    requires ValidScenario(w.scenario) && UsesRules(w) && Ready(w, d) && turnId == |d.turns| + 1
    ensures match PlayTurn(w, d, turnId)
      case Next(d') => Ready(w, d') && |d'.turns| == turnId
      case Stop(d', _) => StayedOnTrack(w, d')
  {
    var a := DonePrefix(KeyIntents(w.scenario), d.machine.states);
    TurnKeepsGoing(w, d, turnId);
    if Accepted(w, d, turnId) {
      AcceptedRuleTurn(w, d, turnId, a);
    } else {
      UnacceptedRuleTurn(w, d, turnId, a);
    }
  }

  lemma ReadyIsBounded(w: World, d: Dialogue)
    requires Ready(w, d)
    ensures StayedOnTrack(w, d) && |d.turns| <= TurnBound(w.scenario, w.config.maxRepeatedAction)
  {
    AccountBounds(w.scenario, w.config.maxRepeatedAction, d.actions, DonePrefix(KeyIntents(w.scenario), d.machine.states));
  }

  lemma {:induction false} RulePlay(w: World, d: Dialogue, turnId: nat)
    requires ValidScenario(w.scenario) && UsesRules(w) && Ready(w, d) && turnId == |d.turns| + 1
    ensures StayedOnTrack(w, Play(w, d, turnId).0)
    ensures Play(w, d, turnId).1.MaxTurnsReached? ==> |Play(w, d, turnId).0.turns| <= TurnBound(w.scenario, w.config.maxRepeatedAction)
    decreases TurnLimit(w) + 1 - turnId
  {
    if turnId > TurnLimit(w) {
      ReadyIsBounded(w, d);
    } else {
      RuleTurn(w, d, turnId);
      TurnKeepsGoing(w, d, turnId);
      match PlayTurn(w, d, turnId)
      case Next(d') => RulePlay(w, d', turnId + 1);
      case Stop(_, _) =>
    }
  }

  /**
   With the rule simulator and any agent: in every recorded turn and at the end, the addressed key intents
   are a prefix of `key_intents` and the raised ones that prefix or one longer; `finish` is never emitted;
   and, without any use of the turn limit, at most 1 + F + K(R-1) turns are recorded for F distinct facts,
   K key intents and repeat limit R, plus one if the user gives up.
   */
  lemma RuleDialogueMakesProgress(w: World)
    requires ValidScenario(w.scenario) && ValidConfig(w.config) && UsesRules(w)
    ensures var d := PlayAll(w).0;
      var facts, keys := |SetOf(Candidates(w.scenario))|, |KeyIntents(w.scenario)|;
      && (forall k :: 0 <= k < |d.turns| ==> InOrder(KeyIntents(w.scenario), d.turns[k].states))
      && InOrder(KeyIntents(w.scenario), d.machine.states)
      && (forall k :: 0 <= k < |d.actions| ==> !d.actions[k].kind.Finish?)
      && |d.turns| <= 1 + facts + keys * (w.config.maxRepeatedAction - 1) + if GaveUp(d.turns) then 1 else 0
  {
    RulePlayAll(w);
  }

  lemma RulePlayAll(w: World)
    requires ValidScenario(w.scenario) && ValidConfig(w.config) && UsesRules(w)
    ensures StayedOnTrack(w, PlayAll(w).0)
    ensures PlayAll(w).1.MaxTurnsReached? ==> |PlayAll(w).0.turns| <= TurnBound(w.scenario, w.config.maxRepeatedAction)
  {
    OpenedIsGoing(w);
    OpenedIsOnTrack(w);
    RulePlay(w, Opened(w.scenario), 1);
  }

  lemma LimitIsReached(w: World)
    requires ValidScenario(w.scenario) && ValidConfig(w.config)
    ensures PlayAll(w).1.MaxTurnsReached? ==> |PlayAll(w).0.turns| == TurnLimit(w)
  {
    OpenedIsGoing(w);
    PlayKeepsGoing(w, Opened(w.scenario), 1);
  }

  lemma OpenedIsOnTrack(w: World)
    requires ValidScenario(w.scenario) && ValidConfig(w.config)
    ensures DonePrefix(KeyIntents(w.scenario), Opened(w.scenario).machine.states) == 0
    ensures OnTrack(w, Opened(w.scenario), 0)
  {
    TrackedIntentsAreTheAgenda(w.scenario);
    DonePrefixIs(KeyIntents(w.scenario), Opened(w.scenario).machine.states, 0);
    assert RevealedFacts([]) == {};
  }

  /** The turn limit only matters when it is tighter than that bound. */
  lemma TurnLimitMattersOnlyWhenTight(w: World)
    requires ValidScenario(w.scenario) && ValidConfig(w.config) && UsesRules(w)
    requires TurnLimit(w) > TurnBound(w.scenario, w.config.maxRepeatedAction)
    ensures !PlayAll(w).1.MaxTurnsReached?
  {
    LimitIsReached(w);
    RulePlayAll(w);
  }
}
