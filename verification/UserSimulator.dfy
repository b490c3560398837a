/**
 The simulator's information boundary and the deterministic rule simulator
 (src/harness/user_simulator.py).
 */
module UserSimulator {
  import opened Prelude
  import opened Text
  import opened Listing
  import opened MultiTurnSchema

  /** What a provider produced: an action, something that does not parse, or a provider failure. */
  datatype ProviderReply = Produced(action: UserAction) | Unparsable | Unavailable

  /**
   Scenario, action history, last agent response, pending key intents. Histories grow with every call
   of one dialogue, so a function of them covers a provider with any internal state or randomness.
   */
  type Provider = (Scenario, seq<UserAction>, string, seq<string>) -> ProviderReply

  function FactNames(facts: seq<Fact>): (r: seq<string>)
    ensures |r| == |facts|
  {
    if facts == [] then [] else [facts[0].name] + FactNames(facts[1..])
  }

  function RevealList(s: Scenario): seq<string> {
    if s.profile.Some? then s.profile.value.disclosures else []
  }

  predicate NonTerminal(kind: ActionKind) {
    kind.InitialRequest? || kind.ProvideFact? || kind.AskFollowup? || kind.ClarifyIntent?
  }

  predicate Terminal(kind: ActionKind) {
    kind.Abandon? || kind.Finish?
  }

  /** The error raised for an action outside the scenario contract, if any. */
  function Violation(action: UserAction, s: Scenario): Option<string> {
    if !(SetOf(action.targets) <= SetOf(Intents(s.agenda))) then
      Some("user_action_intent_outside_agenda")
    else if !(SetOf(action.revealed) <= SetOf(FactNames(s.facts)) + SetOf(RevealList(s))) then
      Some("user_action_fact_outside_behavior_facts")
    else if NonTerminal(action.kind) && !action.shouldContinue then
      Some("non_terminal_action_must_continue")
    else if Terminal(action.kind) && action.shouldContinue then
      Some("terminal_action_must_stop")
    else if exists i :: 0 <= i < |s.hidden| && s.hidden[i] != "" && Contains(action.message, s.hidden[i]) then
      Some("user_action_leaks_hidden_solution")
    else
      None
  }

  /** UserSimulator.next_action: produce, parse, validate. */
  function NextAction(provider: Provider, s: Scenario, history: seq<UserAction>, response: string, pending: seq<string>): Result<UserAction, string> {
    match provider(s, history, response, pending)
    case Unavailable => Err("simulator_provider_unavailable")
    case Unparsable => Err("invalid_user_action")
    case Produced(action) =>
      var violation := Violation(action, s);
      if violation.Some? then Err(violation.value) else Ok(action)
  }

  // ---------------------------------------------------------------- the rule simulator

  predicate IsUnhelpful(response: string) {
    Strip(response) == "" || Strip(response) == "无法处理。" || Strip(response) == "我不知道。"
  }

  function RevealedFacts(history: seq<UserAction>): set<string> {
    set action, fact | action in history && fact in action.revealed :: fact
  }

  /** Facts the rule simulator may volunteer, in order. */
  function Candidates(s: Scenario): seq<string> {
    if s.profile.Some? then s.profile.value.disclosures else FactNames(s.facts)
  }

  function FirstOutside(candidates: seq<string>, already: set<string>): (r: Option<string>)
    ensures r.None? ==> SetOf(candidates) <= already
    ensures r.Some? ==> r.value !in already
    ensures r.Some? ==> exists k :: 0 <= k < |candidates| && candidates[k] == r.value
                               && forall j :: 0 <= j < k ==> candidates[j] in already
  {
    if candidates == [] then None
    else if candidates[0] !in already then Some(candidates[0])
    else
      var r := FirstOutside(candidates[1..], already);
      assert r.Some? ==> exists k :: 0 <= k < |candidates[1..]| && candidates[1..][k] == r.value
                                && forall j :: 0 <= j < k ==> candidates[1..][j] in already;
      r
  }

  function NextRevealedFact(s: Scenario, history: seq<UserAction>): Option<string> {
    FirstOutside(Candidates(s), RevealedFacts(history))
  }

  function FactText(facts: seq<Fact>, name: string): Option<string> {
    if facts == [] then None
    else if facts[0].name == name then facts[0].text
    else FactText(facts[1..], name)
  }

  function EmotionOf(s: Scenario): string {
    if s.profile.Some? then s.profile.value.emotion else "neutral"
  }

  function PatienceOf(s: Scenario): nat {
    if s.profile.Some? then s.profile.value.patience else 2
  }

  function OpeningMessage(s: Scenario): string {
    if s.initialMessages != [] then s.initialMessages[0].content
    else if s.profile.Some? then s.profile.value.coreRequest
    else "我想咨询一个问题。"
  }

  function Opening(s: Scenario): UserAction
    requires KeyIntents(s) != []
  {
    UserAction(InitialRequest, OpeningMessage(s), [KeyIntents(s)[0]], [], EmotionOf(s), true, "initial_request")
  }

  function FactAction(s: Scenario, intent: string, fact: string): UserAction {
    var text := FactText(s.facts, fact);
    var suffix := if text.Some? then "是" + text.value else "";
    UserAction(ProvideFact, "补充一下，" + fact + suffix + "。", [intent], [fact], EmotionOf(s), true,
               "agent_requested_or_needed_fact")
  }

  function FollowupMessage(intent: string): string {
    "那请继续说明一下" + intent + "。"
  }

  function Followup(s: Scenario, intent: string): UserAction {
    UserAction(AskFollowup, FollowupMessage(intent), [intent], [], EmotionOf(s), true, "key_intent_not_addressed")
  }

  function GiveUp(intent: string): UserAction {
    UserAction(Abandon, "这次先算了，我暂时不继续了。", [intent], [], "impatient", false, "agent_no_progress")
  }

  function Farewell(s: Scenario): UserAction {
    UserAction(Finish, "好的，明白了，谢谢。", [], [], EmotionOf(s), false, "all_key_intents_addressed")
  }

  /** RuleUserSimulator.__call__, on a scenario with a key intent. */
  function RuleAction(s: Scenario, history: seq<UserAction>, response: string, pending: seq<string>): UserAction
    requires KeyIntents(s) != []
  {
    if history == [] then Opening(s)
    else if pending == [] then Farewell(s)
    else if IsUnhelpful(response) && |history| >= PatienceOf(s) then GiveUp(pending[0])
    else
      var fact := NextRevealedFact(s, history);
      if fact.Some? then FactAction(s, pending[0], fact.value) else Followup(s, pending[0])
  }

  // ---------------------------------------------------------------- what the boundary lets through

  ghost predicate InAgenda(action: UserAction, s: Scenario) {
    forall i :: i in action.targets ==> i in Intents(s.agenda)
  }

  /** Only behaviour facts of the scenario, or what its profile may disclose. */
  ghost predicate InBehaviour(action: UserAction, s: Scenario) {
    forall f :: f in action.revealed ==>
      (exists k :: 0 <= k < |s.facts| && s.facts[k].name == f) || (s.profile.Some? && f in s.profile.value.disclosures)
  }

  /** Requests go on, farewells do not; resisting and confirming may do either. */
  predicate KeepsWord(action: UserAction) {
    match action.kind
    case InitialRequest => action.shouldContinue
    case ProvideFact => action.shouldContinue
    case AskFollowup => action.shouldContinue
    case ClarifyIntent => action.shouldContinue
    case Abandon => !action.shouldContinue
    case Finish => !action.shouldContinue
    case Resist => true
    case Confirm => true
  }

  ghost predicate Leaks(action: UserAction, s: Scenario) {
    exists h :: h in s.hidden && h != "" && Occurs(action.message, h)
  }

  lemma {:induction false} FactNamesAre(facts: seq<Fact>, name: string)
    ensures name in FactNames(facts) <==> exists k :: 0 <= k < |facts| && facts[k].name == name
  {
    if facts != [] {
      FactNamesAre(facts[1..], name);
      assert facts == [facts[0]] + facts[1..];
      if name in FactNames(facts[1..]) {
        var k :| 0 <= k < |facts[1..]| && facts[1..][k].name == name;
        assert facts[k + 1].name == name;
      }
      if k :| 0 <= k < |facts| && facts[k].name == name {
        assert k > 0 ==> facts[1..][k - 1].name == name;
      }
    }
  }

  lemma LeaksAre(action: UserAction, s: Scenario)
    ensures Leaks(action, s) <==> exists i :: 0 <= i < |s.hidden| && s.hidden[i] != "" && Contains(action.message, s.hidden[i])
  {
    forall i | 0 <= i < |s.hidden| ensures Contains(action.message, s.hidden[i]) <==> Occurs(action.message, s.hidden[i]) {
      ContainsIsOccurs(action.message, s.hidden[i]);
    }
    if Leaks(action, s) {
      var h :| h in s.hidden && h != "" && Occurs(action.message, h);
      var i :| 0 <= i < |s.hidden| && s.hidden[i] == h;
      assert Contains(action.message, s.hidden[i]);
    }
  }

  lemma RevealsAre(action: UserAction, s: Scenario)
    ensures InBehaviour(action, s) <==> SetOf(action.revealed) <= SetOf(FactNames(s.facts)) + SetOf(RevealList(s))
  {
    forall f | f in action.revealed
      ensures f in SetOf(FactNames(s.facts)) + SetOf(RevealList(s)) <==>
        (exists k :: 0 <= k < |s.facts| && s.facts[k].name == f) || (s.profile.Some? && f in s.profile.value.disclosures)
    {
      FactNamesAre(s.facts, f);
    }
    assert forall f :: f in SetOf(action.revealed) <==> f in action.revealed;
  }

  /** An action is refused exactly when it breaks the scenario's contract, for the first rule that it breaks. */
  lemma ViolationIsTheFirst(action: UserAction, s: Scenario)
    ensures Violation(action, s) ==
      if !InAgenda(action, s) then Some("user_action_intent_outside_agenda")
      else if !InBehaviour(action, s) then Some("user_action_fact_outside_behavior_facts")
      else if !KeepsWord(action) then
        Some(if action.shouldContinue then "terminal_action_must_stop" else "non_terminal_action_must_continue")
      else if Leaks(action, s) then Some("user_action_leaks_hidden_solution")
      else None
  {
    RevealsAre(action, s);
    LeaksAre(action, s);
    assert InAgenda(action, s) <==> SetOf(action.targets) <= SetOf(Intents(s.agenda));
  }

  // ---------------------------------------------------------------- what the rule simulator does

  /** Nothing that was heard helps: silence, or one of the two stock refusals. */
  predicate Unhelpful(response: string) {
    AllSpace(response) || Strip(response) in {"无法处理。", "我不知道。"}
  }

  /** The user's patience has run out. */
  predicate Impatient(s: Scenario, history: seq<UserAction>, response: string) {
    Unhelpful(response) && |history| >= if s.profile.Some? then s.profile.value.patience else 2
  }

  /** The first fact that may be volunteered and was not yet. */
  ghost predicate IsNextFact(s: Scenario, history: seq<UserAction>, fact: string) {
    var candidates := if s.profile.Some? then s.profile.value.disclosures else FactNames(s.facts);
    exists k :: 0 <= k < |candidates| && candidates[k] == fact && !Revealed(history, fact)
      && forall j :: 0 <= j < k ==> Revealed(history, candidates[j])
  }

  ghost predicate Revealed(history: seq<UserAction>, fact: string) {
    exists k :: 0 <= k < |history| && fact in history[k].revealed
  }

  lemma RevealedFactsAre(history: seq<UserAction>, fact: string)
    ensures fact in RevealedFacts(history) <==> Revealed(history, fact)
  {
    if Revealed(history, fact) {
      var k :| 0 <= k < |history| && fact in history[k].revealed;
      assert history[k] in history;
    }
  }

  lemma NextFactIs(s: Scenario, history: seq<UserAction>)
    ensures match NextRevealedFact(s, history)
      case Some(fact) => IsNextFact(s, history, fact)
      case None => forall fact :: fact in Candidates(s) ==> Revealed(history, fact)
  {
    var candidates := Candidates(s);
    forall k | 0 <= k < |candidates| ensures candidates[k] in RevealedFacts(history) <==> Revealed(history, candidates[k]) {
      RevealedFactsAre(history, candidates[k]);
    }
    if NextRevealedFact(s, history).None? {
      forall fact | fact in candidates ensures Revealed(history, fact) {
        RevealedFactsAre(history, fact);
        assert fact in SetOf(candidates);
      }
    }
  }

  lemma UnhelpfulIs(response: string)
    ensures IsUnhelpful(response) <==> Unhelpful(response)
  {
    BlankIsAllSpace(response);
  }

  lemma RuleFacts(s: Scenario, history: seq<UserAction>, response: string, pending: seq<string>)
    requires KeyIntents(s) != []
    ensures var action, fact := RuleAction(s, history, response, pending), NextRevealedFact(s, history);
      && (action.kind.ProvideFact? ==> fact.Some? && action.revealed == [fact.value])
      && (action.kind.AskFollowup? ==> fact.None?)
      && (!action.kind.ProvideFact? ==> action.revealed == [])
  {
  }

  /** A pending intent is asked on about with the next fact, while there is one. */
  lemma FactsComeFirst(s: Scenario, history: seq<UserAction>, response: string, pending: seq<string>)
    requires KeyIntents(s) != []
    ensures var action := RuleAction(s, history, response, pending);
      && (action.kind.ProvideFact? ==> |action.revealed| == 1 && IsNextFact(s, history, action.revealed[0]))
      && (action.kind.AskFollowup? ==> forall fact :: fact in Candidates(s) ==> Revealed(history, fact))
      && (!action.kind.ProvideFact? ==> action.revealed == [])
  {
    RuleFacts(s, history, response, pending);
    NextFactIs(s, history);
  }

  /**
   The rule simulator opens first, takes leave when nothing is pending, gives up when its patience has run out, and
   otherwise asks on; always about the first pending intent.
   */
  lemma RuleActionIs(s: Scenario, history: seq<UserAction>, response: string, pending: seq<string>)
    requires KeyIntents(s) != []
    ensures var action := RuleAction(s, history, response, pending);
      var impatient := history != [] && pending != [] && Impatient(s, history, response);
      && KeepsWord(action)
      && (action.kind.InitialRequest? <==> history == [])
      && (action.kind.Finish? <==> history != [] && pending == [])
      && (action.kind.Abandon? <==> impatient)
      && (action.kind.ProvideFact? || action.kind.AskFollowup? <==> history != [] && pending != [] && !impatient)
      && action.targets == (if history == [] then KeyIntents(s)[..1] else if pending == [] then [] else pending[..1])
  {
    UnhelpfulIs(response);
    assert KeyIntents(s)[..1] == [KeyIntents(s)[0]] && (pending != [] ==> pending[..1] == [pending[0]]);
  }

  /** Follow-ups about different intents are different messages. */
  lemma FollowupMessageInjective(a: string, b: string)
    requires FollowupMessage(a) == FollowupMessage(b)
    ensures a == b
  {
    var prefix := "那请继续说明一下";
    assert FollowupMessage(a)[|prefix|..|prefix| + |a|] == a;
    assert FollowupMessage(b)[|prefix|..|prefix| + |b|] == b;
  }
}
