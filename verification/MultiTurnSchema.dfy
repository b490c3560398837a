/** Records of the multi-turn evaluator (src/harness/multiturn_schema.py, src/harness/schema.py). */
module MultiTurnSchema {
  import opened Prelude
  import opened IntentState

  datatype AgendaItem = AgendaItem(intent: string, key: bool)

  /** A behaviour fact; `text` is its rendered value, absent for null, lists and objects. */
  datatype Fact = Fact(name: string, text: Option<string>)

  datatype Profile = Profile(emotion: string, coreRequest: string, disclosures: seq<string>, patience: nat)

  datatype Message = Message(role: string, content: string)

  datatype Scenario = Scenario(scenarioId: string, agenda: seq<AgendaItem>, facts: seq<Fact>, hidden: seq<string>,
                               maxTurns: nat, profile: Option<Profile>, initialMessages: seq<Message>)

  datatype ActionKind = InitialRequest | ProvideFact | AskFollowup | ClarifyIntent | Resist | Confirm | Abandon | Finish

  datatype UserAction = UserAction(kind: ActionKind, message: string, targets: seq<string>, revealed: seq<string>,
                                   emotion: string, shouldContinue: bool, reason: string)

  datatype TraceStatus = Complete | WaitUser | WaitHuman | Fail

  datatype Trace = Trace(caseId: string, intent: Option<string>, nextAction: Option<string>, response: string,
                         status: TraceStatus, evidenceIds: seq<string>)

  datatype TurnTrace = TurnTrace(turnId: nat, action: UserAction, trace: Trace, raised: seq<string>, addressed: seq<string>,
                                 states: map<string, IntentStatus>, transitions: seq<Transition>, verifierPass: bool)

  datatype DialogueStatus = Completed | Abandoned | Incomplete

  function Intents(items: seq<AgendaItem>): (r: seq<string>)
    ensures |r| == |items| && forall i :: 0 <= i < |r| ==> r[i] == items[i].intent
  {
    if items == [] then [] else [items[0].intent] + Intents(items[1..])
  }

  function OfPriority(items: seq<AgendaItem>, key: bool): seq<string> {
    if items == [] then []
    else if items[0].key == key then [items[0].intent] + OfPriority(items[1..], key)
    else OfPriority(items[1..], key)
  }

  function KeyIntents(s: Scenario): seq<string> {
    OfPriority(s.agenda, true)
  }

  /** The order in which the runner tracks intents: key ones first. */
  function TrackedIntents(s: Scenario): seq<string> {
    KeyIntents(s) + OfPriority(s.agenda, false)
  }

  /** What the scenario contract guarantees (validate_agenda and the field bounds). */
  predicate ValidScenario(s: Scenario) {
    && Unique(Intents(s.agenda))
    && (exists i :: 0 <= i < |s.agenda| && s.agenda[i].key)
    && 1 <= s.maxTurns <= 32
  }

  lemma {:induction false} PrioritiesPartitionAgenda(items: seq<AgendaItem>)
    requires Unique(Intents(items))
    ensures Unique(OfPriority(items, true) + OfPriority(items, false)) && Unique(OfPriority(items, true))
    ensures forall i :: i in Intents(items) <==> i in OfPriority(items, true) || i in OfPriority(items, false)
    ensures (exists k :: 0 <= k < |items| && items[k].key) ==> OfPriority(items, true) != []
  {
    if items != [] {
      var rest := items[1..];
      assert forall i :: 0 <= i < |rest| ==> Intents(items)[i + 1] == Intents(rest)[i];
      PrioritiesPartitionAgenda(rest);
      forall i | 0 <= i < |rest| ensures Intents(rest)[i] != items[0].intent {
        assert Intents(items)[0] != Intents(items)[i + 1];
      }
      var keys, others := OfPriority(rest, true), OfPriority(rest, false);
      UniqueInsert(keys, items[0].intent, others);
      assert OfPriority(items, true) + OfPriority(items, false)
          == if items[0].key then [items[0].intent] + keys + others else keys + [items[0].intent] + others;
    }
  }

  lemma UniqueInsert(a: seq<string>, x: string, b: seq<string>)
    requires Unique(a + b) && x !in a && x !in b
    ensures Unique([x] + a + b) && Unique(a + [x] + b) && Unique([x] + a) && Unique(a)
  {
    var ab := a + b;
    assert forall i :: 0 <= i < |ab| ==> ab[i] != x;
    forall i, j | 0 <= i < j < |ab| + 1 ensures ([x] + a + b)[i] != ([x] + a + b)[j] {
      assert i > 0 ==> ab[i - 1] != ab[j - 1];
      assert ([x] + a + b)[j] == ab[j - 1];
    }
    forall i, j | 0 <= i < j < |ab| + 1 ensures (a + [x] + b)[i] != (a + [x] + b)[j] {
      var i', j' := if i < |a| then i else i - 1, if j < |a| then j else j - 1;
      assert i != |a| ==> (a + [x] + b)[i] == ab[i'];
      assert j != |a| ==> (a + [x] + b)[j] == ab[j'];
    }
    forall i, j | 0 <= i < j < |a| ensures a[i] != a[j] {
      assert ab[i] != ab[j];
    }
  }

  lemma TrackedIntentsAreTheAgenda(s: Scenario)
    requires ValidScenario(s)
    ensures Unique(TrackedIntents(s)) && Unique(KeyIntents(s)) && KeyIntents(s) != [] && TrackedIntents(s) != []
    ensures forall i :: i in TrackedIntents(s) <==> i in Intents(s.agenda)
    ensures forall i :: i in KeyIntents(s) ==> i in Intents(s.agenda)
  {
    PrioritiesPartitionAgenda(s.agenda);
  }
}
