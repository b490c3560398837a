/** What the report of any recorded turns says, finished or not (src/harness/multiturn_verifier.py:19-62, 91-121). */
module MultiTurnScores {
  import opened Prelude
  import opened Listing
  import opened MultiTurnSchema
  import opened MultiTurnVerifier
  import opened MultiTurnGuarantees

  ghost predicate RaisedBySome(turns: seq<TurnTrace>, intent: string) {
    exists k :: 0 <= k < |turns| && intent in turns[k].raised
  }

  ghost predicate AddressedBySome(turns: seq<TurnTrace>, intent: string) {
    exists k :: 0 <= k < |turns| && intent in turns[k].addressed
  }

  lemma RaisedIs(turns: seq<TurnTrace>, intent: string)
    ensures intent in RaisedIn(turns) <==> RaisedBySome(turns, intent)
  {
    if RaisedBySome(turns, intent) {
      var k :| 0 <= k < |turns| && intent in turns[k].raised;
      assert turns[k] in turns;
    }
  }

  lemma AddressedIs(turns: seq<TurnTrace>, intent: string)
    ensures intent in AddressedIn(turns) <==> AddressedBySome(turns, intent)
  {
    if AddressedBySome(turns, intent) {
      var k :| 0 <= k < |turns| && intent in turns[k].addressed;
      assert turns[k] in turns;
    }
  }

  /** x is part/whole. */
  predicate IsShare(x: real, part: nat, whole: nat) {
    x * whole as real == part as real
  }

  lemma RatioIsShare(part: nat, whole: nat)
    requires whole > 0
    ensures IsShare(Ratio(part, whole), part, whole)
  {
  }

  lemma RaisedKeysAre(turns: seq<TurnTrace>, keys: set<string>)
    ensures RaisedIn(turns) * keys == set i | i in keys && RaisedBySome(turns, i)
  {
    forall i ensures i in RaisedIn(turns) <==> RaisedBySome(turns, i) {
      RaisedIs(turns, i);
    }
  }

  lemma AddressedAmong(turns: seq<TurnTrace>, raised: set<string>)
    ensures AddressedIn(turns) * raised == set i | i in raised && AddressedBySome(turns, i)
  {
    forall i ensures i in AddressedIn(turns) <==> AddressedBySome(turns, i) {
      AddressedIs(turns, i);
    }
  }

  /** Coverage counts the keys that some turn raised, however the dialogue ended. */
  lemma CoverageCounts(s: Scenario, turns: seq<TurnTrace>, termination: string, status: DialogueStatus)
    requires KeyIntents(s) != []
    ensures var keys := SetOf(KeyIntents(s));
      IsShare(ReportOf(s, turns, termination, status).coverage, |set i | i in keys && RaisedBySome(turns, i)|, |keys|)
  {
    var keys := SetOf(KeyIntents(s));
    assert KeyIntents(s)[0] in keys;
    RaisedKeysAre(turns, keys);
    RatioIsShare(|RaisedIn(turns) * keys|, |keys|);
  }

  /** Progress counts the raised intents that some turn addressed. */
  lemma ProgressCounts(s: Scenario, turns: seq<TurnTrace>, termination: string, status: DialogueStatus)
    ensures var progress, raised := ReportOf(s, turns, termination, status).progress, RaisedIn(turns);
      if raised == {} then progress == 0.0
      else IsShare(progress, |set i | i in raised && AddressedBySome(turns, i)|, |raised|)
  {
    var raised := RaisedIn(turns);
    AddressedAmong(turns, raised);
    if raised != {} {
      RatioIsShare(|AddressedIn(turns) * raised|, |raised|);
    }
  }

  /** The simulator is to blame exactly when it left a key unraised. */
  lemma NoiseIsAnUnraisedKey(s: Scenario, turns: seq<TurnTrace>, termination: string, status: DialogueStatus)
    ensures ReportOf(s, turns, termination, status).noise <==> exists i :: i in KeyIntents(s) && !RaisedBySome(turns, i)
  {
    forall i | i in KeyIntents(s) ensures i in RaisedIn(turns) <==> RaisedBySome(turns, i) {
      RaisedIs(turns, i);
    }
    assert forall i :: i in SetOf(KeyIntents(s)) <==> i in KeyIntents(s);
  }

  lemma AgentErrorInEither(a: seq<Signal>, b: seq<Signal>)
    ensures HasAgentError(a + b) <==> HasAgentError(a) || HasAgentError(b)
  {
    assert forall i :: 0 <= i < |a| ==> (a + b)[i] == a[i];
    assert forall i :: 0 <= i < |b| ==> (a + b)[|a| + i] == b[i];
    if HasAgentError(a + b) {
      var i :| 0 <= i < |a + b| && (a + b)[i].category.AgentError?;
      assert i >= |a| ==> b[i - |a|] == (a + b)[i];
    }
  }

  lemma FeedbackBlames(turns: seq<TurnTrace>, noise: bool, termination: string)
    ensures HasAgentError(FeedbackOf(turns, noise, termination))
       <==> termination == "max_turns_reached" || exists k :: 0 <= k < |turns| && Blames(turns[k])
  {
    var head := if noise then [Signal(EvaluationNoise, "simulator_intent_not_raised", Warning, TurnIds(turns))] else [];
    var tail := if termination == "max_turns_reached" then [Signal(AgentError, "max_turns_reached", Warning, TurnIds(turns))] else [];
    AgentErrorsComeFromTurns(turns);
    AgentErrorInEither(head + TurnSignals(turns), tail);
    AgentErrorInEither(head, TurnSignals(turns));
    assert tail != [] ==> tail[0].category.AgentError?;
  }

  /** A success is a completed dialogue that raised and addressed every key, and in which no turn and no limit is to blame. */
  lemma SuccessIsExact(s: Scenario, turns: seq<TurnTrace>, termination: string, status: DialogueStatus)
    ensures var report := ReportOf(s, turns, termination, status);
      && (report.taskSuccess.None? <==> status.Incomplete?)
      && (report.taskSuccess == Some(true) <==>
           && status.Completed?
           && (forall i :: i in KeyIntents(s) ==> i in RaisedIn(turns) && i in AddressedIn(turns))
           && termination != "max_turns_reached"
           && !exists k :: 0 <= k < |turns| && Blames(turns[k]))
  {
    FeedbackBlames(turns, !(SetOf(KeyIntents(s)) <= RaisedIn(turns)), termination);
    var keys := SetOf(KeyIntents(s));
    assert forall i :: i in keys <==> i in KeyIntents(s);
    if !exists k :: 0 <= k < |turns| && Blames(turns[k]) {
      forall t | t in turns ensures !t.trace.status.Fail? {
        var k :| 0 <= k < |turns| && turns[k] == t;
        assert !Blames(turns[k]);
      }
    }
  }

  /** A turn that fails, or whose follow-up or volunteered fact is not answered, is the agent's fault; asking for a human is a limit. */
  lemma SignalIsExact(t: TurnTrace)
    ensures match TurnSignal(t)
      case Some(signal) =>
        && signal.turnIds == [t.turnId]
        && (signal.category.AgentError? <==> Blames(t)) && (signal.category.CapabilityLimit? <==> !Blames(t))
        && (signal.severity.Critical? <==> t.trace.status.Fail?)
        && (!Blames(t) ==> t.trace.nextAction in {Some("handoff"), Some("wait_human")})
      case None => !Blames(t) && t.trace.nextAction !in {Some("handoff"), Some("wait_human")}
  {
  }
}
