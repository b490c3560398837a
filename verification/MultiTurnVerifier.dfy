/**
 The independent verifier: everything is recomputed from the recorded turns
 (src/harness/multiturn_verifier.py).
 */
module MultiTurnVerifier {
  import opened Prelude
  import opened Listing
  import opened Text
  import opened MultiTurnSchema
  import opened UserSimulator

  /** Which targets of this action the trace answered. */
  function AddressedIntents(action: UserAction, trace: Trace): (r: seq<string>)
    ensures forall i :: i in r ==> i in action.targets
    ensures r != [] ==> trace.status.Complete? && !Terminal(action.kind)
  {
    if Terminal(action.kind) then []
    else if trace.status != Complete || Strip(trace.response) == "" then []
    else if trace.nextAction.Some?
      && trace.nextAction.value in {"ask_user", "ask_for_slots", "handoff", "wait_human", "fail"} then []
    else Answered(action.targets, trace)
  }

  function Answered(targets: seq<string>, trace: Trace): (r: seq<string>)
    ensures forall i :: i in r ==> i in targets
  {
    if targets == [] then []
    else
      var hit := trace.intent == Some(targets[0])
        || (trace.nextAction.Some? && trace.nextAction.value in {"safe_deescalation", "refuse"});
      (if hit then [targets[0]] else []) + Answered(targets[1..], trace)
  }

  /** The trace is a real answer to the user: completed, not blank, and not a question, handoff or failure. */
  predicate IsAnswer(trace: Trace) {
    && trace.status.Complete? && Strip(trace.response) != ""
    && !(trace.nextAction.Some?
         && trace.nextAction.value in {"ask_user", "ask_for_slots", "handoff", "wait_human", "fail"})
  }

  /** The trace is about this intent, or a refusal, which covers every target. */
  predicate Concerns(trace: Trace, intent: string) {
    || trace.intent == Some(intent)
    || (trace.nextAction.Some? && trace.nextAction.value in {"safe_deescalation", "refuse"})
  }

  lemma {:induction false} AnsweredExactlyWhen(targets: seq<string>, trace: Trace, intent: string)
    ensures intent in Answered(targets, trace) <==> intent in targets && Concerns(trace, intent)
  {
    if targets != [] {
      AnsweredExactlyWhen(targets[1..], trace, intent);
      assert targets == [targets[0]] + targets[1..];
    }
  }

  /** A target is addressed exactly by a real answer that concerns it, unless the user was leaving. */
  lemma AddressedExactlyWhen(action: UserAction, trace: Trace, intent: string)
    ensures intent in AddressedIntents(action, trace)
       <==> intent in action.targets && !Terminal(action.kind) && IsAnswer(trace) && Concerns(trace, intent)
  {
    AnsweredExactlyWhen(action.targets, trace, intent);
  }

  function RaisedIn(turns: seq<TurnTrace>): (r: set<string>)
    ensures forall i :: i in r <==> exists t :: t in turns && i in t.raised
  {
    set t, i | t in turns && i in t.raised :: i
  }

  function AddressedIn(turns: seq<TurnTrace>): (r: set<string>)
    ensures forall i :: i in r <==> exists t :: t in turns && i in t.addressed
  {
    set t, i | t in turns && i in t.addressed :: i
  }

  /** A ratio before rounding; 0/0 is decided by the caller. */
  function Ratio(part: nat, whole: nat): real
    requires whole > 0
  {
    part as real / whole as real
  }

  datatype Category = AgentError | CapabilityLimit | EvaluationNoise
  datatype Severity = Warning | Critical

  datatype Signal = Signal(category: Category, code: string, severity: Severity, turnIds: seq<nat>)

  datatype Report = Report(status: DialogueStatus, termination: string, turns: seq<TurnTrace>,
                           coverage: real, progress: real, exposed: Option<real>,
                           taskSuccess: Option<bool>, noise: bool, feedback: seq<Signal>)

  function TurnIds(turns: seq<TurnTrace>): seq<nat> {
    seq(|turns|, i requires 0 <= i < |turns| => turns[i].turnId)
  }

  /** The signal of one turn, if it deserves one. */
  function TurnSignal(t: TurnTrace): Option<Signal> {
    if t.trace.status.Fail? then
      Some(Signal(AgentError, "runtime_failure", Critical, [t.turnId]))
    else if (t.action.kind.AskFollowup? || t.action.kind.ProvideFact?) && t.addressed == [] then
      Some(Signal(AgentError, "intent_not_addressed", Warning, [t.turnId]))
    else if t.trace.nextAction == Some("handoff") || t.trace.nextAction == Some("wait_human") then
      Some(Signal(CapabilityLimit, "human_handoff", Warning, [t.turnId]))
    else
      None
  }

  function TurnSignals(turns: seq<TurnTrace>): seq<Signal> {
    if turns == [] then []
    else
      var last := TurnSignal(turns[|turns| - 1]);
      TurnSignals(turns[..|turns| - 1]) + (if last.Some? then [last.value] else [])
  }

  function FeedbackOf(turns: seq<TurnTrace>, noise: bool, termination: string): seq<Signal> {
    (if noise then [Signal(EvaluationNoise, "simulator_intent_not_raised", Warning, TurnIds(turns))] else [])
    + TurnSignals(turns)
    + (if termination == "max_turns_reached" then [Signal(AgentError, "max_turns_reached", Warning, TurnIds(turns))] else [])
  }

  predicate HasAgentError(feedback: seq<Signal>) {
    exists i :: 0 <= i < |feedback| && feedback[i].category.AgentError?
  }

  function ReportOf(s: Scenario, turns: seq<TurnTrace>, termination: string, status: DialogueStatus): Report {
    var raised, addressed, key := RaisedIn(turns), AddressedIn(turns), SetOf(KeyIntents(s));
    var noise := !(key <= raised);
    var feedback := FeedbackOf(turns, noise, termination);
    var success := status.Completed? && !noise && key <= addressed
      && (forall t :: t in turns ==> !t.trace.status.Fail?) && !HasAgentError(feedback);
    Report(status, termination, turns,
           if key == {} then 1.0 else Ratio(|raised * key|, |key|),
           if raised == {} then 0.0 else Ratio(|addressed * raised|, |raised|),
           if raised == {} then None else Some(Ratio(|addressed * raised|, |raised|)),
           if status.Incomplete? then None else Some(success),
           noise, feedback)
  }

  lemma CountOneMore(hits: set<string>, seen: set<string>, intent: string)
    requires intent !in seen
    ensures |hits * (seen + {intent})| == |hits * seen| + if intent in hits then 1 else 0
  {
    if intent in hits {
      assert hits * (seen + {intent}) == hits * seen + {intent};
    } else {
      assert hits * (seen + {intent}) == hits * seen;
    }
  }

  predicate AnyAddresses(turns: seq<TurnTrace>, intent: string) {
    exists t :: t in turns && intent in t.addressed
  }

  /** `_exposed_accuracy`: the counting loop over the raised set. */
  method ExposedAccuracy(turns: seq<TurnTrace>, raised: set<string>) returns (accuracy: Option<real>)
    ensures accuracy == if raised == {} then None else Some(Ratio(|AddressedIn(turns) * raised|, |raised|))
  {
    if raised == {} {
      return None;
    }
    var correct := CountAddressed(turns, raised, AddressedIn(turns));
    return Some(Ratio(correct, |raised|));
  }

  method CountAddressed(turns: seq<TurnTrace>, raised: set<string>, ghost hits: set<string>) returns (correct: nat)
    requires forall intent :: intent in hits <==> AnyAddresses(turns, intent)
    ensures correct == |hits * raised|
  {
    correct := 0;
    var rest := raised;
    ghost var seen := {};
    assert hits * seen == {};
    while rest != {}
      invariant seen + rest == raised && seen !! rest
      invariant correct == |hits * seen|
      decreases rest
    {
      var intent :| intent in rest;
      CountOneMore(hits, seen, intent);
      if AnyAddresses(turns, intent) {
        correct := correct + 1;
      }
      rest, seen := rest - {intent}, seen + {intent};
    }
    assert seen == raised;
  }

  /** `_feedback`: signals appended turn by turn. */
  method Feedback(turns: seq<TurnTrace>, noise: bool, termination: string) returns (signals: seq<Signal>)
    ensures signals == FeedbackOf(turns, noise, termination)
  {
    signals := [];
    if noise {
      signals := signals + [Signal(EvaluationNoise, "simulator_intent_not_raised", Warning, TurnIds(turns))];
    }
    ghost var start := signals;
    for i := 0 to |turns|
      invariant signals == start + TurnSignals(turns[..i])
    {
      var turn := turns[i];
      assert turns[..i + 1][..i] == turns[..i];
      if turn.trace.status.Fail? {
        signals := signals + [Signal(AgentError, "runtime_failure", Critical, [turn.turnId])];
      } else if (turn.action.kind.AskFollowup? || turn.action.kind.ProvideFact?) && turn.addressed == [] {
        signals := signals + [Signal(AgentError, "intent_not_addressed", Warning, [turn.turnId])];
      } else if turn.trace.nextAction == Some("handoff") || turn.trace.nextAction == Some("wait_human") {
        signals := signals + [Signal(CapabilityLimit, "human_handoff", Warning, [turn.turnId])];
      }
    }
    assert turns[..|turns|] == turns;
    if termination == "max_turns_reached" {
      signals := signals + [Signal(AgentError, "max_turns_reached", Warning, TurnIds(turns))];
    }
  }

  method VerifyTurns(s: Scenario, turns: seq<TurnTrace>, termination: string, status: DialogueStatus) returns (report: Report)
    ensures report == ReportOf(s, turns, termination, status)
  {
    var raised, addressed, key := RaisedIn(turns), AddressedIn(turns), SetOf(KeyIntents(s));
    var coverage := if key != {} then Ratio(|raised * key|, |key|) else 1.0;
    var progress := if raised != {} then Ratio(|addressed * raised|, |raised|) else 0.0;
    var exposed := ExposedAccuracy(turns, raised);
    var noise := !(key <= raised);
    var feedback := Feedback(turns, noise, termination);
    var success := status.Completed? && !noise && key <= addressed
      && !(exists t :: t in turns && t.trace.status.Fail?) && !HasAgentError(feedback);
    report := Report(status, termination, turns, coverage, progress, exposed,
                     if status != Incomplete then Some(success) else None, noise, feedback);
  }
}
