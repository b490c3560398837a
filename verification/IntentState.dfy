/**
 The intent state machine of the multi-turn evaluator (src/harness/intent_state.py): evidence-backed
 transitions over a fixed agenda.
 */
module IntentState {
  import opened Prelude

  datatype IntentStatus = NotRaised | Raised | Addressed | Verified {
    function Rank(): nat {
      match this
      case NotRaised => 0
      case Raised => 1
      case Addressed => 2
      case Verified => 3
    }

    /** ADDRESSED or later. */
    predicate Done() {
      Addressed? || Verified?
    }
  }

  datatype Evidence = UserTurn(turn: nat) | Source(id: string) | ResponseTurn(turn: nat)

  datatype Transition = Transition(intent: string, fromState: IntentStatus, toState: IntentStatus,
                                   turn: nat, evidence: seq<Evidence>)

  datatype StateError = BadAgenda | OutsideAgenda | UnraisedAddressed | UnraisedVerified | VerifiedTooEarly

  datatype Machine = Machine(states: map<string, IntentStatus>, history: seq<Transition>)

  /** What a call wants of the intents in its list. */
  datatype Goal = Raise | Address | Verify

  predicate Unique(intents: seq<string>) {
    forall i, j :: 0 <= i < j < |intents| ==> intents[i] != intents[j]
  }

  function Fresh(intents: seq<string>): Machine {
    Machine(map intent | intent in intents :: NotRaised, [])
  }

  /** The target of one intent's transition, `None` when it is already there, or the error raised. */
  function Decide(goal: Goal, current: IntentStatus): Result<Option<IntentStatus>, StateError> {
    match goal
    case Raise => if current.NotRaised? then Ok(Some(Raised)) else Ok(None)
    case Address =>
      if current.NotRaised? then Err(UnraisedAddressed)
      else if current.Raised? then Ok(Some(Addressed))
      else Ok(None)
    case Verify =>
      if current.NotRaised? then Err(UnraisedVerified)
      else if current.Raised? then Err(VerifiedTooEarly)
      else if current.Addressed? then Ok(Some(Verified))
      else Ok(None)
  }

  function Move(m: Machine, intent: string, to: IntentStatus, turn: nat, evidence: seq<Evidence>): Machine
    requires intent in m.states
  {
    Machine(m.states[intent := to], m.history + [Transition(intent, m.states[intent], to, turn, evidence)])
  }

  function StepOne(m: Machine, goal: Goal, intent: string, turn: nat, evidence: seq<Evidence>): Result<Machine, StateError> {
    if intent !in m.states then
      Err(OutsideAgenda)
    else
      match Decide(goal, m.states[intent])
      case Err(error) => Err(error)
      case Ok(None) => Ok(m)
      case Ok(Some(to)) => Ok(Move(m, intent, to, turn, evidence))
  }

  /** Intents are handled in order; an error stops the list and keeps what was already done. */
  function Steps(m: Machine, goal: Goal, intents: seq<string>, turn: nat, evidence: seq<Evidence>): (Machine, Option<StateError>)
    decreases |intents|
  {
    if intents == [] then
      (m, None)
    else
      match StepOne(m, goal, intents[0], turn, evidence)
      case Err(error) => (m, Some(error))
      case Ok(next) => Steps(next, goal, intents[1..], turn, evidence)
  }

  datatype Request = Request(goal: Goal, intents: seq<string>, turn: nat, evidence: seq<Evidence>)

  /** Any sequence of calls, each of which may raise midway. */
  function Serve(m: Machine, requests: seq<Request>): Machine
    decreases |requests|
  {
    if requests == [] then m
    else
      var r := requests[0];
      Serve(Steps(m, r.goal, r.intents, r.turn, r.evidence).0, requests[1..])
  }

  // ---------------------------------------------------------------- what the history says

  type Link = (IntentStatus, IntentStatus)

  const CHAIN: seq<Link> := [(NotRaised, Raised), (Raised, Addressed), (Addressed, Verified)]

  /** The transitions of one intent, in order. */
  function Links(history: seq<Transition>, intent: string): seq<Link> {
    if history == [] then []
    else
      var last := history[|history| - 1];
      var earlier := Links(history[..|history| - 1], intent);
      if last.intent == intent then earlier + [(last.fromState, last.toState)] else earlier
  }

  /** The states that recorded transitions lead to. */
  function Replayed(start: map<string, IntentStatus>, history: seq<Transition>): map<string, IntentStatus> {
    if history == [] then start
    else
      var last := history[|history| - 1];
      Replayed(start, history[..|history| - 1])[last.intent := last.toState]
  }

  /**
   Each intent's entries are the first links of NOT_RAISED -> RAISED -> ADDRESSED -> VERIFIED, as many
   as its current state requires; and replaying the history gives the states.
   */
  ghost predicate Consistent(m: Machine, start: map<string, IntentStatus>) {
    && m.states.Keys == start.Keys
    && Replayed(start, m.history) == m.states
    && (forall intent :: intent in m.states ==> Links(m.history, intent) == CHAIN[..m.states[intent].Rank()])
  }

  /** No intent was lost and none went back. */
  ghost predicate Forward(before: Machine, after: Machine) {
    && before.states.Keys == after.states.Keys
    && before.history <= after.history
    && (forall intent :: intent in before.states ==> before.states[intent].Rank() <= after.states[intent].Rank())
  }

  lemma MoveKeepsConsistent(m: Machine, start: map<string, IntentStatus>, goal: Goal, intent: string, turn: nat, evidence: seq<Evidence>)
    requires Consistent(m, start)
    ensures var r := StepOne(m, goal, intent, turn, evidence);
      r.Ok? ==> Consistent(r.value, start) && Forward(m, r.value)
  {
    var r := StepOne(m, goal, intent, turn, evidence);
    MoveIsForward(m, goal, intent, turn, evidence);
    if r.Ok? && r.value != m {
      assert r.value.history[..|m.history|] == m.history;
    }
  }

  lemma MoveIsForward(m: Machine, goal: Goal, intent: string, turn: nat, evidence: seq<Evidence>)
    ensures var r := StepOne(m, goal, intent, turn, evidence); r.Ok? ==> Forward(m, r.value)
  {
  }

  lemma {:induction false} StepsKeepConsistent(m: Machine, start: map<string, IntentStatus>, goal: Goal, intents: seq<string>, turn: nat, evidence: seq<Evidence>)
    requires Consistent(m, start)
    ensures Consistent(Steps(m, goal, intents, turn, evidence).0, start)
    ensures Forward(m, Steps(m, goal, intents, turn, evidence).0)
    decreases |intents|
  {
    if intents != [] {
      var r := StepOne(m, goal, intents[0], turn, evidence);
      if r.Ok? {
        MoveKeepsConsistent(m, start, goal, intents[0], turn, evidence);
        StepsKeepConsistent(r.value, start, goal, intents[1..], turn, evidence);
      }
    }
  }

  /** The rank a call takes its intents to. */
  function GoalRank(goal: Goal): nat {
    match goal
    case Raise => 1
    case Address => 2
    case Verify => 3
  }

  /**
   One intent in a call: an unknown one is an error; one that is there already or further is left alone; one that is
   right before the goal is moved to it; and one that is further behind is an error, which for an unraised intent
   differs from that for a raised one.
   */
  lemma IntentMovesExactlyOneStep(m: Machine, goal: Goal, intent: string, turn: nat, evidence: seq<Evidence>)
    ensures var r := StepOne(m, goal, intent, turn, evidence);
      if intent !in m.states then r == Err(OutsideAgenda)
      else
        var rank, target := m.states[intent].Rank(), GoalRank(goal);
        if rank >= target then r == Ok(m)
        else if rank + 1 < target then
          r == Err(if rank == 1 then VerifiedTooEarly else if goal.Address? then UnraisedAddressed else UnraisedVerified)
        else
          && r.Ok? && r.value.states.Keys == m.states.Keys && r.value.states[intent].Rank() == target
          && (forall other :: other in m.states && other != intent ==> r.value.states[other] == m.states[other])
          && |r.value.history| == |m.history| + 1 && r.value.history[..|m.history|] == m.history
          && r.value.history[|m.history|] == Transition(intent, m.states[intent], r.value.states[intent], turn, evidence)
  {
  }

  /** A call handles its list in order: it raises exactly at the first intent that does, and the ones before are kept. */
  lemma {:induction false} CallRaisesAtTheFirst(m: Machine, goal: Goal, intents: seq<string>, k: nat, turn: nat, evidence: seq<Evidence>)
    requires k < |intents| && Steps(m, goal, intents[..k], turn, evidence).1.None?
    ensures var before := Steps(m, goal, intents[..k], turn, evidence).0;
      var here := StepOne(before, goal, intents[k], turn, evidence);
      && (here.Err? ==> Steps(m, goal, intents, turn, evidence) == (before, Some(here.error)))
      && (here.Ok? ==> Steps(m, goal, intents[..k + 1], turn, evidence) == (here.value, None))
    decreases |intents|
  {
    if k == 0 {
      assert intents[..1][0] == intents[0] && intents[..1][1..] == [];
    } else {
      assert intents[..k][0] == intents[0] && intents[..k][1..] == intents[1..][..k - 1];
      assert intents[..k + 1][0] == intents[0] && intents[..k + 1][1..] == intents[1..][..k];
      CallRaisesAtTheFirst(StepOne(m, goal, intents[0], turn, evidence).value, goal, intents[1..], k - 1, turn, evidence);
    }
  }

  lemma FreshIsConsistent(intents: seq<string>)
    ensures Consistent(Fresh(intents), Fresh(intents).states)
  {
  }

  /**
   After any calls, raising ones included: the history replays to the states, every intent has one
   contiguous chain of at most three transitions, and no state went back.
   */
  lemma {:induction false} HistoryAlwaysExplainsStates(m: Machine, start: map<string, IntentStatus>, requests: seq<Request>)
    requires Consistent(m, start)
    ensures Consistent(Serve(m, requests), start) && Forward(m, Serve(m, requests))
    decreases |requests|
  {
    if requests != [] {
      var r := requests[0];
      StepsKeepConsistent(m, start, r.goal, r.intents, r.turn, r.evidence);
      HistoryAlwaysExplainsStates(Steps(m, r.goal, r.intents, r.turn, r.evidence).0, start, requests[1..]);
    }
  }

  // ---------------------------------------------------------------- the object

  /** Duplicates and the empty agenda are refused (IntentStateMachine.__init__). */
  method NewMachine(intents: seq<string>) returns (r: Result<IntentStateMachine, StateError>)
    ensures r.Ok? <==> intents != [] && Unique(intents)
    ensures r.Ok? ==> fresh(r.value) && r.value.Abstract() == Fresh(intents)
    ensures r.Err? ==> r.error.BadAgenda?
  {
    if intents == [] || !Unique(intents) {
      return Err(BadAgenda);
    }
    var machine := new IntentStateMachine(intents);
    return Ok(machine);
  }

  class IntentStateMachine {
    var states: map<string, IntentStatus>
    var history: seq<Transition>

    constructor (intents: seq<string>)
      ensures Abstract() == Fresh(intents)
    {
      states := map intent | intent in intents :: NotRaised;
      history := [];
    }

    ghost function Abstract(): Machine
      reads this
    {
      Machine(states, history)
    }

    method Transit(intent: string, to: IntentStatus, turn: nat, evidence: seq<Evidence>) returns (transition: Transition)
      requires intent in states
      modifies this
      ensures Abstract() == Move(old(Abstract()), intent, to, turn, evidence)
      ensures transition == Transition(intent, old(states[intent]), to, turn, evidence)
      ensures history == old(history) + [transition]
    {
      transition := Transition(intent, states[intent], to, turn, evidence);
      states := states[intent := to];
      history := history + [transition];
    }

    /**
     `raise_intents`, `address_intents` and `verify_intents`: one loop, three guards. The transitions made are
     returned, unless an intent raises; then they stay in the history all the same.
     */
    method Handle(goal: Goal, intents: seq<string>, turn: nat, evidence: seq<Evidence>)
      returns (r: Result<seq<Transition>, StateError>)
      modifies this
      ensures (Abstract(), if r.Ok? then None else Some(r.error)) == Steps(old(Abstract()), goal, intents, turn, evidence)
      ensures r.Ok? ==> history == old(history) + r.value
    {
      var moved: seq<Transition> := [];
      for i := 0 to |intents|
        invariant Steps(old(Abstract()), goal, intents, turn, evidence)
               == Steps(Abstract(), goal, intents[i..], turn, evidence)
        invariant history == old(history) + moved
      {
        var intent := intents[i];
        assert intents[i..][0] == intent && intents[i..][1..] == intents[i + 1..];
        if intent !in states {
          return Err(OutsideAgenda);
        }
        var current := states[intent];
        var to: Option<IntentStatus> := None;
        match goal {
          case Raise =>
            if current == NotRaised {
              to := Some(Raised);
            }
          case Address =>
            if current == NotRaised {
              return Err(UnraisedAddressed);
            }
            if current == Raised {
              to := Some(Addressed);
            }
          case Verify =>
            if current == NotRaised {
              return Err(UnraisedVerified);
            }
            if current == Raised {
              return Err(VerifiedTooEarly);
            }
            if current == Addressed {
              to := Some(Verified);
            }
        }
        if to.Some? {
          var transition := Transit(intent, to.value, turn, evidence);
          moved := moved + [transition];
        }
      }
      return Ok(moved);
    }

    /** `all_addressed`; an empty selection means the whole agenda. */
    method AllAddressed(intents: seq<string>) returns (all: bool)
      requires forall i :: 0 <= i < |intents| ==> intents[i] in states
      ensures intents != [] ==> (all <==> forall i :: 0 <= i < |intents| ==> states[intents[i]].Done())
      ensures intents == [] ==> (all <==> forall intent :: intent in states ==> states[intent].Done())
    {
      if intents == [] {
        var rest := states.Keys;
        while rest != {}
          invariant rest <= states.Keys
          invariant forall intent :: intent in states && intent !in rest ==> states[intent].Done()
        {
          var intent :| intent in rest;
          if !states[intent].Done() {
            return false;
          }
          rest := rest - {intent};
        }
        return true;
      }
      for i := 0 to |intents|
        invariant forall j :: 0 <= j < i ==> states[intents[j]].Done()
      {
        if !states[intents[i]].Done() {
          return false;
        }
      }
      return true;
    }
  }
}
