/**
 `DurableMutationBoundary.execute` and `recover` in their own form: statements that read and change
 the durable store, with arbitrary activity of other invocations between any two of them
 (src/orchestration/mutation_execution.py:54-127).
 */
module MutationExecution {
  import opened Prelude
  import opened MutationSafety
  import opened MutationProtocol
  import opened MutationGuarantees

  /** How a call ended, as a final phase. */
  function Ending(r: Result<Outcome, Failure>): Phase {
    match r
    case Ok(outcome) => Returned(outcome)
    case Err(failure) => Raised(failure)
  }

  /** This invocation made the record's only adapter call, and what it reports is what that call said and what is stored. */
  ghost predicate PaidFor(s: System, p: nat, intent: Intent, reply: AdapterReply, o: Outcome) {
    && CallsOf(s, intent.recordId) == [Call(p, reply)]
    && o == OutcomeOf(ToCompletion(intent, ResultOf(reply)))
    && intent.recordId in s.store
    && s.store[intent.recordId] == Stored(intent, o.status, o.reference, Some(o.response))
  }

  /** This invocation called nothing, and reports "unknown" or the durable row. */
  ghost predicate HonestReplay(s: System, p: nat, intent: Intent, o: Outcome) {
    && o.reused
    && (forall c :: c in CallsOf(s, intent.recordId) ==> c.process != p)
    && (o == UnknownOutcome(true)
        || Lookup(s.store, intent) == Ok(Stored(intent, o.status, o.reference, Some(o.response))))
  }

  lemma ReachableCalls(events: seq<Event>, id: string)
    ensures |CallsOf(Run(EMPTY, events), id)| <= 1
  {
    AdapterInvokedAtMostOnce(events, id);
  }

  /** What a caller may rely on when invocation `p` ended with a replay. */
  lemma ReplayIsHonest(events: seq<Event>, p: nat, intent: Intent)
    requires var s := Run(EMPTY, events);
      p in s.processes && s.processes[p].intent == intent
      && s.processes[p].phase.Returned? && s.processes[p].phase.outcome.reused
    ensures var s := Run(EMPTY, events);
      && |CallsOf(s, intent.recordId)| <= 1
      && HonestReplay(s, p, intent, s.processes[p].phase.outcome)
      && Answered(events, p, s.processes[p].phase.outcome)
  {
    EveryReplayWasRead(events, p, Run(EMPTY, events).processes[p].phase.outcome);
    AdapterInvokedAtMostOnce(events, intent.recordId);
    ReplaysAndRecoveriesNeverCall(events, p, intent.recordId);
    NoOutcomeIsInvented(events, p);
  }

  /** After its adapter answered, nobody adds a call to the claimant's record. */
  lemma AnsweredKeepsCalls(events: seq<Event>, p: nat, others: seq<Event>)
    requires var s := Run(EMPTY, events);
      p in s.processes && ((s.processes[p].phase.Committing? && !s.processes[p].phase.outcome.reused)
        || (s.processes[p].phase.Committed? && !s.processes[p].phase.outcome.reused))
    ensures var s := Run(EMPTY, events);
      var id := s.processes[p].intent.recordId;
      CallsOf(Run(EMPTY, events + others), id) == CallsOf(s, id)
  {
    ReachableInv(events);
    var s := Run(EMPTY, events);
    assert ProcessOk(s, p);
    assert RecordOk(s, s.processes[p].intent.recordId);
    RunConcat(EMPTY, events, others);
    RunKeepsUncallable(s, others, s.processes[p].intent.recordId);
  }

  /** Right before its checkpoint, the claimant's row is in progress unless a recovery committed. */
  lemma AnswerStoredUnlessRecovered(events: seq<Event>, p: nat)
    requires AboutToStore(Run(EMPTY, events), p)
    ensures var s := Run(EMPTY, events);
      var id := s.processes[p].intent.recordId;
      id in s.store && (s.store[id].status.InProgress? <==> !Recovered(events, id))
  {
    ReachableInv(events);
    assert ProcessOk(Run(EMPTY, events), p);
    FateOfRun(events, Run(EMPTY, events).processes[p].intent.recordId);
  }

  lemma FirstOutcomeWasNotRecovered(events: seq<Event>, p: nat)
    requires p in Run(EMPTY, events).processes
    requires FirstCaller(Run(EMPTY, events), p, Run(EMPTY, events).processes[p].intent.recordId)
    ensures !Recovered(events, Run(EMPTY, events).processes[p].intent.recordId)
  {
    ReachableInv(events);
    assert ProcessOk(Run(EMPTY, events), p);
    FateOfRun(events, Run(EMPTY, events).processes[p].intent.recordId);
  }

  lemma RecoverNeverCalls(events: seq<Event>, p: nat, id: string)
    requires p in Run(EMPTY, events).processes && Run(EMPTY, events).processes[p].op.Recover?
    ensures |CallsOf(Run(EMPTY, events), id)| <= 1
    ensures forall c :: c in CallsOf(Run(EMPTY, events), id) ==> c.process != p
  {
    AdapterInvokedAtMostOnce(events, id);
    ReplaysAndRecoveriesNeverCall(events, p, id);
  }

  class DurableMutationBoundary {
    var store: Store
    var calls: map<string, seq<Call>>
    var claims: map<string, nat>
    var processes: map<nat, Process>
    ghost var history: seq<Event>

    ghost function State(): System
      reads this
    {
      System(store, processes, calls, claims)
    }

    /** The state is what the recorded events lead to. */
    ghost predicate Valid()
      reads this
    {
      State() == Run(EMPTY, history)
    }

    constructor ()
      ensures Valid() && State() == EMPTY && history == []
    {
      store, calls, claims, processes, history := map[], map[], map[], map[], [];
    }

    /** The statement just executed was this event. */
    ghost method Record(before: System, e: Event)
      requires before == Run(EMPTY, history) && State() == Apply(before, e)
      modifies `history
      ensures Valid() && history == old(history) + [e]
    {
      RunSnoc(EMPTY, history, e);
      history := history + [e];
    }

    /** Other invocations run, while `p` stands between two statements. */
    method Interfere(p: nat, events: seq<Event>)
      requires Valid() && p in processes && Foreign(events, p)
      modifies this
      ensures Valid() && history == old(history) + events
      ensures p in processes && processes[p] == old(processes[p])
    {
      var s := Run(System(store, processes, calls, claims), events);
      ForeignEventsKeepProcess(State(), events, p);
      RunConcat(EMPTY, history, events);
      store, processes, calls, claims := s.store, s.processes, s.calls, s.claims;
      history := history + events;
    }

    /** Invocation `p` starts. */
    method Start(p: nat, op: Operation, intent: Intent)
      requires Valid() && p !in processes
      modifies this
      ensures Valid() && history == old(history) + [Begin(p, op, intent)]
      ensures p in processes && processes[p] == Process(op, intent, Loading)
    {
      processes := processes[p := Process(op, intent, Loading)];
      Record(old(State()), Begin(p, op, intent));
    }

    /** `load` and `_require_intent`, at the first access or after a missed claim. */
    method RequireIntent(p: nat, intent: Intent) returns (loaded: Result<Stored, Failure>)
      requires Valid() && p in processes && processes[p].intent == intent
      requires processes[p].phase.Loading? || processes[p].phase.Rereading?
      modifies `processes, `history
      ensures Valid() && history == old(history) + [Advance(p, Dies, false)]
      ensures loaded == Lookup(store, intent)
      ensures p in processes && processes[p] == old(processes[p]).(phase :=
        if old(processes[p].phase.Loading?) then AfterLoad(old(processes[p].op), intent, loaded) else AfterReread(loaded))
    {
      if intent.recordId !in store || store[intent.recordId].intent.tenant != intent.tenant {
        loaded := Err(IntentUnavailable);
      } else if store[intent.recordId].intent != intent {
        loaded := Err(FingerprintConflict);
      } else {
        loaded := Ok(store[intent.recordId]);
      }
      var at := processes[p];
      processes := processes[p := at.(phase :=
        if at.phase.Loading? then AfterLoad(at.op, intent, loaded) else AfterReread(loaded))];
      Record(old(State()), Advance(p, Dies, false));
    }

    /** The claiming UPDATE; the returned row when it hit. */
    method Claim(p: nat, intent: Intent) returns (claimed: Option<Stored>)
      requires Valid() && p in processes && processes[p].intent == intent && processes[p].phase.Claiming?
      modifies this
      ensures Valid() && history == old(history) + [Advance(p, Dies, false)]
      ensures claimed.Some? <==> ClaimHits(old(store), intent)
      ensures claimed.Some? ==> claimed.value == ClaimedRow(old(store)[intent.recordId])
      ensures p in processes && processes[p] == old(processes[p]).(phase := if claimed.Some? then Calling else Rereading)
    {
      claimed := None;
      if intent.recordId in store {
        var row := store[intent.recordId];
        if row.intent == intent && row.status.Reserved? {
          claimed := Some(row.(status := InProgress));
          store, claims := store[intent.recordId := claimed.value], claims[intent.recordId := p];
        }
      }
      processes := processes[p := processes[p].(phase := if claimed.Some? then Calling else Rereading)];
      Record(old(State()), Advance(p, Dies, false));
    }

    /** The adapter call, its reply being given. */
    method CallAdapter(p: nat, intent: Intent, reply: AdapterReply)
      requires Valid() && p in processes && processes[p].intent == intent && processes[p].phase.Calling?
      modifies this
      ensures Valid() && history == old(history) + [Advance(p, reply, false)]
      ensures p in processes && processes[p] == old(processes[p]).(phase := AfterCall(intent, reply))
      ensures CallsOf(State(), intent.recordId) == [Call(p, reply)] && store == old(store)
    {
      ReachableInv(history);
      assert ProcessOk(State(), p);
      var earlier := if intent.recordId in calls then calls[intent.recordId] else [];
      calls := calls[intent.recordId := earlier + [Call(p, reply)]];
      processes := processes[p := processes[p].(phase := AfterCall(intent, reply))];
      Record(old(State()), Advance(p, reply, false));
    }

    /** The checkpoint callable: commits the completion, or raises and commits nothing. */
    method Checkpoint(p: nat, intent: Intent, c: Completion, accepted: bool) returns (committed: bool)
      requires Valid() && p in processes && processes[p].intent == intent
      requires processes[p].phase.Committing? && processes[p].phase.completion == c
      modifies this
      ensures Valid() && history == old(history) + [Advance(p, Dies, accepted)] && calls == old(calls)
      ensures c.recordId in old(store) && (committed <==> accepted && old(store)[c.recordId].status.InProgress?)
      ensures store == if committed then old(store)[c.recordId := Stored(intent, c.status, c.reference, Some(c.response))] else old(store)
      ensures p in processes && processes[p] == old(processes[p]).(phase :=
        if committed then Committed(old(processes[p].phase.outcome)) else Raised(CheckpointRefused))
    {
      ReachableInv(history);
      assert ProcessOk(State(), p) && RecordOk(State(), intent.recordId);
      committed := accepted && c.recordId in store;
      if committed {
        var row := store[c.recordId];
        committed := row.intent.tenant == intent.tenant && row.intent.fingerprint == c.fingerprint && row.status.InProgress?;
        if committed {
          store := store[c.recordId := Stored(row.intent, c.status, c.reference, Some(c.response))];
        }
      }
      processes := processes[p := processes[p].(phase :=
        if committed then Committed(processes[p].phase.outcome) else Raised(CheckpointRefused))];
      Record(old(State()), Advance(p, Dies, accepted));
    }

    method Return(p: nat)
      requires Valid() && p in processes && processes[p].phase.Committed?
      modifies this
      ensures Valid() && history == old(history) + [Advance(p, Dies, false)] && calls == old(calls)
      ensures p in processes && processes[p] == old(processes[p]).(phase := Returned(old(processes[p].phase.outcome)))
    {
      processes := processes[p := processes[p].(phase := Returned(processes[p].phase.outcome))];
      Record(old(State()), Advance(p, Dies, false));
    }

    /**
     One call of `execute` as invocation `p`. `reply` is what the adapter would do, `accepted` whether
     the checkpoint may commit, and `others(k)` what other invocations do before the k-th access.
     */
    method Execute(p: nat, intent: Intent, reply: AdapterReply, accepted: bool, others: nat -> seq<Event>)
      returns (r: Result<Outcome, Failure>)
      requires Valid() && p !in processes
      requires forall k :: Foreign(others(k), p)
      modifies this
      ensures Valid() && old(history) <= history
      ensures p in processes && processes[p] == Process(Operation.Execute, intent, Ending(r))
      ensures |CallsOf(State(), intent.recordId)| <= 1
      ensures r.Ok? && !r.value.reused ==> PaidFor(State(), p, intent, reply, r.value)
      ensures r.Ok? && r.value.reused ==> HonestReplay(State(), p, intent, r.value) && Answered(history, p, r.value)
    {
      Start(p, Operation.Execute, intent);
      Interfere(p, others(0));
      var current := RequireIntent(p, intent);
      if current.Err? {
        ReachableCalls(history, intent.recordId);
        return Err(current.error);
      }
      var replay := Replay(current.value);
      if replay.Some? {
        ReplayIsHonest(history, p, intent);
        return Ok(replay.value);
      }
      r := ClaimAndCall(p, intent, reply, accepted, others);
    }

    /** `execute` from the claim on (lines 76-98). */
    method ClaimAndCall(p: nat, intent: Intent, reply: AdapterReply, accepted: bool, others: nat -> seq<Event>)
      returns (r: Result<Outcome, Failure>)
      requires Valid() && p in processes && processes[p] == Process(Operation.Execute, intent, Claiming)
      requires forall k :: Foreign(others(k), p)
      modifies this
      ensures Valid() && old(history) <= history
      ensures p in processes && processes[p] == Process(Operation.Execute, intent, Ending(r))
      ensures |CallsOf(State(), intent.recordId)| <= 1
      ensures r.Ok? && !r.value.reused ==> PaidFor(State(), p, intent, reply, r.value)
      ensures r.Ok? && r.value.reused ==> HonestReplay(State(), p, intent, r.value) && Answered(history, p, r.value)
    {
      Interfere(p, others(1));
      var claimed := Claim(p, intent);
      if claimed.None? {
        r := ReplayAfterMissedClaim(p, intent, others);
        return;
      }
      if !claimed.value.status.InProgress? {
        assert false;
      }
      Interfere(p, others(3));
      r := CallAndCommit(p, intent, reply, accepted, others);
    }

    /** `execute` when another invocation holds the claim (lines 77-81). */
    method ReplayAfterMissedClaim(p: nat, intent: Intent, others: nat -> seq<Event>)
      returns (r: Result<Outcome, Failure>)
      requires Valid() && p in processes && processes[p] == Process(Operation.Execute, intent, Rereading)
      requires forall k :: Foreign(others(k), p)
      modifies this
      ensures Valid() && old(history) <= history
      ensures p in processes && processes[p] == Process(Operation.Execute, intent, Ending(r))
      ensures r.Ok? && HonestReplay(State(), p, intent, r.value) && Answered(history, p, r.value)
      ensures |CallsOf(State(), intent.recordId)| <= 1
    {
      Interfere(p, others(2));
      DefensiveBranchesAreDead(history, p);
      var current := RequireIntent(p, intent);
      if current.Err? {
        assert false;
      }
      var replay := Replay(current.value);
      if replay.None? {
        assert false;
      }
      ReplayIsHonest(history, p, intent);
      return Ok(replay.value);
    }

    /** `execute` from the adapter call on (lines 85-98). */
    method CallAndCommit(p: nat, intent: Intent, reply: AdapterReply, accepted: bool, others: nat -> seq<Event>)
      returns (r: Result<Outcome, Failure>)
      requires Valid() && p in processes && processes[p] == Process(Operation.Execute, intent, Calling)
      requires forall k :: Foreign(others(k), p)
      modifies this
      ensures Valid() && old(history) <= history
      ensures p in processes && processes[p] == Process(Operation.Execute, intent, Ending(r))
      ensures CallsOf(State(), intent.recordId) == [Call(p, reply)]
      ensures r.Ok? ==> !r.value.reused && PaidFor(State(), p, intent, reply, r.value)
      ensures r.Err? ==> r.error == if reply.Dies? then ProcessDied else CheckpointRefused
      ensures !reply.Dies? ==> (r.Ok? <==> accepted && !Recovered(history, intent.recordId))
    {
      CallAdapter(p, intent, reply);
      if reply.Dies? {
        return Err(ProcessDied);
      }
      r := StoreAnswer(p, intent, reply, accepted, others);
    }

    /** `execute` after the adapter's answer (lines 91-98): the answer is stored and returned unless the checkpoint raises or a recovery came first. */
    method StoreAnswer(p: nat, intent: Intent, reply: AdapterReply, accepted: bool, others: nat -> seq<Event>)
      returns (r: Result<Outcome, Failure>)
      requires Valid() && !reply.Dies? && CallsOf(State(), intent.recordId) == [Call(p, reply)]
      requires p in processes && processes[p] == Process(Operation.Execute, intent, AfterCall(intent, reply))
      requires forall k :: Foreign(others(k), p)
      modifies this
      ensures Valid() && old(history) <= history
      ensures p in processes && processes[p] == Process(Operation.Execute, intent, Ending(r))
      ensures CallsOf(State(), intent.recordId) == [Call(p, reply)]
      ensures r.Ok? ==> !r.value.reused && PaidFor(State(), p, intent, reply, r.value)
      ensures r.Err? ==> r.error == CheckpointRefused
      ensures r.Ok? <==> accepted && !Recovered(history, intent.recordId)
    {
      var completion := ToCompletion(intent, ResultOf(reply));
      AnsweredKeepsCalls(history, p, others(4));
      Interfere(p, others(4));
      AnswerStoredUnlessRecovered(history, p);
      ghost var before := history;
      var committed := Checkpoint(p, intent, completion, accepted);
      assert history[..|before|] == before;
      if !committed {
        return Err(CheckpointRefused);
      }
      ReturnStored(p, intent, others);
      FirstOutcomeIsDurableAndUnique(history, p, p);
      FirstOutcomeWasNotRecovered(history, p);
      return Ok(OutcomeOf(completion));
    }

    method ReturnStored(p: nat, intent: Intent, others: nat -> seq<Event>)
      requires Valid() && p in processes && processes[p].phase.Committed? && !processes[p].phase.outcome.reused
      requires processes[p].intent == intent && Foreign(others(5), p)
      modifies this
      ensures Valid() && old(history) <= history
      ensures p in processes && processes[p] == old(processes[p]).(phase := Returned(old(processes[p].phase.outcome)))
      ensures CallsOf(State(), intent.recordId) == old(CallsOf(State(), intent.recordId))
    {
      AnsweredKeepsCalls(history, p, others(5));
      Interfere(p, others(5));
      Return(p);
    }

    /** One call of `recover` as invocation `p`. */
    method Recover(p: nat, intent: Intent, accepted: bool, others: nat -> seq<Event>)
      returns (r: Result<Outcome, Failure>)
      requires Valid() && p !in processes
      requires forall k :: Foreign(others(k), p)
      modifies this
      ensures Valid() && old(history) <= history
      ensures p in processes && processes[p] == Process(Operation.Recover, intent, Ending(r))
      ensures |CallsOf(State(), intent.recordId)| <= 1
      ensures forall c :: c in CallsOf(State(), intent.recordId) ==> c.process != p
      ensures r.Ok? ==> HonestReplay(State(), p, intent, r.value) && Answered(history, p, r.value)
      ensures r.Err? ==> r.error.IntentUnavailable? || r.error.FingerprintConflict? || r.error.CheckpointRefused?
    {
      Start(p, Operation.Recover, intent);
      Interfere(p, others(0));
      var current := RequireIntent(p, intent);
      RecoverNeverCalls(history, p, intent.recordId);
      if current.Err? {
        return Err(current.error);
      }
      if current.value.status.Reserved? {
        ReplayIsHonest(history, p, intent);
        return Ok(UnknownOutcome(true));
      }
      if !current.value.status.InProgress? {
        var replay := Replay(current.value);
        if replay.None? {
          assert false;
        }
        ReplayIsHonest(history, p, intent);
        return Ok(replay.value);
      }
      r := ResolveOrphan(p, intent, accepted, others);
    }

    /** `recover` on a record found in progress (lines 115-121). */
    method ResolveOrphan(p: nat, intent: Intent, accepted: bool, others: nat -> seq<Event>)
      returns (r: Result<Outcome, Failure>)
      requires Valid() && p in processes && processes[p].op == Operation.Recover && processes[p].intent == intent
      requires processes[p].phase
            == Committing(Completion(intent.recordId, intent.fingerprint, Unknown, None, map[]), UnknownOutcome(true))
      requires forall k :: Foreign(others(k), p)
      modifies this
      ensures Valid() && old(history) <= history
      ensures p in processes && processes[p] == Process(Operation.Recover, intent, Ending(r))
      ensures |CallsOf(State(), intent.recordId)| <= 1
      ensures forall c :: c in CallsOf(State(), intent.recordId) ==> c.process != p
      ensures r == Ok(UnknownOutcome(true)) || r == Err(CheckpointRefused)
      ensures r.Ok? ==> Answered(history, p, r.value)
    {
      Interfere(p, others(1));
      var committed := Checkpoint(p, intent, Completion(intent.recordId, intent.fingerprint, Unknown, None, map[]), accepted);
      if !committed {
        RecoverNeverCalls(history, p, intent.recordId);
        return Err(CheckpointRefused);
      }
      Interfere(p, others(2));
      Return(p);
      RecoverNeverCalls(history, p, intent.recordId);
      EveryReplayWasRead(history, p, UnknownOutcome(true));
      return Ok(UnknownOutcome(true));
    }
  }
}
