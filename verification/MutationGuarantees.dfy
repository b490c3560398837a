/**
 What the durable mutation boundary promises in every interleaving, with crashes anywhere
 (src/orchestration/mutation_execution.py:1-13).
 */
module MutationGuarantees {
  import opened Prelude
  import opened MutationSafety
  import opened MutationProtocol

  // ---------------------------------------------------------------- other invocations

  /** No event in the list is an action of invocation `p`. */
  predicate Foreign(events: seq<Event>, p: nat) {
    forall i :: 0 <= i < |events| ==> events[i].Reserve? || events[i].p != p
  }

  lemma OthersKeepProcess(s: System, e: Event, p: nat)
    requires e.Reserve? || e.p != p
    ensures p in Apply(s, e).processes <==> p in s.processes
    ensures p in s.processes ==> Apply(s, e).processes[p] == s.processes[p]
  {
    if e.Advance? && e.p in s.processes {
      match s.processes[e.p].phase
      case Loading =>
      case Claiming =>
      case _ =>
    }
  }

  /** What others do never moves an invocation. */
  lemma {:induction false} ForeignEventsKeepProcess(s: System, events: seq<Event>, p: nat)
    requires Foreign(events, p)
    ensures p in Run(s, events).processes <==> p in s.processes
    ensures p in s.processes ==> Run(s, events).processes[p] == s.processes[p]
    decreases |events|
  {
    if events != [] {
      ForeignEventsKeepProcess(s, events[..|events| - 1], p);
      OthersKeepProcess(Run(s, events[..|events| - 1]), events[|events| - 1], p);
    }
  }

  // ---------------------------------------------------------------- at most once

  /** One adapter invocation per idempotency key, made by the invocation of `execute` that claimed the record. */
  lemma AdapterInvokedAtMostOnce(events: seq<Event>, id: string)
    ensures var s := Run(EMPTY, events);
      && |CallsOf(s, id)| <= 1
      && (CallsOf(s, id) != [] ==>
        && id in s.claims && CallsOf(s, id)[0].process == s.claims[id]
        && s.claims[id] in s.processes && s.processes[s.claims[id]].op.Execute?
        && s.processes[s.claims[id]].intent.recordId == id)
  {
    ReachableInv(events);
    var s := Run(EMPTY, events);
    assert id in s.store ==> RecordOk(s, id);
  }

  // ---------------------------------------------------------------- durable statuses only advance

  /** reserved -> in_progress -> one terminal status, or no change. */
  predicate StatusStep(before: ExecutionStatus, after: ExecutionStatus) {
    || before == after
    || (before.Reserved? && after.InProgress?)
    || (before.InProgress? && after.Terminal())
  }

  lemma EventMakesOneStatusStep(s: System, e: Event, id: string)
    requires Inv(s) && id in s.store
    ensures id in Apply(s, e).store
    ensures Apply(s, e).store[id].intent == s.store[id].intent
    ensures StatusStep(s.store[id].status, Apply(s, e).store[id].status)
    ensures s.store[id].status == Apply(s, e).store[id].status ==> s.store[id] == Apply(s, e).store[id]
  {
    if e.Advance? && e.p in s.processes {
      assert ProcessOk(s, e.p);
    }
  }

  /** `later` can follow `row` in some run. */
  ghost predicate Follows(row: Stored, later: Stored) {
    && later.intent == row.intent
    && row.status.Rank() <= later.status.Rank()
    && (row.status == later.status ==> later == row)
    && (row.status.Terminal() ==> later == row)
  }

  /** Ranks never drop, rows never disappear or change hands, and a terminal row is never rewritten. */
  lemma {:induction false} StoredStatusOnlyAdvances(s: System, events: seq<Event>, id: string)
    requires Inv(s) && id in s.store
    ensures id in Run(s, events).store && Follows(s.store[id], Run(s, events).store[id])
    decreases |events|
  {
    if events != [] {
      var earlier := events[..|events| - 1];
      StoredStatusOnlyAdvances(s, earlier, id);
      RunPreservesInv(s, earlier);
      EventMakesOneStatusStep(Run(s, earlier), events[|events| - 1], id);
    }
  }

  // ---------------------------------------------------------------- terminal rows and what callers see

  /** SUCCEEDED and FAILED are stored exactly as the record's single adapter call reported them. */
  lemma TerminalRowIsTheAdaptersWord(events: seq<Event>, id: string)
    requires id in Run(EMPTY, events).store
    requires var row := Run(EMPTY, events).store[id]; row.status.Succeeded? || row.status.Failed?
    ensures var s := Run(EMPTY, events);
      && |CallsOf(s, id)| == 1
      && CallsOf(s, id)[0].reply.Answers?
      && var result := CallsOf(s, id)[0].reply.result;
      && (s.store[id].status.Succeeded? <==> result.status.AdapterSucceeded?)
      && (s.store[id].status.Failed? <==> result.status.AdapterRejected?)
      && s.store[id].reference == result.reference
      && s.store[id].response == Some(result.response)
  {
    ReachableInv(events);
    assert RecordOk(Run(EMPTY, events), id);
  }

  /** `p` returned an outcome that is not a replay. */
  predicate FirstCaller(s: System, p: nat, id: string) {
    && p in s.processes
    && s.processes[p].intent.recordId == id
    && s.processes[p].phase.Returned?
    && !s.processes[p].phase.outcome.reused
  }

  /** An outcome that is not a replay is durable word for word, and only one invocation ever gets it. */
  lemma FirstOutcomeIsDurableAndUnique(events: seq<Event>, p: nat, q: nat)
    requires p in Run(EMPTY, events).processes
    requires FirstCaller(Run(EMPTY, events), p, Run(EMPTY, events).processes[p].intent.recordId)
    ensures var s := Run(EMPTY, events);
      var o := s.processes[p].phase.outcome;
      var id := s.processes[p].intent.recordId;
      && s.processes[p].op.Execute?
      && id in s.store && s.store[id] == Stored(s.processes[p].intent, o.status, o.reference, Some(o.response))
      && (FirstCaller(s, q, id) ==> q == p)
  {
    ReachableInv(events);
    var s := Run(EMPTY, events);
    assert ProcessOk(s, p);
    assert RecordOk(s, s.processes[p].intent.recordId);
    assert q in s.processes ==> ProcessOk(s, q);
  }

  /** Every outcome handed out is either "unknown, look it up" or the durable row. */
  lemma NoOutcomeIsInvented(events: seq<Event>, p: nat)
    requires var s := Run(EMPTY, events); p in s.processes && s.processes[p].phase.Returned?
    ensures var s := Run(EMPTY, events);
      var o := s.processes[p].phase.outcome;
      var intent := s.processes[p].intent;
      && intent.recordId in s.store
      && (o == UnknownOutcome(true)
          || s.store[intent.recordId] == Stored(intent, o.status, o.reference, Some(o.response)))
  {
    ReachableInv(events);
    assert ProcessOk(Run(EMPTY, events), p);
  }

  /** An invocation that had not looked at the terminal row before can only report it. */
  ghost predicate ReportsOnly(s: System, p: nat, row: Stored) {
    p in s.processes ==>
      s.processes[p].intent == row.intent ==>
        || s.processes[p].phase.Loading?
        || s.processes[p].phase == Raised(ProcessDied)
        || s.processes[p].phase == Returned(Outcome(row.status, row.reference, row.response.GetOr(map[]), true))
  }

  lemma EventKeepsLateCaller(s: System, e: Event, id: string, p: nat)
    requires Inv(s) && id in s.store && s.store[id].status.Terminal()
    requires ReportsOnly(s, p, s.store[id])
    ensures ReportsOnly(Apply(s, e), p, s.store[id])
  {
    if e.Reserve? || e.p != p {
      OthersKeepProcess(s, e, p);
    } else if p in s.processes && e.Advance? && s.processes[p].intent == s.store[id].intent {
      assert RecordOk(s, id);
      LateCallerAdvances(s, p, e.reply, e.accepted, s.store[id]);
    }
  }

  lemma LateCallerAdvances(s: System, p: nat, reply: AdapterReply, accepted: bool, row: Stored)
    requires p in s.processes && s.processes[p].intent == row.intent && row.status.Terminal()
    requires row.intent.recordId in s.store && s.store[row.intent.recordId] == row
    requires ReportsOnly(s, p, row)
    ensures ReportsOnly(AdvanceProcess(s, p, reply, accepted), p, row)
  {
    assert Lookup(s.store, row.intent) == Ok(row);
  }

  lemma {:induction false} LateCallersReportTheRow(s: System, events: seq<Event>, id: string, p: nat)
    requires Inv(s) && id in s.store && s.store[id].status.Terminal()
    requires p in s.processes ==> s.processes[p].phase.Loading?
    ensures ReportsOnly(Run(s, events), p, s.store[id])
    decreases |events|
  {
    if events != [] {
      var earlier := events[..|events| - 1];
      LateCallersReportTheRow(s, earlier, id, p);
      StoredStatusOnlyAdvances(s, earlier, id);
      RunPreservesInv(s, earlier);
      EventKeepsLateCaller(Run(s, earlier), events[|events| - 1], id, p);
    }
  }

  /**
   Once a terminal status is durable, every `execute` and `recover` that starts afterwards and
   returns, returns that status, reference and response, whatever else is running; and when the
   first caller returned, its outcome differs from theirs only in `reused`.
   */
  lemma EveryLaterCallerAgrees(before: seq<Event>, after: seq<Event>, id: string, p: nat, first: nat)
    requires id in Run(EMPTY, before).store && Run(EMPTY, before).store[id].status.Terminal()
    requires p !in Run(EMPTY, before).processes
    requires var s := Run(EMPTY, before + after);
      p in s.processes && s.processes[p].phase.Returned? && s.processes[p].intent == Run(EMPTY, before).store[id].intent
    ensures var s := Run(EMPTY, before + after);
      var row := Run(EMPTY, before).store[id];
      && id in s.store && s.store[id] == row && row.response.Some?
      && s.processes[p].phase.outcome == Outcome(row.status, row.reference, row.response.value, true)
      && (FirstCaller(s, first, id) ==>
          s.processes[p].phase.outcome == s.processes[first].phase.outcome.(reused := true))
  {
    var s0 := Run(EMPTY, before);
    ReachableInv(before);
    RunConcat(EMPTY, before, after);
    LateCallersReportTheRow(s0, after, id, p);
    StoredStatusOnlyAdvances(s0, after, id);
    assert RecordOk(s0, id);
    ReachableInv(before + after);
    var s := Run(EMPTY, before + after);
    assert first in s.processes ==> ProcessOk(s, first);
  }

  lemma ReplayerIsNotClaimant(s: System, p: nat, id: string)
    requires Inv(s) && p in s.processes && id in s.store && id in s.claims
    requires s.processes[p].op.Recover? || (s.processes[p].phase.Returned? && s.processes[p].phase.outcome.reused)
    ensures s.claims[id] != p
  {
    assert ProcessOk(s, p) && RecordOk(s, id);
  }

  /** A replayed outcome was not paid for: the invocation that got it never reached the adapter; nor does any `recover`. */
  lemma ReplaysAndRecoveriesNeverCall(events: seq<Event>, p: nat, id: string)
    requires var s := Run(EMPTY, events);
      p in s.processes && (s.processes[p].op.Recover?
        || (s.processes[p].phase.Returned? && s.processes[p].phase.outcome.reused))
    ensures forall c :: c in CallsOf(Run(EMPTY, events), id) ==> c.process != p
  {
    ReachableInv(events);
    var s := Run(EMPTY, events);
    if CallsOf(s, id) != [] {
      assert RecordOk(s, id);
      ReplayerIsNotClaimant(s, p, id);
    }
  }

  // ---------------------------------------------------------------- what a reader of a row returns

  /** "Unknown, look it up". */
  function Undecided(): Outcome {
    Outcome(Unknown, None, map[], true)
  }

  /** The outcome a terminal row stands for, handed out again. */
  predicate Repeats(row: Stored, o: Outcome) {
    && row.status.Terminal() && row.response.Some?
    && o == Outcome(row.status, row.reference, row.response.value, true)
  }

  /**
   In every reachable state: whoever reads a terminal row, at its load or after a missed claim, returns exactly
   that row; a row in progress is "unknown" to `execute`; a reserved one is claimed next by `execute` and is
   "unknown" to `recover`; and a row that is missing or someone else's is an error. Nothing is stored.
   */
  lemma ReadersReturnTheRow(before: seq<Event>, p: nat, reply: AdapterReply, accepted: bool)
    requires var s := Run(EMPTY, before);
      p in s.processes && (s.processes[p].phase.Loading? || s.processes[p].phase.Rereading?)
    ensures var s := Run(EMPTY, before);
      var s' := Apply(s, Advance(p, reply, accepted));
      var at := s.processes[p];
      var id := at.intent.recordId;
      && p in s'.processes && s'.store == s.store
      && var next := s'.processes[p].phase;
      if id !in s.store || s.store[id].intent.tenant != at.intent.tenant then next == Raised(IntentUnavailable)
      else if s.store[id].intent != at.intent then next == Raised(FingerprintConflict)
      else
        match s.store[id].status
        case Reserved => at.phase.Loading? && next == (if at.op.Execute? then Claiming else Returned(Undecided()))
        case InProgress =>
          if at.op.Execute? then next == Returned(Undecided())
          else next == Committing(Completion(id, at.intent.fingerprint, Unknown, None, map[]), Undecided())
        case _ => next.Returned? && Repeats(s.store[id], next.outcome)
  {
    ReachableInv(before);
    var s := Run(EMPTY, before);
    assert ProcessOk(s, p);
    assert s.processes[p].intent.recordId in s.store ==> RecordOk(s, s.processes[p].intent.recordId);
  }

  /** This event made `p` answer with a replay: it read the row in this state, or committed the resolution of an orphan. */
  predicate AnsweredBy(s: System, e: Event, p: nat, o: Outcome) {
    && e.Advance? && e.p == p && p in s.processes && s.processes[p].intent.recordId in s.store
    && var at, row := s.processes[p], s.store[s.processes[p].intent.recordId];
    && row.intent == at.intent
    && if at.phase.Committing? then
         o == Undecided() && at.op.Recover? && row.status.InProgress? && e.accepted
       else
         && (at.phase.Loading? || at.phase.Rereading?)
         && if row.status.Terminal() then Repeats(row, o)
            else o == Undecided() && if at.op.Execute? then row.status.InProgress? else row.status.Reserved?
  }

  ghost predicate Answered(events: seq<Event>, p: nat, o: Outcome) {
    exists k :: 0 <= k < |events| && AnsweredBy(Run(EMPTY, events[..k]), events[k], p, o)
  }

  lemma AnsweredStays(events: seq<Event>, p: nat, o: Outcome)
    requires events != [] && Answered(events[..|events| - 1], p, o)
    ensures Answered(events, p, o)
  {
    var earlier := events[..|events| - 1];
    var k :| 0 <= k < |earlier| && AnsweredBy(Run(EMPTY, earlier[..k]), earlier[k], p, o);
    assert events[..k] == earlier[..k] && events[k] == earlier[k];
  }

  lemma AnsweredNow(events: seq<Event>, p: nat, o: Outcome)
    requires events != [] && AnsweredBy(Run(EMPTY, events[..|events| - 1]), events[|events| - 1], p, o)
    ensures Answered(events, p, o)
  {
  }

  /** A replayed outcome, returned or about to be. */
  predicate Replaying(s: System, p: nat, o: Outcome) {
    p in s.processes && o.reused && (s.processes[p].phase == Returned(o) || s.processes[p].phase == Committed(o))
  }

  lemma ReadAnswers(earlier: seq<Event>, p: nat, reply: AdapterReply, accepted: bool, o: Outcome)
    requires var s := Run(EMPTY, earlier);
      && p in s.processes && (s.processes[p].phase.Loading? || s.processes[p].phase.Rereading?)
      && Replaying(Apply(s, Advance(p, reply, accepted)), p, o)
    ensures AnsweredBy(Run(EMPTY, earlier), Advance(p, reply, accepted), p, o)
  {
    ReadersReturnTheRow(earlier, p, reply, accepted);
  }

  lemma CommitAnswers(earlier: seq<Event>, p: nat, reply: AdapterReply, accepted: bool, o: Outcome)
    requires var s := Run(EMPTY, earlier);
      && p in s.processes && s.processes[p].phase.Committing? && Replaying(Apply(s, Advance(p, reply, accepted)), p, o)
    ensures AnsweredBy(Run(EMPTY, earlier), Advance(p, reply, accepted), p, o)
  {
    ReachableInv(earlier);
    assert ProcessOk(Run(EMPTY, earlier), p);
  }

  lemma OwnStepReplays(s: System, e: Event, p: nat, o: Outcome)
    requires Replaying(Apply(s, e), p, o) && !Replaying(s, p, o)
    ensures e.Advance? && e.p == p && p in s.processes
    ensures s.processes[p].phase.Loading? || s.processes[p].phase.Rereading? || s.processes[p].phase.Committing?
  {
    if e.Reserve? || e.p != p {
      OthersKeepProcess(s, e, p);
    }
  }

  lemma StepAnswers(earlier: seq<Event>, e: Event, p: nat, o: Outcome)
    requires Replaying(Apply(Run(EMPTY, earlier), e), p, o) && !Replaying(Run(EMPTY, earlier), p, o)
    ensures AnsweredBy(Run(EMPTY, earlier), e, p, o)
  {
    var s := Run(EMPTY, earlier);
    OwnStepReplays(s, e, p, o);
    if s.processes[p].phase.Committing? {
      CommitAnswers(earlier, p, e.reply, e.accepted, o);
    } else {
      ReadAnswers(earlier, p, e.reply, e.accepted, o);
    }
  }

  /**
   In any run, whoever ended with a replay got it from the row as it was when that invocation last read it, or
   is a `recover` that resolved an orphan: so an `execute` hands out a reused "unknown" only over a row that
   was in progress, or was the blank UNKNOWN, at that moment.
   */
  lemma {:induction false} EveryReplayWasRead(events: seq<Event>, p: nat, o: Outcome)
    requires Replaying(Run(EMPTY, events), p, o)
    ensures Answered(events, p, o)
    decreases |events|
  {
    var earlier, e := events[..|events| - 1], events[|events| - 1];
    if Replaying(Run(EMPTY, earlier), p, o) {
      EveryReplayWasRead(earlier, p, o);
      AnsweredStays(events, p, o);
    } else {
      StepAnswers(earlier, e, p, o);
      AnsweredNow(events, p, o);
    }
  }

  // ---------------------------------------------------------------- branches that are never taken

  /**
   The guards at lines 82-83 and 112-113 never fire, and the fallback at line 81 is dead: an invocation
   that missed the claim re-reads its own row in a status that replays.
   */
  lemma DefensiveBranchesAreDead(events: seq<Event>, p: nat)
    requires p in Run(EMPTY, events).processes
    ensures var s := Run(EMPTY, events);
      && s.processes[p].phase != Raised(ClaimNotInProgress)
      && s.processes[p].phase != Raised(InvalidDurableState)
      && (s.processes[p].phase.Rereading? ==>
        Lookup(s.store, s.processes[p].intent).Ok? && Replay(Lookup(s.store, s.processes[p].intent).value).Some?)
  {
    ReachableInv(events);
    assert ProcessOk(Run(EMPTY, events), p);
  }

  // ---------------------------------------------------------------- when a call can still happen

  /** The record is unclaimed, or its claimant is standing right before the adapter. */
  predicate Callable(s: System, id: string) {
    || id !in s.store
    || s.store[id].status.Reserved?
    || (id in s.claims && s.claims[id] in s.processes && s.processes[s.claims[id]].phase.Calling?)
  }

  lemma AdvanceKeepsUncallable(s: System, p: nat, reply: AdapterReply, accepted: bool, id: string)
    requires Inv(s) && !Callable(s, id) && p in s.processes
    ensures var s' := AdvanceProcess(s, p, reply, accepted); !Callable(s', id) && CallsOf(s', id) == CallsOf(s, id)
  {
    assert RecordOk(s, id) && ProcessOk(s, p);
    match s.processes[p].phase
    case Claiming =>
    case Calling => assert s.processes[p].intent.recordId != id;
    case Committing(c, o) =>
    case _ =>
  }

  lemma EventKeepsUncallable(s: System, e: Event, id: string)
    requires Inv(s) && !Callable(s, id)
    ensures !Callable(Apply(s, e), id) && CallsOf(Apply(s, e), id) == CallsOf(s, id)
  {
    assert RecordOk(s, id);
    if e.Advance? && e.p in s.processes {
      AdvanceKeepsUncallable(s, e.p, e.reply, e.accepted, id);
    }
  }

  lemma {:induction false} RunKeepsUncallable(s: System, events: seq<Event>, id: string)
    requires Inv(s) && !Callable(s, id)
    ensures !Callable(Run(s, events), id) && CallsOf(Run(s, events), id) == CallsOf(s, id)
    decreases |events|
  {
    if events != [] {
      var earlier := events[..|events| - 1];
      RunKeepsUncallable(s, earlier, id);
      RunPreservesInv(s, earlier);
      EventKeepsUncallable(Run(s, earlier), events[|events| - 1], id);
    }
  }

  lemma {:induction false} NumberAbove(used: set<nat>) returns (p: nat)
    ensures forall q :: q in used ==> q < p
    decreases |used|
  {
    if used == {} {
      p := 0;
    } else {
      var q :| q in used;
      var r := NumberAbove(used - {q});
      p := if q < r then r else q + 1;
      assert forall x :: x in used ==> x == q || x in used - {q};
    }
  }

  lemma RunSnoc(s: System, events: seq<Event>, e: Event)
    ensures Run(s, events + [e]) == Apply(Run(s, events), e)
  {
    assert (events + [e])[..|events|] == events;
  }

  /** A fresh `execute` running undisturbed on a reserved record loads, claims and calls its adapter. */
  lemma UndisturbedExecuteCalls(s: System, id: string, p: nat, reply: AdapterReply)
    requires Inv(s) && id in s.store && s.store[id].status.Reserved? && p !in s.processes
    ensures var step := Advance(p, reply, true);
      var s' := Run(s, [Begin(p, Execute, s.store[id].intent), step, step, step]);
      && CallsOf(s', id) == CallsOf(s, id) + [Call(p, reply)]
      && p in s'.processes && s'.processes[p] == Process(Execute, s.store[id].intent, AfterCall(s.store[id].intent, reply))
      && id in s'.claims && s'.claims[id] == p
      && id in s'.store && s'.store[id] == s.store[id].(status := InProgress)
  {
    var begin, step := Begin(p, Execute, s.store[id].intent), Advance(p, reply, true);
    assert RecordOk(s, id);
    RunSnoc(s, [], begin);
    assert [] + [begin] == [begin];
    RunSnoc(s, [begin], step);
    assert [begin] + [step] == [begin, step];
    RunSnoc(s, [begin, step], step);
    assert [begin, step] + [step] == [begin, step, step];
    RunSnoc(s, [begin, step, step], step);
    assert [begin, step, step] + [step] == [begin, step, step, step];
  }

  lemma ReservedReachesCall(s: System, id: string) returns (events: seq<Event>)
    requires Inv(s) && id in s.store && s.store[id].status.Reserved?
    ensures CallsOf(Run(s, events), id) != CallsOf(s, id)
  {
    var p := NumberAbove(s.processes.Keys);
    var step := Advance(p, Throws, true);
    events := [Begin(p, Execute, s.store[id].intent), step, step, step];
    UndisturbedExecuteCalls(s, id, p, Throws);
  }

  lemma CallableReachesCall(s: System, id: string) returns (events: seq<Event>)
    requires Inv(s) && Callable(s, id)
    ensures CallsOf(Run(s, events), id) != CallsOf(s, id)
  {
    if id !in s.store {
      var reserve := Reserve(Intent(id, "", "", ""));
      ReservePreservesInv(s, reserve.intent);
      assert CallsOf(Apply(s, reserve), id) == CallsOf(s, id);
      var more := ReservedReachesCall(Apply(s, reserve), id);
      RunSnoc(s, [], reserve);
      assert [] + [reserve] == [reserve];
      RunConcat(s, [reserve], more);
      events := [reserve] + more;
    } else if s.store[id].status.Reserved? {
      events := ReservedReachesCall(s, id);
    } else {
      var p := s.claims[id];
      assert RecordOk(s, id);
      events := [Advance(p, Throws, true)];
      RunSnoc(s, [], events[0]);
      assert [] + [events[0]] == events;
      assert CallsOf(Run(s, events), id) == CallsOf(s, id) + [Call(p, Throws)];
    }
  }

  /**
   Some continuation invokes the adapter (again) for this key if and only if the record is still
   unclaimed or its claimant is about to call: seeing IN_PROGRESS does not rule out the one call to
   come, and nothing a later worker, recovery or crash does can add another.
   */
  lemma FurtherCallPossibleIff(before: seq<Event>, id: string)
    ensures var s := Run(EMPTY, before);
      (exists after: seq<Event> :: CallsOf(Run(s, after), id) != CallsOf(s, id)) <==> Callable(s, id)
  {
    ReachableInv(before);
    var s := Run(EMPTY, before);
    if Callable(s, id) {
      var after := CallableReachesCall(s, id);
    } else {
      forall after: seq<Event> ensures CallsOf(Run(s, after), id) == CallsOf(s, id) {
        RunKeepsUncallable(s, after, id);
      }
    }
  }

  // ---------------------------------------------------------------- recovery

  /**
   A fresh `recover` running undisturbed on an orphaned IN_PROGRESS record stores UNKNOWN, returns
   UNKNOWN, and calls nothing.
   */
  lemma UndisturbedRecoverResolves(s: System, id: string, p: nat)
    requires Inv(s) && id in s.store && s.store[id].status.InProgress? && p !in s.processes
    ensures var step := Advance(p, Dies, true);
      var s' := Run(s, [Begin(p, Recover, s.store[id].intent), step, step, step]);
      && id in s'.store
      && s'.store[id] == Stored(s.store[id].intent, Unknown, None, Some(map[]))
      && p in s'.processes && s'.processes[p] == Process(Recover, s.store[id].intent, Returned(UnknownOutcome(true)))
      && s'.calls == s.calls
  {
    var begin, step := Begin(p, Recover, s.store[id].intent), Advance(p, Dies, true);
    assert RecordOk(s, id);
    RunSnoc(s, [], begin);
    assert [] + [begin] == [begin];
    RunSnoc(s, [begin], step);
    assert [begin] + [step] == [begin, step];
    RunSnoc(s, [begin, step], step);
    assert [begin, step] + [step] == [begin, step, step];
    RunSnoc(s, [begin, step, step], step);
    assert [begin, step, step] + [step] == [begin, step, step, step];
  }

  // ---------------------------------------------------------------- when the adapter's answer is stored

  /** The row that the answer of the adapter makes of this intent. */
  function AnswerRow(intent: Intent, reply: AdapterReply): Stored {
    var c := ToCompletion(intent, ResultOf(reply));
    Stored(intent, c.status, c.reference, Some(c.response))
  }

  /** The row that a recovery leaves behind. */
  function RecoveredRow(intent: Intent): Stored {
    Stored(intent, Unknown, None, Some(map[]))
  }

  /** Invocation `p` has its adapter's answer and stands before its checkpoint. */
  predicate AboutToStore(s: System, p: nat) {
    p in s.processes && s.processes[p].phase.Committing? && !s.processes[p].phase.outcome.reused
  }

  /**
   The checkpoint of an answer that does not raise by itself stores the answer if and only if the row is
   still IN_PROGRESS; otherwise the row is UNKNOWN, nothing is stored and the caller gets an error.
   */
  lemma CheckpointStoresExactlyWhenInProgress(before: seq<Event>, p: nat, r: AdapterReply)
    requires AboutToStore(Run(EMPTY, before), p)
    ensures var s := Run(EMPTY, before);
      var at := s.processes[p];
      var id := at.intent.recordId;
      var s' := Apply(s, Advance(p, r, true));
      && id in s.store && p in s'.processes && id in s'.store
      && |CallsOf(s, id)| == 1
      && (s'.processes[p].phase == Committed(at.phase.outcome) <==> s.store[id].status.InProgress?)
      && (s.store[id].status.InProgress? ==> s'.store[id] == AnswerRow(at.intent, CallsOf(s, id)[0].reply))
      && (!s.store[id].status.InProgress? ==>
        s.store[id].status.Unknown? && s'.store == s.store && s'.processes[p].phase == Raised(CheckpointRefused))
  {
    ReachableInv(before);
    var s := Run(EMPTY, before);
    assert ProcessOk(s, p);
    assert RecordOk(s, s.processes[p].intent.recordId);
  }

  /** This event is the checkpoint of a `recover` that commits to the record. */
  predicate RecoveryCommits(s: System, e: Event, id: string) {
    && e.Advance? && e.accepted && e.p in s.processes
    && s.processes[e.p].op.Recover? && s.processes[e.p].intent.recordId == id
    && s.processes[e.p].phase.Committing?
    && CommitHits(s.store, s.processes[e.p].intent.tenant, s.processes[e.p].phase.completion)
  }

  /** This event is the end of invocation `p` between its adapter's answer and the commit: a crash, or a checkpoint that raises by itself. */
  predicate FailsToStore(s: System, e: Event, p: nat) {
    AboutToStore(s, p) && (e == Crash(p) || (e.Advance? && e.p == p && !e.accepted))
  }

  /** Some event of this run from the empty system was such a recovery. */
  predicate Recovered(events: seq<Event>, id: string) {
    if events == [] then false
    else
      var earlier := events[..|events| - 1];
      Recovered(earlier, id) || RecoveryCommits(Run(EMPTY, earlier), events[|events| - 1], id)
  }

  predicate FailedToStore(events: seq<Event>, p: nat) {
    if events == [] then false
    else
      var earlier := events[..|events| - 1];
      FailedToStore(earlier, p) || FailsToStore(Run(EMPTY, earlier), events[|events| - 1], p)
  }

  /** What became of the answer for a claimed record, in terms of the two kinds of events. */
  ghost predicate Fate(s: System, id: string, recovered: bool, failed: bool)
    requires id in s.claims && id in s.store && s.claims[id] in s.processes
  {
    var row, phase := s.store[id], s.processes[s.claims[id]].phase;
    && (recovered ==> row == RecoveredRow(row.intent))
    && (failed ==> phase.Raised?)
    && (phase.Calling? || phase.Committing? ==> (row.status.InProgress? <==> !recovered))
    && (phase.Committed? || phase.Returned? ==> !recovered)
    && (!phase.Calling? && !phase.Committing? && !recovered && CallsOf(s, id) != [] && !CallsOf(s, id)[0].reply.Dies? ==>
          if failed then row.status.InProgress? else row == AnswerRow(row.intent, CallsOf(s, id)[0].reply))
  }

  lemma OwnStepKeepsFate(s: System, id: string, p: nat, reply: AdapterReply, accepted: bool, recovered: bool, failed: bool)
    requires Inv(s) && id in s.claims && s.claims[id] == p && id in s.store && p in s.processes
    requires Fate(s, id, recovered, failed)
    ensures var s' := AdvanceProcess(s, p, reply, accepted);
      && id in s'.claims && s'.claims[id] == p && id in s'.store && p in s'.processes
      && Fate(s', id, recovered, failed || FailsToStore(s, Advance(p, reply, accepted), p))
  {
    assert RecordOk(s, id) && ProcessOk(s, p);
    match s.processes[p].phase
    case Calling => assert CallsOf(AdvanceProcess(s, p, reply, accepted), id) == [Call(p, reply)];
    case Committing(c, o) => assert CallsOf(AdvanceProcess(s, p, reply, accepted), id) == CallsOf(s, id);
    case Committed(o) => assert CallsOf(AdvanceProcess(s, p, reply, accepted), id) == CallsOf(s, id);
    case Returned(o) =>
    case Raised(failure) =>
  }

  /** Only its claimant, or the checkpoint of a recovery, can touch a claimed record. */
  lemma OthersLeaveClaimedRecord(s: System, id: string, q: nat, reply: AdapterReply, accepted: bool)
    requires Inv(s) && id in s.claims && s.claims[id] != q && id in s.store && q in s.processes
    requires !RecoveryCommits(s, Advance(q, reply, accepted), id)
    ensures SameRecord(s, AdvanceProcess(s, q, reply, accepted), id)
  {
    assert RecordOk(s, id) && ProcessOk(s, q);
    match s.processes[q].phase
    case Claiming =>
    case Calling => assert s.processes[q].intent.recordId != id;
    case Committing(c, o) =>
    case _ =>
  }

  lemma OtherStepKeepsFate(s: System, id: string, q: nat, reply: AdapterReply, accepted: bool, recovered: bool, failed: bool)
    requires Inv(s) && id in s.claims && s.claims[id] != q && id in s.store && s.claims[id] in s.processes && q in s.processes
    requires Fate(s, id, recovered, failed)
    ensures var s' := AdvanceProcess(s, q, reply, accepted);
      && id in s'.claims && s'.claims[id] == s.claims[id] && id in s'.store && s.claims[id] in s'.processes
      && Fate(s', id, recovered || RecoveryCommits(s, Advance(q, reply, accepted), id), failed)
  {
    var s' := AdvanceProcess(s, q, reply, accepted);
    OthersKeepProcess(s, Advance(q, reply, accepted), s.claims[id]);
    if RecoveryCommits(s, Advance(q, reply, accepted), id) {
      assert RecordOk(s, id) && ProcessOk(s, q) && ProcessOk(s, s.claims[id]);
      assert CallsOf(s', id) == CallsOf(s, id);
      assert s'.store[id] == RecoveredRow(s.store[id].intent);
    } else {
      OthersLeaveClaimedRecord(s, id, q, reply, accepted);
    }
  }

  lemma CrashKeepsFate(s: System, id: string, q: nat, recovered: bool, failed: bool)
    requires Inv(s) && id in s.claims && id in s.store && s.claims[id] in s.processes && Fate(s, id, recovered, failed)
    ensures var s' := Apply(s, Crash(q));
      && id in s'.claims && s'.claims[id] == s.claims[id] && id in s'.store && s.claims[id] in s'.processes
      && Fate(s', id, recovered, failed || FailsToStore(s, Crash(q), s.claims[id]))
  {
    assert CallsOf(Apply(s, Crash(q)), id) == CallsOf(s, id);
    assert ProcessOk(s, s.claims[id]) && RecordOk(s, id);
  }

  lemma EventKeepsFate(s: System, e: Event, id: string, recovered: bool, failed: bool)
    requires Inv(s) && id in s.claims && id in s.store && s.claims[id] in s.processes && Fate(s, id, recovered, failed)
    ensures var s' := Apply(s, e);
      && id in s'.claims && s'.claims[id] == s.claims[id] && id in s'.store && s.claims[id] in s'.processes
      && Fate(s', id, recovered || RecoveryCommits(s, e, id), failed || FailsToStore(s, e, s.claims[id]))
  {
    var p := s.claims[id];
    match e
    case Advance(q, reply, accepted) =>
      if q == p {
        assert ProcessOk(s, p) && RecordOk(s, id);
        OwnStepKeepsFate(s, id, p, reply, accepted, recovered, failed);
      } else if q in s.processes {
        OtherStepKeepsFate(s, id, q, reply, accepted, recovered, failed);
      }
    case Crash(q) =>
      CrashKeepsFate(s, id, q, recovered, failed);
    case _ =>
      assert CallsOf(Apply(s, e), id) == CallsOf(s, id);
  }

  /** An unclaimed record has not been recovered. */
  lemma {:induction false} RecoveredIsClaimed(events: seq<Event>, id: string)
    requires Recovered(events, id)
    ensures id in Run(EMPTY, events).claims
    decreases |events|
  {
    var earlier, e := events[..|events| - 1], events[|events| - 1];
    var s := Run(EMPTY, earlier);
    if Recovered(earlier, id) {
      RecoveredIsClaimed(earlier, id);
    } else {
      ReachableInv(earlier);
      assert RecordOk(s, id) && ProcessOk(s, e.p);
    }
    ClaimsStay(s, e, id);
  }

  lemma ClaimsStay(s: System, e: Event, id: string)
    ensures id in s.claims ==> id in Apply(s, e).claims
  {
  }

  /** An invocation that failed to store has ended. */
  lemma {:induction false} FailedHasEnded(events: seq<Event>, p: nat)
    requires FailedToStore(events, p)
    ensures p in Run(EMPTY, events).processes && Run(EMPTY, events).processes[p].phase.Raised?
    decreases |events|
  {
    var earlier, e := events[..|events| - 1], events[|events| - 1];
    if FailedToStore(earlier, p) {
      FailedHasEnded(earlier, p);
    }
    RaisedStays(Run(EMPTY, earlier), e, p);
  }

  lemma RaisedStays(s: System, e: Event, p: nat)
    requires p in s.processes && (s.processes[p].phase.Raised? || FailsToStore(s, e, p))
    ensures p in Apply(s, e).processes && Apply(s, e).processes[p].phase.Raised?
  {
    if e.Reserve? || e.p != p {
      OthersKeepProcess(s, e, p);
    }
  }

  /** The claim of a record begins its story. */
  lemma ClaimBeginsFate(s: System, e: Event, id: string)
    requires Inv(s) && id !in s.claims && id in Apply(s, e).claims
    ensures var s' := Apply(s, e);
      && e.Advance? && s'.claims[id] == e.p && id in s'.store && e.p in s'.processes && e.p in s.processes
      && s.processes[e.p].phase.Claiming? && Fate(s', id, false, false)
      && !RecoveryCommits(s, e, id) && !FailsToStore(s, e, e.p)
  {
    assert e.Advance? && e.p in s.processes && s.processes[e.p].phase.Claiming?;
    assert ProcessOk(s, e.p) && RecordOk(s, id);
  }

  lemma {:induction false} FateOfRun(events: seq<Event>, id: string)
    requires id in Run(EMPTY, events).claims
    ensures var s := Run(EMPTY, events);
      && id in s.store && s.claims[id] in s.processes
      && Fate(s, id, Recovered(events, id), FailedToStore(events, s.claims[id]))
    decreases |events|
  {
    var earlier, e := events[..|events| - 1], events[|events| - 1];
    var s := Run(EMPTY, earlier);
    ReachableInv(earlier);
    if id in s.claims {
      FateOfRun(earlier, id);
      EventKeepsFate(s, e, id, Recovered(earlier, id), FailedToStore(earlier, s.claims[id]));
    } else {
      ClaimBeginsFate(s, e, id);
      if Recovered(earlier, id) {
        RecoveredIsClaimed(earlier, id);
      }
      if FailedToStore(earlier, e.p) {
        FailedHasEnded(earlier, e.p);
      }
    }
  }

  /**
   In any run, once the invocation that called the adapter has ended: unless a `recover` of the record
   committed first, the answer is stored if and only if that invocation neither crashed nor had its
   checkpoint raise before the commit; and if a `recover` committed first, the row is the blank UNKNOWN.
   */
  lemma AnswerIsStoredExactlyWhen(events: seq<Event>, id: string)
    requires var s := Run(EMPTY, events);
      && CallsOf(s, id) != [] && !CallsOf(s, id)[0].reply.Dies?
      && id in s.claims && s.claims[id] in s.processes && s.processes[s.claims[id]].phase.Final()
    ensures var s := Run(EMPTY, events);
      && id in s.store
      && var row, caller := s.store[id], s.claims[id];
      var answer := AnswerRow(row.intent, CallsOf(s, id)[0].reply);
      && (row == answer <==>
            (if Recovered(events, id) then answer == RecoveredRow(row.intent) else !FailedToStore(events, caller)))
      && (Recovered(events, id) ==> row == RecoveredRow(row.intent))
      && (s.processes[caller].phase.Returned? ==> !Recovered(events, id) && row == answer)
  {
    FateOfRun(events, id);
    if FailedToStore(events, Run(EMPTY, events).claims[id]) {
      FailedHasEnded(events, Run(EMPTY, events).claims[id]);
    }
  }

  // ---------------------------------------------------------------- recovery overtakes a running claimant

  /** Nothing crashes and no checkpoint raises by itself. */
  predicate Undisturbed(events: seq<Event>) {
    forall e :: e in events ==> !e.Crash? && (e.Advance? ==> e.accepted)
  }

  /** `execute` up to the adapter, on a fresh reservation. */
  lemma ReachesCalling(intent: Intent) returns (events: seq<Event>)
    ensures Undisturbed(events)
    ensures var s := Run(EMPTY, events);
      && s.processes == map[0 := Process(Execute, intent, Calling)]
      && s.store == map[intent.recordId := Stored(intent, InProgress, None, None)]
      && s.claims == map[intent.recordId := 0] && s.calls == map[]
  {
    var step := Advance(0, Throws, true);
    var e0, e1 := Reserve(intent), Begin(0, Execute, intent);
    events := [e0, e1, step, step];
    RunSnoc(EMPTY, [], e0);
    assert [] + [e0] == [e0];
    RunSnoc(EMPTY, [e0], e1);
    assert [e0] + [e1] == [e0, e1];
    RunSnoc(EMPTY, [e0, e1], step);
    assert [e0, e1] + [step] == [e0, e1, step];
    RunSnoc(EMPTY, [e0, e1, step], step);
    assert [e0, e1, step] + [step] == events;
  }

  /** A claimant about to call, called and then checkpointed: refused exactly when its record was resolved meanwhile. */
  lemma ClaimantIsRefusedExactlyWhenOvertaken(s: System, p: nat, result: AdapterResult)
    requires Inv(s) && p in s.processes && s.processes[p].phase.Calling?
    ensures var at := s.processes[p];
      var id := at.intent.recordId;
      var called := Apply(Apply(s, Advance(p, Answers(result), true)), Advance(p, Dies, true));
      && id in s.store && CallsOf(s, id) == [] && CallsOf(called, id) == [Call(p, Answers(result))]
      && p in called.processes && called.processes[p] == at.(phase := called.processes[p].phase) && id in called.store
      && (called.processes[p].phase == Raised(CheckpointRefused) <==> s.store[id].status.Unknown?)
      && (s.store[id].status.Unknown? <==> !s.store[id].status.InProgress?)
      && (s.store[id].status.Unknown? ==> called.store == s.store)
      && (s.store[id].status.InProgress? ==> called.store[id] == AnswerRow(at.intent, Answers(result)))
  {
    assert ProcessOk(s, p);
    var at := s.processes[p];
    var answered := Apply(s, Advance(p, Answers(result), true));
    assert answered.processes[p].phase == AfterCall(at.intent, Answers(result));
    assert CallsOf(answered, at.intent.recordId) == [Call(p, Answers(result))];
  }

  /**
   Recovery cannot tell an orphan from a slow claimant: from any state with a claimant about to call, a
   `recover` may resolve the record to UNKNOWN; the claimant then calls (once) and its checkpoint is refused.
   */
  lemma RecoverMayOvertakeTheClaimant(s: System, id: string, q: nat, result: AdapterResult)
    requires Inv(s) && id in s.claims && s.processes[s.claims[id]].phase.Calling?
    requires s.store[id].status.InProgress? && q !in s.processes
    ensures var p, step := s.claims[id], Advance(q, Dies, true);
      var intent := s.store[id].intent;
      var recovered := Run(s, [Begin(q, Recover, intent), step, step, step]);
      var called := Apply(Apply(recovered, Advance(p, Answers(result), true)), Advance(p, Dies, true));
      && CallsOf(called, id) == [Call(p, Answers(result))]
      && id in called.store && called.store[id] == RecoveredRow(intent)
      && p in called.processes && called.processes[p] == Process(Execute, intent, Raised(CheckpointRefused))
      && q in called.processes && called.processes[q] == Process(Recover, intent, Returned(UnknownOutcome(true)))
  {
    var p, step := s.claims[id], Advance(q, Dies, true);
    var events := [Begin(q, Recover, s.store[id].intent), step, step, step];
    assert RecordOk(s, id) && ProcessOk(s, p);
    UndisturbedRecoverResolves(s, id, q);
    ForeignEventsKeepProcess(s, events, p);
    RunPreservesInv(s, events);
    var recovered := Run(s, events);
    var call, commit := Advance(p, Answers(result), true), Advance(p, Dies, true);
    ClaimantIsRefusedExactlyWhenOvertaken(recovered, p, result);
    OthersKeepProcess(recovered, call, q);
    OthersKeepProcess(Apply(recovered, call), commit, q);
  }

  /** It happens in a run from the empty system, for any intent and any answer, although nothing crashes or raises by itself. */
  lemma OvertakingHappens(intent: Intent, result: AdapterResult) returns (events: seq<Event>)
    ensures Undisturbed(events)
    ensures var s := Run(EMPTY, events);
      && CallsOf(s, intent.recordId) == [Call(0, Answers(result))]
      && intent.recordId in s.store && s.store[intent.recordId] == RecoveredRow(intent)
      && 0 in s.processes && s.processes[0] == Process(Execute, intent, Raised(CheckpointRefused))
      && 1 in s.processes && s.processes[1] == Process(Recover, intent, Returned(UnknownOutcome(true)))
  {
    var before := ReachesCalling(intent);
    var step := Advance(1, Dies, true);
    var recovery := [Begin(1, Recover, intent), step, step, step];
    var call, commit := Advance(0, Answers(result), true), Advance(0, Dies, true);
    ReachableInv(before);
    RecoverMayOvertakeTheClaimant(Run(EMPTY, before), intent.recordId, 1, result);
    RunConcat(EMPTY, before, recovery);
    RunSnoc(EMPTY, before + recovery, call);
    RunSnoc(EMPTY, before + recovery + [call], commit);
    events := before + recovery + [call] + [commit];
  }
}
