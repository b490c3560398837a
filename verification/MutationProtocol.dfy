/**
 The durable mutation boundary as a transition system: any number of invocations of
 `execute` and `recover` interleave their atomic accesses to one durable store, and each
 may die between any two accesses (src/orchestration/mutation_execution.py, with the
 store of src/repositories/mutations.py and the completing update of
 src/repositories/runs.py).
 */
module MutationProtocol {
  import opened Prelude
  import opened MutationSafety

  datatype Outcome = Outcome(status: ExecutionStatus, reference: Option<string>, response: Payload, reused: bool)

  datatype Failure =
    | IntentUnavailable     // no row for this record and tenant
    | FingerprintConflict   // the row belongs to another intent
    | ClaimNotInProgress    // "claimed mutation did not enter in_progress"
    | InvalidDurableState   // "invalid durable mutation state"
    | CheckpointRefused     // the checkpoint callable raised
    | ProcessDied           // hard crash: nothing after it runs

  // ---------------------------------------------------------------- pure helpers of the boundary

  function UnknownOutcome(reused: bool): Outcome {
    Outcome(Unknown, None, map[], reused)
  }

  function ExecutionStatusOf(status: AdapterStatus): ExecutionStatus {
    match status
    case AdapterSucceeded => Succeeded
    case AdapterRejected => Failed
    case AdapterUnknown => Unknown
  }

  function ToCompletion(intent: Intent, result: AdapterResult): Completion {
    Completion(intent.recordId, intent.fingerprint, ExecutionStatusOf(result.status), result.reference, result.response)
  }

  function OutcomeOf(c: Completion): Outcome {
    Outcome(c.status, c.reference, c.response, false)
  }

  function Replay(stored: Stored): Option<Outcome> {
    match stored.status
    case Reserved => None
    case InProgress => Some(UnknownOutcome(true))
    case _ => Some(Outcome(stored.status, stored.reference, stored.response.GetOr(map[]), true))
  }

  // ---------------------------------------------------------------- the store's atomic accesses

  /** Rows by record id. */
  type Store = map<string, Stored>

  /** `load` followed by `_require_intent`. */
  function Lookup(store: Store, intent: Intent): Result<Stored, Failure> {
    if intent.recordId !in store || store[intent.recordId].intent.tenant != intent.tenant then
      Err(IntentUnavailable)
    else if store[intent.recordId].intent != intent then
      Err(FingerprintConflict)
    else
      Ok(store[intent.recordId])
  }

  /** The guard of the claiming UPDATE. */
  predicate ClaimHits(store: Store, intent: Intent) {
    && intent.recordId in store
    && store[intent.recordId].intent == intent
    && store[intent.recordId].status.Reserved?
  }

  function ClaimedRow(row: Stored): Stored {
    row.(status := InProgress)
  }

  /** The guard of the completing UPDATE, run in the tenant of the agent run. */
  predicate CommitHits(store: Store, tenant: string, c: Completion) {
    && c.recordId in store
    && store[c.recordId].intent.tenant == tenant
    && store[c.recordId].intent.fingerprint == c.fingerprint
    && store[c.recordId].status.InProgress?
  }

  function CompletedRow(row: Stored, c: Completion): Stored {
    row.(status := c.status, reference := c.reference, response := Some(c.response))
  }

  // ---------------------------------------------------------------- invocations and events

  datatype Operation = Execute | Recover

  /** Where an invocation stands; each non-final phase names the next atomic access. */
  datatype Phase =
    | Loading                                            // load and _require_intent
    | Claiming                                           // the claiming UPDATE
    | Rereading                                          // the load after a missed UPDATE
    | Calling                                            // the adapter
    | Committing(completion: Completion, outcome: Outcome)
    | Committed(outcome: Outcome)                        // durable, not yet returned
    | Returned(outcome: Outcome)
    | Raised(failure: Failure)
  {
    predicate Final() {
      Returned? || Raised?
    }
  }

  datatype Process = Process(op: Operation, intent: Intent, phase: Phase)

  /** What calling the adapter leads to: an answer, an Exception, or the end of the process. */
  datatype AdapterReply = Answers(result: AdapterResult) | Throws | Dies

  function ResultOf(reply: AdapterReply): AdapterResult {
    if reply.Answers? then reply.result else AdapterResult(AdapterUnknown, None, map[])
  }

  datatype Call = Call(process: nat, reply: AdapterReply)

  /** `calls` and `claims` are history: adapter invocations per idempotency key, and who claimed a record. */
  datatype System = System(store: Store, processes: map<nat, Process>, calls: map<string, seq<Call>>, claims: map<string, nat>)

  datatype Event =
    | Reserve(intent: Intent)
    | Begin(p: nat, op: Operation, intent: Intent)
    | Advance(p: nat, reply: AdapterReply, accepted: bool)
    | Crash(p: nat)

  const EMPTY: System := System(map[], map[], map[], map[])

  function CallsOf(s: System, id: string): seq<Call> {
    if id in s.calls then s.calls[id] else []
  }

  function Enter(s: System, p: nat, phase: Phase): System
    requires p in s.processes
  {
    s.(processes := s.processes[p := s.processes[p].(phase := phase)])
  }

  function AfterLoad(op: Operation, intent: Intent, loaded: Result<Stored, Failure>): Phase {
    match loaded
    case Err(failure) => Raised(failure)
    case Ok(row) =>
      match op
      case Execute =>
        var replay := Replay(row);
        if replay.Some? then Returned(replay.value) else Claiming
      case Recover =>
        if row.status.Reserved? then
          Returned(UnknownOutcome(true))
        else if !row.status.InProgress? then
          var replay := Replay(row);
          if replay.None? then Raised(InvalidDurableState) else Returned(replay.value)
        else
          Committing(Completion(intent.recordId, intent.fingerprint, Unknown, None, map[]), UnknownOutcome(true))
  }

  function AfterReread(loaded: Result<Stored, Failure>): Phase {
    match loaded
    case Err(failure) => Raised(failure)
    case Ok(row) => Returned(Replay(row).GetOr(UnknownOutcome(true)))
  }

  function AfterCall(intent: Intent, reply: AdapterReply): Phase {
    if reply.Dies? then
      Raised(ProcessDied)
    else
      var completion := ToCompletion(intent, ResultOf(reply));
      Committing(completion, OutcomeOf(completion))
  }

  /** The next atomic access of invocation `p`; `accepted` is false when the checkpoint raises without committing. */
  function AdvanceProcess(s: System, p: nat, reply: AdapterReply, accepted: bool): System
    requires p in s.processes
  {
    var intent := s.processes[p].intent;
    var id := intent.recordId;
    match s.processes[p].phase
    case Loading =>
      Enter(s, p, AfterLoad(s.processes[p].op, intent, Lookup(s.store, intent)))
    case Claiming =>
      if ClaimHits(s.store, intent) then
        var row := ClaimedRow(s.store[id]);
        Enter(s, p, if row.status.InProgress? then Calling else Raised(ClaimNotInProgress))
        .(store := s.store[id := row], claims := s.claims[id := p])
      else
        Enter(s, p, Rereading)
    case Rereading =>
      Enter(s, p, AfterReread(Lookup(s.store, intent)))
    case Calling =>
      Enter(s, p, AfterCall(intent, reply)).(calls := s.calls[id := CallsOf(s, id) + [Call(p, reply)]])
    case Committing(c, outcome) =>
      if accepted && CommitHits(s.store, intent.tenant, c) then
        Enter(s, p, Committed(outcome)).(store := s.store[c.recordId := CompletedRow(s.store[c.recordId], c)])
      else
        Enter(s, p, Raised(CheckpointRefused))
    case Committed(outcome) =>
      Enter(s, p, Returned(outcome))
    case _ => s
  }

  function Apply(s: System, e: Event): System {
    match e
    case Reserve(intent) =>
      if intent.recordId in s.store then s
      else s.(store := s.store[intent.recordId := Stored(intent, Reserved, None, None)])
    case Begin(p, op, intent) =>
      if p in s.processes then s else s.(processes := s.processes[p := Process(op, intent, Loading)])
    case Advance(p, reply, accepted) =>
      if p in s.processes then AdvanceProcess(s, p, reply, accepted) else s
    case Crash(p) =>
      if p in s.processes && !s.processes[p].phase.Final() then Enter(s, p, Raised(ProcessDied)) else s
  }

  /** Any list of events is a run: an event that is not possible changes nothing. */
  function Run(s: System, events: seq<Event>): System {
    if events == [] then s else Apply(Run(s, events[..|events| - 1]), events[|events| - 1])
  }

  lemma {:induction false} RunConcat(s: System, a: seq<Event>, b: seq<Event>)
    ensures Run(s, a + b) == Run(Run(s, a), b)
    decreases |b|
  {
    if b == [] {
      assert a + b == a;
    } else {
      RunConcat(s, a, b[..|b| - 1]);
      assert (a + b)[..|a + b| - 1] == a + b[..|b| - 1];
    }
  }

  // ---------------------------------------------------------------- what every reachable state satisfies

  /** The stored row says what this adapter reply reported. */
  ghost predicate Explains(row: Stored, reply: AdapterReply) {
    && !reply.Dies?
    && row == CompletedRow(row, ToCompletion(row.intent, ResultOf(reply)))
  }

  ghost predicate RecordOk(s: System, id: string)
    requires id in s.store
  {
    var row := s.store[id];
    && row.intent.recordId == id
    && (row.status.Reserved? <==> id !in s.claims)
    && (row.status.Reserved? ==> CallsOf(s, id) == [])
    && |CallsOf(s, id)| <= 1
    && (id in s.claims ==>
      && s.claims[id] in s.processes
      && s.processes[s.claims[id]].intent == row.intent
      && s.processes[s.claims[id]].op.Execute?)
    && (CallsOf(s, id) != [] ==> CallsOf(s, id)[0].process == s.claims[id])
    && (row.status.Succeeded? || row.status.Failed? ==> CallsOf(s, id) != [] && Explains(row, CallsOf(s, id)[0].reply))
    && (row.status.Unknown? ==>
      || row == CompletedRow(row, Completion(id, "", Unknown, None, map[]))
      || (CallsOf(s, id) != [] && Explains(row, CallsOf(s, id)[0].reply)))
  }

  /** The row of this intent exists and nobody else can own it. */
  ghost predicate Bound(s: System, intent: Intent) {
    intent.recordId in s.store && s.store[intent.recordId].intent == intent
  }

  ghost predicate Claimant(s: System, p: nat, intent: Intent) {
    Bound(s, intent) && intent.recordId in s.claims && s.claims[intent.recordId] == p
  }

  /** An outcome handed out, or about to be: an honest "unknown", or exactly what is durable. */
  ghost predicate Settled(s: System, p: nat, intent: Intent, o: Outcome) {
    && Bound(s, intent)
    && (o == UnknownOutcome(true) || (
      var row := s.store[intent.recordId];
      && row.status.Terminal()
      && row == row.(status := o.status, reference := o.reference, response := Some(o.response))
      && (!o.reused ==> Claimant(s, p, intent) && CallsOf(s, intent.recordId) != [])))
  }

  /** Where the invocation that won the claim can stand. */
  predicate ClaimantPhase(phase: Phase) {
    match phase
    case Calling => true
    case Committing(_, o) => !o.reused
    case Committed(o) => !o.reused
    case Returned(o) => !o.reused
    case Raised(_) => true
    case _ => false
  }

  ghost predicate ProcessOk(s: System, p: nat)
    requires p in s.processes
  {
    var intent := s.processes[p].intent;
    && (intent.recordId in s.claims && s.claims[intent.recordId] == p ==> ClaimantPhase(s.processes[p].phase))
    && PhaseOk(s, p)
  }

  ghost predicate PhaseOk(s: System, p: nat)
    requires p in s.processes
  {
    var intent := s.processes[p].intent;
    var id := intent.recordId;
    match s.processes[p].phase
    case Loading => true
    case Claiming => s.processes[p].op.Execute? && Bound(s, intent)
    case Rereading => s.processes[p].op.Execute? && Bound(s, intent) && !s.store[id].status.Reserved?
    case Calling =>
      && s.processes[p].op.Execute?
      && Claimant(s, p, intent)
      && CallsOf(s, id) == []
      && (s.store[id].status.InProgress? || s.store[id].status.Unknown?)
    case Committing(c, o) =>
      && Bound(s, intent)
      && !s.store[id].status.Reserved?
      && c.recordId == id && c.fingerprint == intent.fingerprint
      && if o.reused then
        && s.processes[p].op.Recover?
        && o == UnknownOutcome(true) && c == Completion(id, intent.fingerprint, Unknown, None, map[])
      else
        && Claimant(s, p, intent)
        && |CallsOf(s, id)| == 1 && !CallsOf(s, id)[0].reply.Dies?
        && c == ToCompletion(intent, ResultOf(CallsOf(s, id)[0].reply))
        && o == OutcomeOf(c)
        && (s.store[id].status.InProgress? || s.store[id].status.Unknown?)
    case Committed(o) => Settled(s, p, intent, o) && (o.reused ==> s.processes[p].op.Recover? && o == UnknownOutcome(true))
    case Returned(o) => Settled(s, p, intent, o)
    case Raised(failure) => !failure.ClaimNotInProgress? && !failure.InvalidDurableState?
  }

  ghost predicate Inv(s: System) {
    && (forall id :: id in s.store ==> RecordOk(s, id))
    && (forall id :: id in s.claims ==> id in s.store)
    && (forall id :: CallsOf(s, id) != [] ==> id in s.store)
    && (forall p :: p in s.processes ==> ProcessOk(s, p))
  }

  /** Nothing that RecordOk says about this record has changed, apart from process phases. */
  ghost predicate SameRecord(s: System, s': System, id: string) {
    && (id in s.store <==> id in s'.store)
    && (id in s.store ==> s.store[id] == s'.store[id])
    && CallsOf(s, id) == CallsOf(s', id)
    && (id in s.claims <==> id in s'.claims)
    && (id in s.claims ==> s.claims[id] == s'.claims[id])
  }

  ghost predicate KeepsProcesses(s: System, s': System) {
    forall q :: q in s.processes ==>
      q in s'.processes && s'.processes[q].op == s.processes[q].op && s'.processes[q].intent == s.processes[q].intent
  }

  lemma FrameRecord(s: System, s': System, id: string)
    requires id in s.store && RecordOk(s, id) && SameRecord(s, s', id) && KeepsProcesses(s, s')
    ensures RecordOk(s', id)
  {
  }

  lemma FrameProcess(s: System, s': System, q: nat)
    requires q in s.processes && q in s'.processes && s'.processes[q] == s.processes[q]
    requires ProcessOk(s, q) && SameRecord(s, s', s.processes[q].intent.recordId)
    ensures ProcessOk(s', q)
  {
  }

  /** Only the phase of `p` changes. */
  lemma EnterPreservesInv(s: System, p: nat, phase: Phase)
    requires Inv(s) && p in s.processes && ProcessOk(Enter(s, p, phase), p)
    ensures Inv(Enter(s, p, phase))
  {
    var s' := Enter(s, p, phase);
    forall id | id in s'.store ensures RecordOk(s', id) {
      FrameRecord(s, s', id);
    }
    forall q | q in s'.processes ensures ProcessOk(s', q) {
      if q != p {
        FrameProcess(s, s', q);
      }
    }
  }

  /** Only record `id` changes, and only the phase of `p`; the rest is inherited. */
  lemma RecordStepPreservesInv(s: System, s': System, p: nat, id: string)
    requires Inv(s) && p in s.processes && KeepsProcesses(s, s') && s'.processes.Keys == s.processes.Keys
    requires id in s'.store && s'.store.Keys == s.store.Keys
    requires forall q :: q in s.processes && q != p ==> s'.processes[q] == s.processes[q]
    requires forall j :: j != id ==> SameRecord(s, s', j)
    requires RecordOk(s', id) && ProcessOk(s', p)
    requires forall q :: q in s.processes && q != p && s.processes[q].intent.recordId == id ==> ProcessOk(s', q)
    ensures Inv(s')
  {
    forall j | j in s'.store ensures RecordOk(s', j) {
      if j != id {
        FrameRecord(s, s', j);
      }
    }
    forall q | q in s'.processes ensures ProcessOk(s', q) {
      if q != p && s.processes[q].intent.recordId != id {
        FrameProcess(s, s', q);
      }
    }
    forall j | j in s'.claims ensures j in s'.store {
      if j != id {
        assert SameRecord(s, s', j);
      }
    }
    forall j | CallsOf(s', j) != [] ensures j in s'.store {
      if j != id {
        assert SameRecord(s, s', j);
      }
    }
  }

  /** The claiming UPDATE leaves its record claimed once, and disturbs no other invocation on it. */
  lemma ClaimSettles(s: System, p: nat)
    requires Inv(s) && p in s.processes && s.processes[p].phase.Claiming? && ClaimHits(s.store, s.processes[p].intent)
    ensures var s' := AdvanceProcess(s, p, Dies, false);
      && RecordOk(s', s.processes[p].intent.recordId)
      && forall q :: q in s.processes && s.processes[q].intent.recordId == s.processes[p].intent.recordId ==> ProcessOk(s', q)
  {
    var id := s.processes[p].intent.recordId;
    var s' := AdvanceProcess(s, p, Dies, false);
    assert RecordOk(s, id) && ProcessOk(s, p);
    assert CallsOf(s', id) == CallsOf(s, id) == [];
    forall q | q in s.processes && s.processes[q].intent.recordId == id ensures ProcessOk(s', q) {
      assert ProcessOk(s, q);
    }
  }

  lemma ClaimPreservesInv(s: System, p: nat)
    requires Inv(s) && p in s.processes && s.processes[p].phase.Claiming? && ClaimHits(s.store, s.processes[p].intent)
    ensures Inv(AdvanceProcess(s, p, Dies, false))
  {
    var id := s.processes[p].intent.recordId;
    ClaimSettles(s, p);
    var s' := AdvanceProcess(s, p, Dies, false);
    forall j | j != id ensures SameRecord(s, s', j) {
      assert CallsOf(s', j) == CallsOf(s, j);
    }
    RecordStepPreservesInv(s, s', p, id);
  }

  /** The adapter call is the record's first, and disturbs no other invocation on it. */
  lemma CallSettles(s: System, p: nat, reply: AdapterReply)
    requires Inv(s) && p in s.processes && s.processes[p].phase.Calling?
    ensures var s' := AdvanceProcess(s, p, reply, false);
      && s.processes[p].intent.recordId in s'.store
      && RecordOk(s', s.processes[p].intent.recordId)
      && forall q :: q in s.processes && s.processes[q].intent.recordId == s.processes[p].intent.recordId ==> ProcessOk(s', q)
  {
    var id := s.processes[p].intent.recordId;
    var s' := AdvanceProcess(s, p, reply, false);
    assert RecordOk(s, id) && ProcessOk(s, p);
    assert CallsOf(s', id) == [Call(p, reply)];
    forall q | q in s.processes && s.processes[q].intent.recordId == id ensures ProcessOk(s', q) {
      assert ProcessOk(s, q);
    }
  }

  lemma CallPreservesInv(s: System, p: nat, reply: AdapterReply)
    requires Inv(s) && p in s.processes && s.processes[p].phase.Calling?
    ensures Inv(AdvanceProcess(s, p, reply, false))
  {
    var id := s.processes[p].intent.recordId;
    CallSettles(s, p, reply);
    var s' := AdvanceProcess(s, p, reply, false);
    forall j | j != id ensures SameRecord(s, s', j) {
      assert CallsOf(s', j) == CallsOf(s, j);
    }
    RecordStepPreservesInv(s, s', p, id);
  }

  /** What the completing UPDATE leaves behind for its own record and invocation. */
  lemma CommitSettles(s: System, p: nat, c: Completion, o: Outcome)
    requires Inv(s) && p in s.processes && s.processes[p].phase == Committing(c, o)
    requires CommitHits(s.store, s.processes[p].intent.tenant, c)
    ensures RecordOk(AdvanceProcess(s, p, Dies, true), c.recordId)
    ensures ProcessOk(AdvanceProcess(s, p, Dies, true), p)
  {
    var s' := AdvanceProcess(s, p, Dies, true);
    assert ProcessOk(s, p) && RecordOk(s, c.recordId);
    assert CallsOf(s', c.recordId) == CallsOf(s, c.recordId);
    assert s'.processes[p] == s.processes[p].(phase := Committed(o));
    if o.reused {
      assert s'.store[c.recordId] == CompletedRow(s.store[c.recordId], c);
    } else {
      assert Explains(s'.store[c.recordId], CallsOf(s', c.recordId)[0].reply);
    }
  }

  /** The completing UPDATE disturbs no other invocation on the same record. */
  lemma CommitLeavesOthers(s: System, p: nat, c: Completion, o: Outcome, q: nat)
    requires Inv(s) && p in s.processes && s.processes[p].phase == Committing(c, o)
    requires CommitHits(s.store, s.processes[p].intent.tenant, c)
    requires q in s.processes && q != p && s.processes[q].intent.recordId == c.recordId
    ensures ProcessOk(AdvanceProcess(s, p, Dies, true), q)
  {
    var s' := AdvanceProcess(s, p, Dies, true);
    assert ProcessOk(s, p) && ProcessOk(s, q);
    assert CallsOf(s', c.recordId) == CallsOf(s, c.recordId);
    assert s'.processes[q] == s.processes[q];
    assert s.store[c.recordId].status.InProgress?;
  }

  lemma CommitPreservesInv(s: System, p: nat, c: Completion, o: Outcome)
    requires Inv(s) && p in s.processes && s.processes[p].phase == Committing(c, o)
    requires CommitHits(s.store, s.processes[p].intent.tenant, c)
    ensures Inv(AdvanceProcess(s, p, Dies, true))
  {
    var s' := AdvanceProcess(s, p, Dies, true);
    assert ProcessOk(s, p);
    CommitSettles(s, p, c, o);
    forall q | q in s.processes && q != p && s.processes[q].intent.recordId == c.recordId ensures ProcessOk(s', q) {
      CommitLeavesOthers(s, p, c, o, q);
    }
    forall j | j != c.recordId ensures SameRecord(s, s', j) {
      assert CallsOf(s', j) == CallsOf(s, j);
    }
    RecordStepPreservesInv(s, s', p, c.recordId);
  }

  lemma ReadPreservesInv(s: System, p: nat)
    requires Inv(s) && p in s.processes && (s.processes[p].phase.Loading? || s.processes[p].phase.Rereading?)
    ensures Inv(AdvanceProcess(s, p, Dies, false))
  {
    var at := s.processes[p];
    assert ProcessOk(s, p);
    assert at.intent.recordId in s.store ==> RecordOk(s, at.intent.recordId);
    if at.phase.Loading? {
      EnterPreservesInv(s, p, AfterLoad(at.op, at.intent, Lookup(s.store, at.intent)));
    } else {
      EnterPreservesInv(s, p, AfterReread(Lookup(s.store, at.intent)));
    }
  }

  lemma AdvancePreservesInv(s: System, p: nat, reply: AdapterReply, accepted: bool)
    requires Inv(s) && p in s.processes
    ensures Inv(AdvanceProcess(s, p, reply, accepted))
  {
    var intent := s.processes[p].intent;
    match s.processes[p].phase
    case Loading => ReadPreservesInv(s, p);
    case Rereading => ReadPreservesInv(s, p);
    case Claiming =>
      if ClaimHits(s.store, intent) {
        ClaimPreservesInv(s, p);
      } else {
        assert ProcessOk(s, p);
        EnterPreservesInv(s, p, Rereading);
      }
    case Calling => CallPreservesInv(s, p, reply);
    case Committing(c, o) =>
      if accepted && CommitHits(s.store, intent.tenant, c) {
        CommitPreservesInv(s, p, c, o);
      } else {
        assert ProcessOk(s, p);
        EnterPreservesInv(s, p, Raised(CheckpointRefused));
      }
    case Committed(o) =>
      assert ProcessOk(s, p);
      EnterPreservesInv(s, p, Returned(o));
    case _ =>
  }

  lemma ReservePreservesInv(s: System, intent: Intent)
    requires Inv(s) && intent.recordId !in s.store
    ensures Inv(Apply(s, Reserve(intent)))
  {
    var s' := Apply(s, Reserve(intent));
    forall id | id in s'.store ensures RecordOk(s', id) {
      if id in s.store {
        FrameRecord(s, s', id);
      } else {
        assert CallsOf(s', id) == CallsOf(s, id);
      }
    }
    forall id | CallsOf(s', id) != [] ensures id in s'.store {
      assert CallsOf(s', id) == CallsOf(s, id);
    }
    forall q | q in s'.processes ensures ProcessOk(s', q) {
      assert ProcessOk(s, q);
      if s.processes[q].intent.recordId != intent.recordId {
        FrameProcess(s, s', q);
      }
    }
  }

  lemma BeginPreservesInv(s: System, p: nat, op: Operation, intent: Intent)
    requires Inv(s) && p !in s.processes
    ensures Inv(Apply(s, Begin(p, op, intent)))
  {
    var s' := Apply(s, Begin(p, op, intent));
    forall id | id in s'.store ensures RecordOk(s', id) {
      FrameRecord(s, s', id);
    }
    forall id | CallsOf(s', id) != [] ensures id in s'.store {
      assert CallsOf(s', id) == CallsOf(s, id);
    }
    forall q | q in s'.processes ensures ProcessOk(s', q) {
      if q != p {
        FrameProcess(s, s', q);
      }
    }
  }

  lemma ApplyPreservesInv(s: System, e: Event)
    requires Inv(s)
    ensures Inv(Apply(s, e))
  {
    match e
    case Reserve(intent) =>
      if intent.recordId !in s.store {
        ReservePreservesInv(s, intent);
      }
    case Begin(p, op, intent) =>
      if p !in s.processes {
        BeginPreservesInv(s, p, op, intent);
      }
    case Advance(p, reply, accepted) =>
      if p in s.processes {
        AdvancePreservesInv(s, p, reply, accepted);
      }
    case Crash(p) =>
      if p in s.processes && !s.processes[p].phase.Final() {
        EnterPreservesInv(s, p, Raised(ProcessDied));
      }
  }

  lemma {:induction false} RunPreservesInv(s: System, events: seq<Event>)
    requires Inv(s)
    ensures Inv(Run(s, events))
    decreases |events|
  {
    if events != [] {
      RunPreservesInv(s, events[..|events| - 1]);
      ApplyPreservesInv(Run(s, events[..|events| - 1]), events[|events| - 1]);
    }
  }

  lemma ReachableInv(events: seq<Event>)
    ensures Inv(Run(EMPTY, events))
  {
    RunPreservesInv(EMPTY, events);
  }
}
