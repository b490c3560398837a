/**
 Records and in-process guards around one externally visible mutation
 (src/mutation_safety.py).
 */
module MutationSafety {
  import opened Prelude

  /** Durable states around one externally visible mutation. */
  datatype ExecutionStatus = Reserved | InProgress | Succeeded | Failed | Unknown {
    predicate Terminal() {
      Succeeded? || Failed? || Unknown?
    }

    /** Position in the life of a record. */
    function Rank(): nat {
      if Reserved? then 0 else if InProgress? then 1 else 2
    }
  }

  /** The only outcomes an adapter may report. */
  datatype AdapterStatus = AdapterSucceeded | AdapterRejected | AdapterUnknown

  type Payload = map<string, string>

  datatype Intent = Intent(recordId: string, tenant: string, operation: string, fingerprint: string)

  datatype Stored = Stored(intent: Intent, status: ExecutionStatus,
                           reference: Option<string>, response: Option<Payload>)

  datatype AdapterResult = AdapterResult(status: AdapterStatus, reference: Option<string>, response: Payload)

  datatype Completion = Completion(recordId: string, fingerprint: string, status: ExecutionStatus,
                                   reference: Option<string>, response: Payload)

  // ---------------------------------------------------------------- confirmation and idempotency guards

  datatype ConfirmationToken = ConfirmationToken(tokenHash: string, tenant: string, actor: string, preview: string,
                                                 expiresAt: int, rowVersion: int, status: string)

  datatype IdempotencyRecord = IdempotencyRecord(tenant: string, operation: string, keyHash: string,
                                                 fingerprint: string, status: string)

  type IdempotencyKey = (string, string, string)

  function KeyOf(record: IdempotencyRecord): IdempotencyKey {
    (record.tenant, record.operation, record.keyHash)
  }

  datatype GuardError = DuplicateToken | TokenUnavailable | TokenStale | IdempotencyConflict

  datatype Guards = Guards(tokens: map<string, ConfirmationToken>, idempotency: map<IdempotencyKey, IdempotencyRecord>)

  datatype GuardCall =
    | RegisterToken(token: ConfirmationToken)
    | ConsumeToken(tokenHash: string, tenant: string, actor: string, expectedVersion: int, now: int)
    | ReserveIdempotency(record: IdempotencyRecord)

  datatype GuardReply = Registered | Consumed(token: ConfirmationToken) | Reservation(record: IdempotencyRecord)
                      | Refused(error: GuardError)

  /** The state and reply after one call. */
  function Respond(g: Guards, call: GuardCall): (Guards, GuardReply) {
    match call
    case RegisterToken(token) =>
      if token.tokenHash in g.tokens then (g, Refused(DuplicateToken))
      else (g.(tokens := g.tokens[token.tokenHash := token]), Registered)
    case ConsumeToken(hash, tenant, actor, version, now) =>
      if hash !in g.tokens || g.tokens[hash].tenant != tenant || g.tokens[hash].actor != actor then
        (g, Refused(TokenUnavailable))
      else
        var token := g.tokens[hash];
        if token.status != "waiting" || token.expiresAt <= now || token.rowVersion != version then
          (g, Refused(TokenStale))
        else
          var consumed := token.(status := "consumed", rowVersion := token.rowVersion + 1);
          (g.(tokens := g.tokens[hash := consumed]), Consumed(consumed))
    case ReserveIdempotency(record) =>
      var key := KeyOf(record);
      if key !in g.idempotency then
        (g.(idempotency := g.idempotency[key := record]), Reservation(record))
      else if g.idempotency[key].fingerprint != record.fingerprint then
        (g, Refused(IdempotencyConflict))
      else
        (g, Reservation(g.idempotency[key]))
  }

  function RespondAll(g: Guards, calls: seq<GuardCall>): Guards {
    if calls == [] then g else Respond(RespondAll(g, calls[..|calls| - 1]), calls[|calls| - 1]).0
  }

  function ReplyAt(g: Guards, calls: seq<GuardCall>, i: nat): GuardReply
    requires i < |calls|
  {
    Respond(RespondAll(g, calls[..i]), calls[i]).1
  }

  lemma RespondAllNext(g: Guards, calls: seq<GuardCall>, i: nat)
    requires i < |calls|
    ensures RespondAll(g, calls[..i + 1]) == Respond(RespondAll(g, calls[..i]), calls[i]).0
  {
    assert calls[..i + 1][..i] == calls[..i];
  }

  /** A token that stopped waiting is never written again, and a bound key keeps its first record. */
  ghost predicate Sticks(before: Guards, after: Guards) {
    && (forall h :: h in before.tokens && before.tokens[h].status != "waiting" ==>
      h in after.tokens && after.tokens[h] == before.tokens[h])
    && (forall k :: k in before.idempotency ==> k in after.idempotency && after.idempotency[k] == before.idempotency[k])
  }

  lemma RespondSticks(g: Guards, call: GuardCall)
    ensures Sticks(g, Respond(g, call).0)
  {
  }

  lemma {:induction false} GuardsStick(g: Guards, calls: seq<GuardCall>, i: nat)
    requires i <= |calls|
    ensures Sticks(RespondAll(g, calls[..i]), RespondAll(g, calls))
    decreases |calls|
  {
    if i == |calls| {
      assert calls[..i] == calls;
    } else {
      var earlier := calls[..|calls| - 1];
      assert earlier[..i] == calls[..i];
      GuardsStick(g, earlier, i);
      RespondSticks(RespondAll(g, earlier), calls[|calls| - 1]);
    }
  }

  /** In any run of guard calls a token hash is consumed at most once. */
  lemma TokenConsumedAtMostOnce(g: Guards, calls: seq<GuardCall>, i: nat, j: nat)
    requires i < j < |calls| && calls[i].ConsumeToken? && calls[j].ConsumeToken?
    requires calls[i].tokenHash == calls[j].tokenHash
    ensures !(ReplyAt(g, calls, i).Consumed? && ReplyAt(g, calls, j).Consumed?)
  {
    RespondAllNext(g, calls, i);
    assert calls[..j][..i + 1] == calls[..i + 1];
    GuardsStick(g, calls[..j], i + 1);
  }

  /** All successful reservations of one key return one record, which carries the requested fingerprint. */
  lemma KeyKeepsItsFirstRecord(g: Guards, calls: seq<GuardCall>, i: nat, j: nat)
    requires i <= j < |calls| && calls[i].ReserveIdempotency? && calls[j].ReserveIdempotency?
    requires KeyOf(calls[i].record) == KeyOf(calls[j].record)
    requires ReplyAt(g, calls, i).Reservation?
    ensures ReplyAt(g, calls, j).Reservation? <==> calls[j].record.fingerprint == calls[i].record.fingerprint
    ensures ReplyAt(g, calls, j).Reservation? ==>
      && ReplyAt(g, calls, j).record == ReplyAt(g, calls, i).record
      && ReplyAt(g, calls, j).record.fingerprint == calls[j].record.fingerprint
  {
    if i < j {
      RespondAllNext(g, calls, i);
      assert calls[..j][..i + 1] == calls[..i + 1];
      GuardsStick(g, calls[..j], i + 1);
    }
  }

  // ---------------------------------------------------------------- replies in terms of the calls before

  const FRESH: Guards := Guards(map[], map[])

  /** The token that was registered first under this hash; later registrations are refused. */
  function FirstRegistered(calls: seq<GuardCall>, hash: string): Option<ConfirmationToken> {
    if calls == [] then None
    else
      var last, before := calls[|calls| - 1], FirstRegistered(calls[..|calls| - 1], hash);
      if before.None? && last.RegisterToken? && last.token.tokenHash == hash then Some(last.token) else before
  }

  /** Some call consumed this hash. */
  predicate Spent(calls: seq<GuardCall>, hash: string) {
    if calls == [] then false
    else
      var last, earlier := calls[|calls| - 1], calls[..|calls| - 1];
      || Spent(earlier, hash)
      || (last.ConsumeToken? && last.tokenHash == hash && Respond(RespondAll(FRESH, earlier), last).1.Consumed?)
  }

  /** The record of the first reservation of this key. */
  function FirstReserved(calls: seq<GuardCall>, tenant: string, operation: string, keyHash: string): Option<IdempotencyRecord> {
    if calls == [] then None
    else
      var last, before := calls[|calls| - 1], FirstReserved(calls[..|calls| - 1], tenant, operation, keyHash);
      if before.None? && last.ReserveIdempotency?
        && last.record.tenant == tenant && last.record.operation == operation && last.record.keyHash == keyHash
      then Some(last.record) else before
  }

  lemma {:induction false} TokensAreHistory(calls: seq<GuardCall>, hash: string)
    ensures var g, first := RespondAll(FRESH, calls), FirstRegistered(calls, hash);
      && (hash in g.tokens <==> first.Some?)
      && (first.Some? ==> first.value.tokenHash == hash)
      && (first.Some? && !Spent(calls, hash) ==> g.tokens[hash] == first.value)
      && (first.Some? && Spent(calls, hash) ==>
            g.tokens[hash] == first.value.(status := "consumed", rowVersion := first.value.rowVersion + 1))
      && (Spent(calls, hash) ==> first.Some?)
  {
    if calls != [] {
      TokensAreHistory(calls[..|calls| - 1], hash);
    }
  }

  lemma {:induction false} ReservationsAreHistory(calls: seq<GuardCall>, tenant: string, operation: string, keyHash: string)
    ensures var g, first := RespondAll(FRESH, calls), FirstReserved(calls, tenant, operation, keyHash);
      && ((tenant, operation, keyHash) in g.idempotency <==> first.Some?)
      && (first.Some? ==> g.idempotency[(tenant, operation, keyHash)] == first.value)
  {
    if calls != [] {
      ReservationsAreHistory(calls[..|calls| - 1], tenant, operation, keyHash);
    }
  }

  /**
   After any calls, a token is consumed if and only if it was registered waiting and not consumed since, for this
   tenant and actor, has not expired and has the expected version; and then its status and version say so. To
   another tenant or actor it does not exist.
   */
  lemma ConsumeSucceedsExactlyWhen(calls: seq<GuardCall>, hash: string, tenant: string, actor: string, version: int, now: int)
    ensures var reply := Respond(RespondAll(FRESH, calls), ConsumeToken(hash, tenant, actor, version, now)).1;
      var first := FirstRegistered(calls, hash);
      && (reply.Consumed? <==>
            && first.Some? && !Spent(calls, hash) && first.value.status == "waiting"
            && first.value.tenant == tenant && first.value.actor == actor
            && now < first.value.expiresAt && first.value.rowVersion == version)
      && (reply.Consumed? ==> reply.token == first.value.(status := "consumed", rowVersion := version + 1))
      && (reply == Refused(TokenUnavailable) <==>
            first.None? || first.value.tenant != tenant || first.value.actor != actor)
      && (!reply.Consumed? && reply != Refused(TokenUnavailable) ==> reply == Refused(TokenStale))
  {
    TokensAreHistory(calls, hash);
  }

  /** After any calls, a key is bound to its first reservation: same fingerprint, same record; another one is a conflict. */
  lemma ReserveAnswersWithTheFirst(calls: seq<GuardCall>, record: IdempotencyRecord)
    ensures var reply := Respond(RespondAll(FRESH, calls), ReserveIdempotency(record)).1;
      var first := FirstReserved(calls, record.tenant, record.operation, record.keyHash);
      reply == if first.None? then Reservation(record)
               else if first.value.fingerprint == record.fingerprint then Reservation(first.value)
               else Refused(IdempotencyConflict)
  {
    ReservationsAreHistory(calls, record.tenant, record.operation, record.keyHash);
  }

  /** A hash is accepted once. */
  lemma RegisterAcceptsOnce(calls: seq<GuardCall>, token: ConfirmationToken)
    ensures var (g, reply) := Respond(RespondAll(FRESH, calls), RegisterToken(token));
      && reply == (if FirstRegistered(calls, token.tokenHash).None? then Registered else Refused(DuplicateToken))
      && token.tokenHash in g.tokens
  {
    TokensAreHistory(calls, token.tokenHash);
  }

  /** The guards as the object that the lock protects; each method is one critical section. */
  class MutationGuards {
    var tokens: map<string, ConfirmationToken>
    var idempotency: map<IdempotencyKey, IdempotencyRecord>

    constructor ()
      ensures State() == Guards(map[], map[])
    {
      tokens, idempotency := map[], map[];
    }

    ghost function State(): Guards
      reads this
    {
      Guards(tokens, idempotency)
    }

    method Register(token: ConfirmationToken) returns (reply: GuardReply)
      modifies this
      ensures (State(), reply) == Respond(old(State()), RegisterToken(token))
    {
      if token.tokenHash in tokens {
        return Refused(DuplicateToken);
      }
      tokens := tokens[token.tokenHash := token];
      return Registered;
    }

    method Consume(tokenHash: string, tenant: string, actor: string, expectedVersion: int, now: int)
      returns (reply: GuardReply)
      modifies this
      ensures (State(), reply) == Respond(old(State()), ConsumeToken(tokenHash, tenant, actor, expectedVersion, now))
    {
      if tokenHash !in tokens {
        return Refused(TokenUnavailable);
      }
      var token := tokens[tokenHash];
      if token.tenant != tenant || token.actor != actor {
        return Refused(TokenUnavailable);
      }
      if token.status != "waiting" || token.expiresAt <= now || token.rowVersion != expectedVersion {
        return Refused(TokenStale);
      }
      var consumed := token.(status := "consumed", rowVersion := token.rowVersion + 1);
      tokens := tokens[tokenHash := consumed];
      return Consumed(consumed);
    }

    method Reserve(record: IdempotencyRecord) returns (reply: GuardReply)
      modifies this
      ensures (State(), reply) == Respond(old(State()), ReserveIdempotency(record))
    {
      var key := KeyOf(record);
      if key in idempotency {
        var existing := idempotency[key];
        if existing.fingerprint != record.fingerprint {
          return Refused(IdempotencyConflict);
        }
        return Reservation(existing);
      }
      idempotency := idempotency[key := record];
      return Reservation(record);
    }
  }
}
