/** When each command commits and what it then changes: exact conditions a caller can read off before asking, and
    the new state in the caller's terms.
 */
module Acceptance {
  import opened Domain
  import opened Folding
  import opened FoldInvariants
  import opened LiveProjection
  import opened Mutations
  import opened MutationSafety
  import opened CandidateLifecycle
  import opened ExactlyOnce
  import opened Outbox

  // ---------------------------------------------------------------- what every command needs

  /** A first, well-authorized command with fresh identities: everything the commands have in common. */
  predicate Admitted(db: Db, principal: Principal, command: Command, ids: Identities) {
    && WellFormed(command.body)
    && Gate(db, principal, command).Ok?
    && FindReceipt(db.receipts, principal, command.idempotencyKey).None?
    && !db.directory.branches[command.branch].closed
    && (var owner := Gate(db, principal, command).value;
        owner.branch in db.live.branches && db.live.branches[owner.branch].owner == owner)
    && TransportVerdict(db.directory, principal, EventOperation(command.body)).None?
    && ids.event !in db.live.eventScopes && |ids.jobs| == PREALLOCATED_JOBS
    && !KeyTaken(db.events, principal.tenant, principal.client, command.idempotencyKey)
  }

  /** Past the gate, with no receipt and an open branch, an attempt is its preparation and its commit. */
  lemma FirstAttempt(db: Db, principal: Principal, command: Command, ids: Identities, now: Time)
    requires Gate(db, principal, command).Ok?
    requires FindReceipt(db.receipts, principal, command.idempotencyKey).None?
    requires !db.directory.branches[command.branch].closed
    ensures var owner := Gate(db, principal, command).value;
            var prepared := Prepare(db, command, owner, ids.aggregate, now);
            var (response, next) := Attempt(db, principal, command, ids, now);
            if prepared.Ok? && Commit(db, principal, command, owner, prepared.value, ids, now).Ok?
            then response.Success? && Commit(db, principal, command, owner, prepared.value, ids, now) == Ok(next)
            else response.Failed? && next == db
  {
  }

  lemma CommitAccepts(db: Db, principal: Principal, command: Command, owner: Owner, prepared: Prepared, ids: Identities,
      now: Time)
    ensures var e := EventOf(db, principal, command, owner, prepared, ids.event, now);
            Commit(db, principal, command, owner, prepared, ids, now).Ok? <==>
            && TransportVerdict(db.directory, principal, e.operation).None?
            && ImagesCarried(OverRelay(db.directory, principal), e.payload)
            && Append(db, e).Ok?
            && |ScheduledJobs(command.body, e, prepared.resultMemory, prepared.resultRevision)| <= |ids.jobs|
  {
  }

  lemma GateFacts(db: Db, principal: Principal, command: Command)
    requires Gate(db, principal, command).Ok?
    ensures Gate(db, principal, command).value.tenant == principal.tenant
    ensures command.causation.Some? ==>
              && command.causation.value in db.live.eventScopes
              && SameLineage(db.live.eventScopes[command.causation.value], Gate(db, principal, command).value)
  {
  }

  lemma StoredIsHonest(db: Db, id: Uuid)
    requires Sound(db)
    ensures id in db.live.memories ==>
              && db.live.memories[id].id == id && WellShaped(db.live.memories[id])
              && (Lockable(db.live.memories[id]) <==>
                   IsSealed(db.live.memories[id]) || db.live.memories[id].status != Tombstoned)
  {
  }

  /** The event an admitted command would append; `None` if it is refused while preparing. */
  function Proposed(db: Db, principal: Principal, command: Command, ids: Identities, now: Time): Option<Event>
    requires Gate(db, principal, command).Ok?
  {
    var owner := Gate(db, principal, command).value;
    match Prepare(db, command, owner, ids.aggregate, now)
    case Err(_) => None
    case Ok(prepared) => Some(EventOf(db, principal, command, owner, prepared, ids.event, now))
  }

  lemma AppendAccepts(db: Db, e: Event)
    requires Sound(db) && Fit(db.live.memories, e) && e.sequence == |db.events| + 1
    requires !KeyTaken(db.events, e.owner.tenant, e.client, e.idempotencyKey)
    ensures Append(db, e).Ok? <==> Fold(db.live, e).Some? && EndpointsLocal(db.live, e)
    ensures Append(db, e).Ok? ==> Fold(db.live, e) == Some(Append(db, e).value.live)
  {
    LogIsSound(db);
    AppendKeepsSound(db, e);
    LiveAcceptsExactly(db.live, e);
    if Fold(db.live, e).Some? { FoldNeedsValid(db.live, e); }
  }

  /** The event is prepared, the reducer takes it and the transport may carry its content. */
  predicate Taken(db: Db, principal: Principal, proposed: Option<Event>) {
    && proposed.Some? && Fold(db.live, proposed.value).Some?
    && ImagesCarried(OverRelay(db.directory, principal), proposed.value.payload)
  }

  /** An admitted command succeeds exactly when its event is taken; then the live tables are the fold. */
  lemma AdmittedSucceeds(db: Db, principal: Principal, command: Command, ids: Identities, now: Time)
    requires Sound(db) && Admitted(db, principal, command, ids)
    ensures var (response, next) := Attempt(db, principal, command, ids, now);
            var proposed := Proposed(db, principal, command, ids, now);
            && (response.Success? <==> Taken(db, principal, proposed) && EndpointsLocal(db.live, proposed.value))
            && (response.Success? ==> Fold(db.live, proposed.value) == Some(next.live))
  {
    var owner := Gate(db, principal, command).value;
    FirstAttempt(db, principal, command, ids, now);
    GateFacts(db, principal, command);
    if Prepare(db, command, owner, ids.aggregate, now).Ok? {
      var prepared := Prepare(db, command, owner, ids.aggregate, now).value;
      PreparedSucceeds(db, principal, command, owner, prepared, ids, now);
    }
  }

  lemma PreparedSucceeds(db: Db, principal: Principal, command: Command, owner: Owner, prepared: Prepared,
      ids: Identities, now: Time)
    requires Sound(db) && WellFormed(command.body) && Prepare(db, command, owner, ids.aggregate, now) == Ok(prepared)
    requires owner.tenant == principal.tenant && |ids.jobs| == PREALLOCATED_JOBS
    requires TransportVerdict(db.directory, principal, EventOperation(command.body)).None?
    requires !KeyTaken(db.events, principal.tenant, principal.client, command.idempotencyKey)
    ensures var e := EventOf(db, principal, command, owner, prepared, ids.event, now);
            var committed := Commit(db, principal, command, owner, prepared, ids, now);
            && (committed.Ok? <==> Taken(db, principal, Some(e)) && EndpointsLocal(db.live, e))
            && (committed.Ok? ==> Fold(db.live, e) == Some(committed.value.live))
  {
    var e := EventOf(db, principal, command, owner, prepared, ids.event, now);
    CommitAccepts(db, principal, command, owner, prepared, ids, now);
    PreparedFits(db, command, owner, ids.aggregate, now, e);
    AppendAccepts(db, e);
    JobsFit(db, principal, command, owner, ids.aggregate, ids.event, now);
    if Commit(db, principal, command, owner, prepared, ids, now).Ok? {
      CommitAppends(db, principal, command, owner, prepared, ids, now);
    }
  }

  /** What the reducer asks of any event, once the envelope is right. */
  predicate Enveloped(p: Projection, e: Event) {
    && e.sequence == p.sequence + 1 && e.id !in p.eventScopes && ValidEnvelope(e)
    && e.owner.branch in p.branches && p.branches[e.owner.branch].owner == e.owner
    && (e.causation.Some? ==>
         e.causation.value in p.eventScopes && SameLineage(p.eventScopes[e.causation.value], e.owner))
  }

  lemma FoldAsksPayload(p: Projection, e: Event)
    requires Enveloped(p, e)
    ensures Fold(p, e).Some? <==>
            && ValidPayload(e.payload) && WithinCeiling(p.branches[e.owner.branch].ceiling, e.payload)
            && FoldPayload(p, e).Some? && EvidenceAllowed(p.evidence, e)
  {
  }

  lemma ProposedIsEnveloped(db: Db, principal: Principal, command: Command, ids: Identities, now: Time)
    requires Sound(db) && Admitted(db, principal, command, ids) && Proposed(db, principal, command, ids, now).Some?
    requires ValidEnvelope(Proposed(db, principal, command, ids, now).value)
    ensures Enveloped(db.live, Proposed(db, principal, command, ids, now).value)
  {
    LogIsSound(db);
    GateFacts(db, principal, command);
  }

  // ---------------------------------------------------------------- single memories

  lemma CeilingOfOne(ceiling: Visibility, payload: Payload, m: Memory)
    requires AfterImages(payload) == [m]
    ensures WithinCeiling(ceiling, payload) <==> Rank(m.visibility) <= Rank(ceiling)
  {
  }

  lemma CarriedOne(relay: bool, payload: Payload, m: Memory)
    requires AfterImages(payload) == [m]
    ensures ImagesCarried(relay, payload) <==> Carried(relay, m)
  {
    assert m in AfterImages(payload);
  }

  /** A transition folds exactly when its after-image is well shaped, within the ceiling and a legal step. */
  lemma TransitionFolds(p: Projection, e: Event, m: Memory, after: Memory)
    requires Enveloped(p, e) && e.payload == Transition(m.revision, after)
    requires m.id in p.memories && p.memories[m.id] == m && after.id == m.id
    requires e.owner == m.owner && e.memoryId == Some(m.id) && e.expectedRevision == Some(m.revision)
    ensures Fold(p, e).Some? <==>
            && WellShaped(after) && after.expiresAt.None?
            && Rank(after.visibility) <= Rank(p.branches[e.owner.branch].ceiling)
            && RevisionFollows(e, m, m.revision, after) && StatusMove(e.operation, m.status, after.status)
    ensures Fold(p, e).Some? ==> Fold(p, e).value.memories == p.memories[m.id := after]
  {
    assert AfterImages(e.payload) == [after];
    CeilingOfOne(p.branches[e.owner.branch].ceiling, e.payload, after);
    FoldAsksPayload(p, e);
  }

  /** Owned by the caller's branch, at the revision named, and stored no later than now. */
  predicate Named(db: Db, owner: Owner, id: Uuid, expected: nat, now: Time) {
    Owned(db.live.memories, owner, id) && db.live.memories[id].revision == expected
      && db.live.memories[id].createdAt <= now
  }

  predicate Visible(db: Db, owner: Owner, visibility: Visibility) {
    owner.branch in db.live.branches && visibility != PublicSeed
      && Rank(visibility) <= Rank(db.live.branches[owner.branch].ceiling)
  }

  // Retire

  /** A plaintext candidate or active memory that is not published and not of the highest sensitivity. */
  predicate Retirable(db: Db, owner: Owner, id: Uuid, expected: nat, now: Time) {
    && Named(db, owner, id, expected, now)
    && var m := db.live.memories[id];
       && (m.status == Candidate || m.status == Active) && !IsSealed(m) && Visible(db, owner, m.visibility)
       && m.attributes.sensitivity != MAX_SENSITIVITY
  }

  lemma RetirePrepares(db: Db, id: Uuid, expected: nat, owner: Owner, now: Time)
    ensures PrepareRetire(db, id, expected, owner, now).Ok? <==>
            && Owned(db.live.memories, owner, id) && Lockable(db.live.memories[id])
            && db.live.memories[id].revision == expected && db.live.memories[id].status != Disputed
    ensures PrepareRetire(db, id, expected, owner, now).Ok? ==>
              PrepareRetire(db, id, expected, owner, now).value
              == Prepared(Transition(expected, Restated(db.live.memories[id], Retired, now)), Some(id), Some(expected),
                Some(id), Some(expected + 1), None)
  {
    assert LoadMemories(db.live.memories, owner, {id}).Ok? <==>
           Owned(db.live.memories, owner, id) && Lockable(db.live.memories[id]);
  }

  lemma RestatedShape(m: Memory, status: Status, now: Time)
    requires WellShaped(m) && !IsSealed(m) && m.status != Tombstoned && status != Tombstoned
    ensures WellShaped(Restated(m, status, now)) <==>
            m.createdAt <= now && (m.visibility == PublicSeed ==> status == Active)
  {
  }

  /** Retiring succeeds exactly on a retirable memory, and leaves it retired one revision on with its content. */
  lemma RetireSucceedsExactly(db: Db, principal: Principal, command: Command, ids: Identities, now: Time)
    requires Sound(db) && Admitted(db, principal, command, ids) && command.body.Retire?
    ensures var (response, next) := Attempt(db, principal, command, ids, now);
            var owner, id := Gate(db, principal, command).value, command.body.memory;
            && (response.Success? <==> Retirable(db, owner, id, command.body.expected, now))
            && (response.Success? ==>
                  && id in next.live.memories && next.live.memories == db.live.memories[id := next.live.memories[id]]
                  && next.live.memories[id].status == Retired
                  && next.live.memories[id].revision == command.body.expected + 1
                  && next.live.memories[id].statement == db.live.memories[id].statement)
  {
    AdmittedSucceeds(db, principal, command, ids, now);
    RetireAccepts(db, principal, command, ids, now);
  }

  lemma RetireAccepts(db: Db, principal: Principal, command: Command, ids: Identities, now: Time)
    requires Sound(db) && Admitted(db, principal, command, ids) && command.body.Retire?
    ensures var owner, id, proposed := Gate(db, principal, command).value, command.body.memory,
            Proposed(db, principal, command, ids, now);
            && (Taken(db, principal, proposed) <==> Retirable(db, owner, id, command.body.expected, now))
            && (proposed.Some? ==> EndpointsLocal(db.live, proposed.value))
            && (Taken(db, principal, proposed) ==>
                  id in db.live.memories
                  && Fold(db.live, proposed.value).value.memories
                       == db.live.memories[id := Restated(db.live.memories[id], Retired, now)])
  {
    var owner, id, expected := Gate(db, principal, command).value, command.body.memory, command.body.expected;
    RetirePrepares(db, id, expected, owner, now);
    StoredIsHonest(db, id);
    if PrepareRetire(db, id, expected, owner, now).Ok? {
      ProposedIsEnveloped(db, principal, command, ids, now);
      RetireTaken(db, principal, owner, Proposed(db, principal, command, ids, now).value, id, expected, now);
    }
  }

  lemma RetireTaken(db: Db, principal: Principal, owner: Owner, e: Event, id: Uuid, expected: nat, now: Time)
    requires Sound(db) && Enveloped(db.live, e) && Owned(db.live.memories, owner, id) && Lockable(db.live.memories[id])
    requires db.live.memories[id].revision == expected && db.live.memories[id].status != Disputed
    requires e.payload == Transition(expected, Restated(db.live.memories[id], Retired, now))
             && e.operation == RetiredEvent && e.owner == owner
    requires e.memoryId == Some(id) && e.expectedRevision == Some(expected) && e.createdAt == now
    ensures Taken(db, principal, Some(e)) <==> Retirable(db, owner, id, expected, now)
    ensures EndpointsLocal(db.live, e)
    ensures Taken(db, principal, Some(e)) ==>
              Fold(db.live, e).value.memories == db.live.memories[id := Restated(db.live.memories[id], Retired, now)]
  {
    StoredIsHonest(db, id);
    RetireFolds(db.live, e, db.live.memories[id], now);
    CarriedOne(OverRelay(db.directory, principal), e.payload, Restated(db.live.memories[id], Retired, now));
  }

  lemma RetireFolds(p: Projection, e: Event, m: Memory, now: Time)
    requires Enveloped(p, e) && WellShaped(m) && m.status != Disputed && (IsSealed(m) || m.status != Tombstoned)
    requires m.id in p.memories && p.memories[m.id] == m && e.owner == m.owner
    requires e.payload == Transition(m.revision, Restated(m, Retired, now)) && e.operation == RetiredEvent
    requires e.memoryId == Some(m.id) && e.expectedRevision == Some(m.revision) && e.createdAt == now
    ensures Fold(p, e).Some? <==>
            && (m.status == Candidate || m.status == Active) && !IsSealed(m) && m.createdAt <= now
            && m.visibility != PublicSeed && Rank(m.visibility) <= Rank(p.branches[e.owner.branch].ceiling)
    ensures Fold(p, e).Some? ==> Fold(p, e).value.memories == p.memories[m.id := Restated(m, Retired, now)]
  {
    TransitionFolds(p, e, m, Restated(m, Retired, now));
    if !IsSealed(m) && m.status != Tombstoned { RestatedShape(m, Retired, now); }
  }

  // Revise

  /** A live plaintext memory whose patched content is non-empty, within the content rules, below the highest
      sensitivity, visible and stated by no other live memory. */
  predicate Revisable(db: Db, owner: Owner, id: Uuid, expected: nat, changes: Changes, now: Time) {
    && Named(db, owner, id, expected, now)
    && var m := db.live.memories[id];
       var after := RevisedMemory(m, changes, now);
       && Live(m.status) && !IsSealed(m)
       && after.statement != Some("") && after.reason != Some("")
       && Coherent(after) && after.attributes.sensitivity != MAX_SENSITIVITY
       && Visible(db, owner, after.visibility)
       && !Duplicated(db.live.memories, after)
  }

  lemma RevisePrepares(db: Db, id: Uuid, expected: nat, changes: Changes, owner: Owner, now: Time)
    ensures PrepareRevise(db, id, expected, changes, owner, now).Ok? <==>
            && Owned(db.live.memories, owner, id) && Lockable(db.live.memories[id])
            && RevisedMemory(db.live.memories[id], changes, now).statement.Some?
            && db.live.memories[id].revision == expected
            && !Duplicated(db.live.memories, RevisedMemory(db.live.memories[id], changes, now).(status := Active))
    ensures PrepareRevise(db, id, expected, changes, owner, now).Ok? ==>
              PrepareRevise(db, id, expected, changes, owner, now).value
              == Prepared(Transition(expected, RevisedMemory(db.live.memories[id], changes, now)), Some(id),
                Some(expected), Some(id), Some(expected + 1), None)
  {
    assert LoadMemories(db.live.memories, owner, {id}).Ok? <==>
           Owned(db.live.memories, owner, id) && Lockable(db.live.memories[id]);
  }

  lemma RevisedShape(m: Memory, changes: Changes, now: Time)
    requires WellShaped(m) && !IsSealed(m) && m.status != Tombstoned
    ensures var after := RevisedMemory(m, changes, now);
            && after.statement.Some? && after.reason.Some?
            && (WellShaped(after) <==>
                  m.createdAt <= now && after.statement != Some("") && after.reason != Some("")
                    && after.visibility != PublicSeed && Coherent(after))
  {
  }

  lemma ReviseFolds(p: Projection, e: Event, m: Memory, changes: Changes, now: Time)
    requires Enveloped(p, e) && WellShaped(m) && (IsSealed(m) || m.status != Tombstoned)
    requires m.id in p.memories && p.memories[m.id] == m && e.owner == m.owner
    requires e.payload == Transition(m.revision, RevisedMemory(m, changes, now)) && e.operation == Revised
    requires e.memoryId == Some(m.id) && e.expectedRevision == Some(m.revision) && e.createdAt == now
    ensures var after := RevisedMemory(m, changes, now);
            && (Fold(p, e).Some? <==>
                  && Live(m.status) && !IsSealed(m) && m.createdAt <= now
                  && after.statement != Some("") && after.reason != Some("") && Coherent(after)
                  && after.visibility != PublicSeed
                  && Rank(after.visibility) <= Rank(p.branches[e.owner.branch].ceiling))
            && (Fold(p, e).Some? ==> Fold(p, e).value.memories == p.memories[m.id := after])
  {
    TransitionFolds(p, e, m, RevisedMemory(m, changes, now));
    if !IsSealed(m) && m.status != Tombstoned { RevisedShape(m, changes, now); }
  }

  lemma DuplicatedWhenLive(memories: map<Uuid, Memory>, m: Memory)
    requires Live(m.status)
    ensures Duplicated(memories, m.(status := Active)) <==> Duplicated(memories, m)
  {
    forall id | id in memories ensures SameLiveClaim(memories[id], m.(status := Active)) <==>
      SameLiveClaim(memories[id], m) {}
  }

  /** Revising succeeds exactly on a revisable memory. The memory keeps its status, subject and scope, takes the patched
      fields, loses its publication approval and deadline, and its fingerprint is the claim it now states. */
  lemma ReviseSucceedsExactly(db: Db, principal: Principal, command: Command, ids: Identities, now: Time)
    requires Sound(db) && Admitted(db, principal, command, ids) && command.body.Revise?
    ensures var (response, next) := Attempt(db, principal, command, ids, now);
            var owner, id, changes := Gate(db, principal, command).value, command.body.memory, command.body.changes;
            && (response.Success? <==> Revisable(db, owner, id, command.body.expected, changes, now))
            && (response.Success? ==>
                  && id in next.live.memories && next.live.memories == db.live.memories[id := next.live.memories[id]]
                  && var before, after := db.live.memories[id], next.live.memories[id];
                     && after.revision == before.revision + 1 && after.status == before.status
                     && after.subject == before.subject && after.scope == before.scope
                     && after.statement == (if changes.statement.Some? then changes.statement else before.statement)
                     && after.visibility == Pick(changes.visibility, before.visibility)
                     && after.fingerprint == Some(ClaimOf(after)) && after.approvedBy.None? && after.expiresAt.None?)
  {
    AdmittedSucceeds(db, principal, command, ids, now);
    ReviseAccepts(db, principal, command, ids, now);
  }

  lemma ReviseAccepts(db: Db, principal: Principal, command: Command, ids: Identities, now: Time)
    requires Sound(db) && Admitted(db, principal, command, ids) && command.body.Revise?
    ensures var owner, id, changes := Gate(db, principal, command).value, command.body.memory, command.body.changes;
            var proposed := Proposed(db, principal, command, ids, now);
            && (Taken(db, principal, proposed) <==> Revisable(db, owner, id, command.body.expected, changes, now))
            && (proposed.Some? ==> EndpointsLocal(db.live, proposed.value))
            && (Taken(db, principal, proposed) ==>
                  id in db.live.memories
                  && Fold(db.live, proposed.value).value.memories
                       == db.live.memories[id := RevisedMemory(db.live.memories[id], changes, now)])
  {
    var owner, id, expected, changes := Gate(db, principal, command).value, command.body.memory, command.body.expected,
        command.body.changes;
    RevisePrepares(db, id, expected, changes, owner, now);
    RevisableIsPrepared(db, owner, id, expected, changes, now);
    if PrepareRevise(db, id, expected, changes, owner, now).Ok? {
      ProposedIsEnveloped(db, principal, command, ids, now);
      ReviseTaken(db, principal, owner, Proposed(db, principal, command, ids, now).value, id, expected, changes, now);
    }
  }

  lemma RevisableIsPrepared(db: Db, owner: Owner, id: Uuid, expected: nat, changes: Changes, now: Time)
    requires Sound(db)
    ensures Revisable(db, owner, id, expected, changes, now) ==>
            PrepareRevise(db, id, expected, changes, owner, now).Ok?
  {
    if Revisable(db, owner, id, expected, changes, now) {
      RevisePrepares(db, id, expected, changes, owner, now);
      StoredIsHonest(db, id);
      DuplicatedWhenLive(db.live.memories, RevisedMemory(db.live.memories[id], changes, now));
    }
  }

  lemma ReviseTaken(db: Db, principal: Principal, owner: Owner, e: Event, id: Uuid, expected: nat, changes: Changes,
      now: Time)
    requires Sound(db) && Enveloped(db.live, e) && Owned(db.live.memories, owner, id) && Lockable(db.live.memories[id])
    requires db.live.memories[id].revision == expected
    requires !Duplicated(db.live.memories, RevisedMemory(db.live.memories[id], changes, now).(status := Active))
    requires e.payload == Transition(expected, RevisedMemory(db.live.memories[id], changes, now))
             && e.operation == Revised && e.owner == owner
    requires e.memoryId == Some(id) && e.expectedRevision == Some(expected) && e.createdAt == now
    ensures Taken(db, principal, Some(e)) <==> Revisable(db, owner, id, expected, changes, now)
    ensures EndpointsLocal(db.live, e)
    ensures Taken(db, principal, Some(e)) ==>
              Fold(db.live, e).value.memories == db.live.memories[id := RevisedMemory(db.live.memories[id], changes,
                now)]
  {
    StoredIsHonest(db, id);
    if Live(db.live.memories[id].status) {
      DuplicatedWhenLive(db.live.memories, RevisedMemory(db.live.memories[id], changes, now));
    }
    ReviseFolds(db.live, e, db.live.memories[id], changes, now);
    CarriedOne(OverRelay(db.directory, principal), e.payload, RevisedMemory(db.live.memories[id], changes, now));
  }

  // Forget

  /** The memory is neither in dispute nor gone and not published; a hard forget still holds its key; and it is no
      sealed candidate, whose tombstone would keep a deadline that only candidates may have. No row of evidence names
      it. The highest sensitivity needs sealed content and a transport other than the relay. */
  predicate Forgettable(db: Db, principal: Principal, owner: Owner, id: Uuid, expected: nat, hard: bool, now: Time) {
    && Named(db, owner, id, expected, now)
    && var m := db.live.memories[id];
       && m.status != Disputed && m.status != Tombstoned
       && (hard ==> KeyUsable(db.keys, m))
       && !(IsSealed(m) && m.status == Candidate) && Sanitized(db.live.evidence, id)
       && Visible(db, owner, m.visibility) && Carried(OverRelay(db.directory, principal), m)
  }

  lemma ForgetPrepares(db: Db, id: Uuid, expected: nat, hard: bool, owner: Owner, now: Time)
    ensures PrepareForget(db, id, expected, hard, owner, now).Ok? <==>
            && Owned(db.live.memories, owner, id) && Lockable(db.live.memories[id])
            && db.live.memories[id].revision == expected && db.live.memories[id].status != Disputed
            && (hard ==> KeyUsable(db.keys, db.live.memories[id]))
    ensures PrepareForget(db, id, expected, hard, owner, now).Ok? ==>
              PrepareForget(db, id, expected, hard, owner, now).value
              == Prepared(Tombstone(expected, TombstoneOf(db.live.memories[id], now), hard), Some(id), Some(expected),
                Some(id), Some(expected + 1), None)
  {
    assert LoadMemories(db.live.memories, owner, {id}).Ok? <==>
           Owned(db.live.memories, owner, id) && Lockable(db.live.memories[id]);
  }

  lemma TombstoneShape(m: Memory, now: Time)
    requires WellShaped(m)
    ensures WellShaped(TombstoneOf(m, now)) <==>
            m.createdAt <= now && !(IsSealed(m) && m.status == Candidate) && m.visibility != PublicSeed
  {
  }

  lemma ForgetFolds(p: Projection, e: Event, m: Memory, hard: bool, now: Time)
    requires Enveloped(p, e) && WellShaped(m) && m.id in p.memories && p.memories[m.id] == m && e.owner == m.owner
    requires e.payload == Tombstone(m.revision, TombstoneOf(m, now), hard) && e.operation == TombstonedEvent
    requires e.memoryId == Some(m.id) && e.expectedRevision == Some(m.revision) && e.createdAt == now
    requires hard ==> m.protection == EnvelopeEncrypted
    ensures Fold(p, e).Some? <==>
            && m.status != Tombstoned && m.createdAt <= now && !(IsSealed(m) && m.status == Candidate)
            && m.visibility != PublicSeed && Rank(m.visibility) <= Rank(p.branches[e.owner.branch].ceiling)
            && Sanitized(p.evidence, m.id)
    ensures Fold(p, e).Some? ==> Fold(p, e).value.memories == p.memories[m.id := TombstoneOf(m, now)]
  {
    var after := TombstoneOf(m, now);
    TombstoneShape(m, now);
    assert AfterImages(e.payload) == [after];
    CeilingOfOne(p.branches[e.owner.branch].ceiling, e.payload, after);
    FoldAsksPayload(p, e);
    assert m.status != Tombstoned <==> Replaces(p.memories, e, m.revision, after);
  }

  /** Forgetting succeeds exactly on a forgettable memory and leaves a tombstone with no content. */
  lemma ForgetSucceedsExactly(db: Db, principal: Principal, command: Command, ids: Identities, now: Time)
    requires Sound(db) && Admitted(db, principal, command, ids) && command.body.Forget?
    ensures var (response, next) := Attempt(db, principal, command, ids, now);
            var owner, id := Gate(db, principal, command).value, command.body.memory;
            && (response.Success? <==>
                 Forgettable(db, principal, owner, id, command.body.expected, command.body.hard, now))
            && (response.Success? ==>
                  && id in next.live.memories && next.live.memories == db.live.memories[id := next.live.memories[id]]
                  && var after := next.live.memories[id];
                     after.status == Tombstoned && after.revision == command.body.expected + 1 && after.statement.None?
                       && after.reason.None?
                     && after.limits == [] && after.fingerprint.None? && after.keyId == db.live.memories[id].keyId)
  {
    AdmittedSucceeds(db, principal, command, ids, now);
    ForgetAccepts(db, principal, command, ids, now);
  }

  lemma ForgetAccepts(db: Db, principal: Principal, command: Command, ids: Identities, now: Time)
    requires Sound(db) && Admitted(db, principal, command, ids) && command.body.Forget?
    ensures var owner, id, proposed := Gate(db, principal, command).value, command.body.memory,
            Proposed(db, principal, command, ids, now);
            && (Taken(db, principal, proposed) <==>
                  Forgettable(db, principal, owner, id, command.body.expected, command.body.hard, now))
            && (proposed.Some? ==> EndpointsLocal(db.live, proposed.value))
            && (Taken(db, principal, proposed) ==>
                  id in db.live.memories
                  && Fold(db.live, proposed.value).value.memories
                       == db.live.memories[id := TombstoneOf(db.live.memories[id], now)])
  {
    var owner, id, expected, hard := Gate(db, principal, command).value, command.body.memory, command.body.expected,
        command.body.hard;
    ForgetPrepares(db, id, expected, hard, owner, now);
    StoredIsHonest(db, id);
    if PrepareForget(db, id, expected, hard, owner, now).Ok? {
      ProposedIsEnveloped(db, principal, command, ids, now);
      ForgetTaken(db, principal, owner, Proposed(db, principal, command, ids, now).value, id, expected, hard, now);
    }
  }

  lemma ForgetTaken(db: Db, principal: Principal, owner: Owner, e: Event, id: Uuid, expected: nat, hard: bool,
      now: Time)
    requires Sound(db) && Enveloped(db.live, e) && Owned(db.live.memories, owner, id)
             && (hard ==> KeyUsable(db.keys, db.live.memories[id]))
    requires db.live.memories[id].revision == expected && db.live.memories[id].status != Disputed
    requires e.payload == Tombstone(expected, TombstoneOf(db.live.memories[id], now), hard)
             && e.operation == TombstonedEvent && e.owner == owner
    requires e.memoryId == Some(id) && e.expectedRevision == Some(expected) && e.createdAt == now
    ensures Taken(db, principal, Some(e)) <==> Forgettable(db, principal, owner, id, expected, hard, now)
    ensures EndpointsLocal(db.live, e)
    ensures Taken(db, principal, Some(e)) ==>
              Fold(db.live, e).value.memories == db.live.memories[id := TombstoneOf(db.live.memories[id], now)]
  {
    StoredIsHonest(db, id);
    ForgetFolds(db.live, e, db.live.memories[id], hard, now);
    CarriedOne(OverRelay(db.directory, principal), e.payload, TombstoneOf(db.live.memories[id], now));
  }

  // Observe and remember

  /** No live memory of the branch and subject states the claim yet. */
  predicate Unclaimed(memories: map<Uuid, Memory>, owner: Owner, input: MemoryInput) {
    var claim := Claim(input.statement, input.category, input.ontology, input.scope, set l | l in input.limits);
    forall id :: id in memories ==>
      !(&& Live(memories[id].status) && memories[id].owner == owner && memories[id].subject == input.subject
        && memories[id].fingerprint == Some(claim))
  }

  /** A known subject, an anchored session, content within the rules and below the highest sensitivity, a claim no live
      memory of the branch and subject states, and a free identifier. */
  predicate Creatable(db: Db, command: Command, input: MemoryInput, owner: Owner, aggregate: Uuid) {
    && SubjectKnown(db.directory, owner, input) && SessionAnchored(db.directory, command.session, input)
    && Unclaimed(db.live.memories, owner, input)
    && aggregate !in db.live.memories
    && Visible(db, owner, input.visibility)
    && ContentRules(input.scope, input.visibility, input.category, input.ontology, input.attributes)
    && DistinctLimits(input.limits)
    && input.attributes.sensitivity != MAX_SENSITIVITY
  }

  lemma CreatePrepares(db: Db, command: Command, input: MemoryInput, status: Status, owner: Owner, aggregate: Uuid,
      now: Time)
    requires Live(status)
    ensures PrepareCreate(db, command, input, status, owner, aggregate, now).Ok? <==>
            && SubjectKnown(db.directory, owner, input) && SessionAnchored(db.directory, command.session, input)
            && Unclaimed(db.live.memories, owner, input)
    ensures PrepareCreate(db, command, input, status, owner, aggregate, now).Ok? ==>
              PrepareCreate(db, command, input, status, owner, aggregate, now).value
              == Prepared(Created(NewMemory(input, owner, aggregate, status, now), []), Some(aggregate), None,
                Some(aggregate), Some(1), None)
  {
    var m := NewMemory(input, owner, aggregate, status, now);
    forall id | id in db.live.memories
      ensures SameLiveClaim(db.live.memories[id], m) <==>
              Live(db.live.memories[id].status) && db.live.memories[id].owner == owner
                && db.live.memories[id].subject == input.subject
              && db.live.memories[id].fingerprint == m.fingerprint
    {
    }
  }

  lemma CreateFolds(p: Projection, e: Event, input: MemoryInput, owner: Owner, aggregate: Uuid, status: Status,
      now: Time)
    requires Enveloped(p, e) && e.owner == owner && e.createdAt == now && e.memoryId == Some(aggregate)
    requires input.statement != "" && input.reason != "" && input.visibility != PublicSeed
    requires e.payload == Created(NewMemory(input, owner, aggregate, status, now), [])
    requires (e.operation == Observed && status == Candidate) || (e.operation == Remembered && status == Active)
    ensures Fold(p, e).Some? <==>
            && aggregate !in p.memories && Rank(input.visibility) <= Rank(p.branches[owner.branch].ceiling)
            && ContentRules(input.scope, input.visibility, input.category, input.ontology, input.attributes)
            && DistinctLimits(input.limits)
    ensures Fold(p, e).Some? ==>
            Fold(p, e).value.memories == p.memories[aggregate := NewMemory(input, owner, aggregate, status, now)]
  {
    var m := NewMemory(input, owner, aggregate, status, now);
    assert AfterImages(e.payload) == [m] && (WellShaped(m) <==> Coherent(m));
    CeilingOfOne(p.branches[owner.branch].ceiling, e.payload, m);
    FoldAsksPayload(p, e);
  }

  /** Observing or remembering succeeds exactly when the memory is creatable; it then exists at revision 1, a candidate
      when observed and active when remembered, with the given content and its claim as fingerprint. */
  lemma CreateSucceedsExactly(db: Db, principal: Principal, command: Command, ids: Identities, now: Time)
    requires Sound(db) && Admitted(db, principal, command, ids) && (command.body.Observe? || command.body.Remember?)
    ensures var (response, next) := Attempt(db, principal, command, ids, now);
            var owner, input, id := Gate(db, principal, command).value, command.body.input, ids.aggregate;
            && (response.Success? <==> Creatable(db, command, input, owner, id))
            && (response.Success? ==>
                  && id in next.live.memories && next.live.memories == db.live.memories[id := next.live.memories[id]]
                  && var m := next.live.memories[id];
                     && m.revision == 1 && m.status == (if command.body.Observe? then Candidate else Active)
                     && m.owner == owner && m.subject == input.subject && m.statement == Some(input.statement)
                     && m.fingerprint == Some(ClaimOf(m)) && m.expiresAt.None?)
  {
    AdmittedSucceeds(db, principal, command, ids, now);
    CreateAccepts(db, principal, command, ids, now);
  }

  lemma CreateAccepts(db: Db, principal: Principal, command: Command, ids: Identities, now: Time)
    requires Sound(db) && Admitted(db, principal, command, ids) && (command.body.Observe? || command.body.Remember?)
    ensures var owner, input, id := Gate(db, principal, command).value, command.body.input, ids.aggregate;
            var proposed := Proposed(db, principal, command, ids, now);
            && (Taken(db, principal, proposed) <==> Creatable(db, command, input, owner, id))
            && (proposed.Some? ==> EndpointsLocal(db.live, proposed.value))
            && (Taken(db, principal, proposed) ==>
                  Fold(db.live, proposed.value).value.memories
                  == db.live.memories[id := NewMemory(input, owner, id, if command.body.Observe? then Candidate
                    else Active, now)])
  {
    var owner, input, id := Gate(db, principal, command).value, command.body.input, ids.aggregate;
    var status := if command.body.Observe? then Candidate else Active;
    CreatePrepares(db, command, input, status, owner, id, now);
    if PrepareCreate(db, command, input, status, owner, id, now).Ok? {
      var e := Proposed(db, principal, command, ids, now).value;
      ProposedIsEnveloped(db, principal, command, ids, now);
      CreateFolds(db.live, e, input, owner, id, status, now);
      CarriedOne(OverRelay(db.directory, principal), e.payload, NewMemory(input, owner, id, status, now));
    }
  }

  // Link

  /** Both ends at their named revisions, and no active link of the kind between them yet. A plaintext tombstone
      cannot be linked; a sealed one can. */
  predicate Linkable(db: Db, body: Body, owner: Owner, aggregate: Uuid)
    requires body.LinkTo?
  {
    && Owned(db.live.memories, owner, body.source) && Owned(db.live.memories, owner, body.target)
    && Lockable(db.live.memories[body.source]) && Lockable(db.live.memories[body.target])
    && db.live.memories[body.source].revision == body.sourceExpected
    && db.live.memories[body.target].revision == body.targetExpected
    && !DuplicateLink(db.live.links, owner, body.source, body.target, body.kind)
    && aggregate !in db.live.links
  }

  lemma LinkPrepares(db: Db, body: Body, owner: Owner, aggregate: Uuid, now: Time)
    requires body.LinkTo?
    ensures PrepareLink(db, body, owner, aggregate, now).Ok? <==>
            && Owned(db.live.memories, owner, body.source) && Owned(db.live.memories, owner, body.target)
            && Lockable(db.live.memories[body.source]) && Lockable(db.live.memories[body.target])
            && db.live.memories[body.source].revision == body.sourceExpected
            && db.live.memories[body.target].revision == body.targetExpected
            && !DuplicateLink(db.live.links, owner, body.source, body.target, body.kind)
    ensures PrepareLink(db, body, owner, aggregate, now).Ok? ==>
              PrepareLink(db, body, owner, aggregate, now).value
              == Prepared(Linked(Link(aggregate, owner, body.source, body.target, body.kind, true, now, body.metadata)),
                None, None, None, None, None)
  {
    var ids := {body.source, body.target};
    assert LoadMemories(db.live.memories, owner, ids).Ok? <==>
           (Owned(db.live.memories, owner, body.source) && Owned(db.live.memories, owner, body.target)
            && Lockable(db.live.memories[body.source]) && Lockable(db.live.memories[body.target]));
  }

  lemma LinkFolds(p: Projection, e: Event, l: Link)
    requires Enveloped(p, e) && e.payload == Linked(l) && l.owner == e.owner && l.active && l.createdAt == e.createdAt
             && l.source != l.target
    requires l.source in p.memories && l.target in p.memories && p.memories[l.source].owner == e.owner
             && p.memories[l.target].owner == e.owner
    ensures Fold(p, e).Some? <==> l.id !in p.links
    ensures EndpointsLocal(p, e)
    ensures Fold(p, e).Some? ==> Fold(p, e).value.memories == p.memories && Fold(p, e).value.links == p.links[l.id := l]
  {
    assert AfterImages(e.payload) == [];
    FoldAsksPayload(p, e);
  }

  /** Linking succeeds exactly on linkable ends; it adds one active link and changes no memory. */
  lemma LinkSucceedsExactly(db: Db, principal: Principal, command: Command, ids: Identities, now: Time)
    requires Sound(db) && Admitted(db, principal, command, ids) && command.body.LinkTo?
    ensures var (response, next) := Attempt(db, principal, command, ids, now);
            var owner, body, id := Gate(db, principal, command).value, command.body, ids.aggregate;
            && (response.Success? <==> Linkable(db, body, owner, id))
            && (response.Success? ==>
                  && next.live.memories == db.live.memories
                  && next.live.links == db.live.links[id := Link(id, owner, body.source, body.target, body.kind, true,
                       now, body.metadata)])
  {
    AdmittedSucceeds(db, principal, command, ids, now);
    LinkAccepts(db, principal, command, ids, now);
  }

  lemma LinkAccepts(db: Db, principal: Principal, command: Command, ids: Identities, now: Time)
    requires Sound(db) && Admitted(db, principal, command, ids) && command.body.LinkTo?
    ensures var owner, body, id := Gate(db, principal, command).value, command.body, ids.aggregate;
            var proposed := Proposed(db, principal, command, ids, now);
            && (Taken(db, principal, proposed) <==> Linkable(db, body, owner, id))
            && (proposed.Some? ==> EndpointsLocal(db.live, proposed.value))
            && (Taken(db, principal, proposed) ==>
                  && Fold(db.live, proposed.value).value.memories == db.live.memories
                  && Fold(db.live, proposed.value).value.links
                     == db.live.links[id := Link(id, owner, body.source, body.target, body.kind, true, now,
                       body.metadata)])
  {
    var owner, body, id := Gate(db, principal, command).value, command.body, ids.aggregate;
    LinkPrepares(db, body, owner, id, now);
    if PrepareLink(db, body, owner, id, now).Ok? {
      var e := Proposed(db, principal, command, ids, now).value;
      ProposedIsEnveloped(db, principal, command, ids, now);
      LinkFolds(db.live, e, e.payload.link);
      assert AfterImages(e.payload) == [];
    }
  }

  // Promote and expire

  function LifecycleOperation(op: LifecycleOp): Operation {
    if op == Promote then CandidatePromoted else CandidateExpired
  }

  lemma SettledShape(m: Memory, op: LifecycleOp, now: Time)
    requires WellShaped(m) && !IsSealed(m) && m.status == Candidate
    ensures WellShaped(Settled(m, op, now)) <==> m.createdAt <= now
  {
  }

  lemma LifecycleFolds(p: Projection, e: Event, m: Memory, op: LifecycleOp, decision: Uuid, now: Time)
    requires Enveloped(p, e) && WellShaped(m) && !IsSealed(m) && m.status == Candidate
    requires m.id in p.memories && p.memories[m.id] == m && e.owner == m.owner
    requires e.payload == Lifecycle(m.revision, Settled(m, op, now), decision, [])
             && e.operation == LifecycleOperation(op)
    requires e.memoryId == Some(m.id) && e.expectedRevision == Some(m.revision) && e.createdAt == now
    ensures Fold(p, e).Some? <==> m.createdAt <= now && Rank(m.visibility) <= Rank(p.branches[e.owner.branch].ceiling)
    ensures ValidPayload(e.payload) <==> m.createdAt <= now
  {
    var after := Settled(m, op, now);
    SettledShape(m, op, now);
    assert AfterImages(e.payload) == [after];
    CeilingOfOne(p.branches[e.owner.branch].ceiling, e.payload, after);
    FoldAsksPayload(p, e);
  }

  lemma SettleAccepts(db: Db, principal: Principal, request: Request, op: LifecycleOp, m: Memory, ids: LifecycleIds,
      reason: Reason, now: Time)
    ensures var e := LifecycleEvent(db, principal, request, op, m, ids, now);
            Settle(db, principal, request, op, m, ids, reason, now).0.Moved? <==>
            Transported(db, principal, e) && Append(db, e).Ok?
  {
  }

  lemma SettledAppends(db: Db, e: Event, op: LifecycleOp, id: Uuid, decision: Uuid, now: Time)
    requires Sound(db) && Settleable(db, id) && Enveloped(db.live, e) && e.sequence == |db.events| + 1
    requires !KeyTaken(db.events, e.owner.tenant, e.client, e.idempotencyKey)
    requires e.payload == Lifecycle(db.live.memories[id].revision, Settled(db.live.memories[id], op, now), decision, [])
    requires e.operation == LifecycleOperation(op) && e.owner == db.live.memories[id].owner
    requires e.memoryId == Some(id) && e.expectedRevision == Some(db.live.memories[id].revision) && e.createdAt == now
    ensures var m := db.live.memories[id];
            && (ValidPayload(e.payload) <==> m.createdAt <= now)
            && (Append(db, e).Ok? <==>
                 m.createdAt <= now && Rank(m.visibility) <= Rank(db.live.branches[m.owner.branch].ceiling))
  {
    StoredIsHonest(db, id);
    LifecycleFolds(db.live, e, db.live.memories[id], op, decision, now);
    SettledFits(db.live.memories, e, id, op, now);
    AppendAccepts(db, e);
  }

  lemma SettlingIsEnveloped(db: Db, e: Event, id: Uuid)
    requires Sound(db) && Settleable(db, id) && e.sequence == |db.events| + 1 && e.id !in db.live.eventScopes
             && e.causation.None?
    requires e.owner == db.live.memories[id].owner && e.memoryId == Some(id) && e.payload.Lifecycle?
             && e.payload.memory.id == id
    requires ValidEnvelope(e)
    ensures Enveloped(db.live, e)
  {
    LogIsSound(db);
  }

  /** A candidate the processor can read, on a projected branch. */
  predicate Settleable(db: Db, id: Uuid) {
    && id in db.live.memories
    && var m := db.live.memories[id];
       m.status == Candidate && Readable(m) && m.owner.branch in db.live.branches
         && db.live.branches[m.owner.branch].owner == m.owner
  }

  lemma SettleMovesExactly(db: Db, principal: Principal, request: Request, op: LifecycleOp, id: Uuid, ids: LifecycleIds,
      reason: Reason, now: Time)
    requires Sound(db) && ids.event !in db.live.eventScopes && Settleable(db, id)
    requires !KeyTaken(db.events, principal.tenant, principal.client, KeyOf(op, request))
             && db.live.memories[id].owner.tenant == principal.tenant
    ensures var m := db.live.memories[id];
            Settle(db, principal, request, op, m, ids, reason, now).0.Moved? <==>
            && TransportVerdict(db.directory, principal, LifecycleOperation(op)).None?
            && m.createdAt <= now && Rank(m.visibility) <= Rank(db.live.branches[m.owner.branch].ceiling)
            && m.attributes.sensitivity != MAX_SENSITIVITY
  {
    var m := db.live.memories[id];
    var e := LifecycleEvent(db, principal, request, op, m, ids, now);
    SettleAccepts(db, principal, request, op, m, ids, reason, now);
    StoredIsHonest(db, id);
    SettlingIsEnveloped(db, e, id);
    SettledAppends(db, e, op, id, ids.decision, now);
    CarriedOne(OverRelay(db.directory, principal), e.payload, Settled(m, op, now));
  }

  /** With fresh identities, a reassessment moves its candidate exactly when the candidate is movable, the transport
      may carry the operation, the clock is not behind the memory, and the memory is within its branch's ceiling and
      below the highest sensitivity. */
  lemma ReassessMovesExactly(db: Db, principal: Principal, request: Request, op: LifecycleOp, ids: LifecycleIds,
      facts: Facts, now: Time)
    requires Sound(db) && ids.event !in db.live.eventScopes
    requires !KeyTaken(db.events, principal.tenant, principal.client, KeyOf(op, request))
    requires request.memory in db.live.memories ==>
               var owner := db.live.memories[request.memory].owner;
               owner.branch in db.live.branches && db.live.branches[owner.branch].owner == owner
    ensures LifecycleAttempt(db, principal, request, op, ids, facts, now).0.Moved? <==>
            && Movable(db, principal, request, op, facts, now)
            && TransportVerdict(db.directory, principal, LifecycleOperation(op)).None?
            && db.live.memories[request.memory].createdAt <= now
            && Rank(db.live.memories[request.memory].visibility)
               <= Rank(db.live.branches[db.live.memories[request.memory].owner.branch].ceiling)
            && db.live.memories[request.memory].attributes.sensitivity != MAX_SENSITIVITY
  {
    AttemptSettles(db, principal, request, op, ids, facts, now);
    if Movable(db, principal, request, op, facts, now) {
      var m := db.live.memories[request.memory];
      SettleMovesExactly(db, principal, request, op, request.memory, ids, Evaluate(db, op, facts, m, now).1, now);
    }
  }
}
