/** Every event the command processors prepare keeps the projection sound: the live tables stay the
    fold of the log, fingerprints stay honest, and no live claim is ever duplicated.
 */
module MutationSafety {
  import opened Domain
  import opened Folding
  import opened FoldInvariants
  import opened LiveProjection
  import opened Mutations

  /** The live tables are the fold of a disciplined log and hold honest, unique fingerprints. */
  ghost predicate Sound(db: Db) {
    && Rebuild(db.live.branches, db.events) == Some(db.live)
    && DisciplinedLog(db.live.branches, db.events)
    && FingerprintsHonest(db.live.memories)
    && LiveUnique(db.live.memories)
  }

  ghost predicate HonestImage(m: Memory) {
    !IsSealed(m) && m.status != Tombstoned ==> m.fingerprint == Some(ClaimOf(m))
  }

  /** An after-image that, once the reducer accepts its step, keeps every invariant. */
  ghost predicate FitImage(memories: map<Uuid, Memory>, e: Event, m: Memory) {
    MemoryStep(memories, e, m) && WellShaped(m) ==>
      && HonestImage(m)
      && SafeWrite(memories, AfterImages(e.payload), m)
      && (m.id in memories && e.operation == Revised ==> m.status == memories[m.id].status)
      && (m.id in memories && (e.operation == RetiredEvent || e.operation == TombstonedEvent) ==>
            memories[m.id].status != Disputed)
  }

  ghost predicate Fit(memories: map<Uuid, Memory>, e: Event) {
    forall m :: m in AfterImages(e.payload) ==> FitImage(memories, e, m)
  }

  // ---------------------------------------------------------------- appending a fit event

  lemma HonestAfter(before: map<Uuid, Memory>, e: Event, after: map<Uuid, Memory>)
    requires FingerprintsHonest(before) && MemoriesFollow(before, e, after)
    requires forall m :: m in AfterImages(e.payload) ==> HonestImage(m) && WellShaped(m)
    ensures FingerprintsHonest(after)
  {
    forall id | id in after
      ensures after[id].id == id && WellShaped(after[id]) && HonestImage(after[id])
    {
      if id in Touched(e.payload) {
        var m :| m in AfterImages(e.payload) && m.id == id;
      }
    }
  }

  lemma {:induction false} LogIsSound(db: Db)
    requires Sound(db)
    ensures db.live.sequence == |db.events|
    ensures DisputesSound(db.live) && MembersSound(db.live) && EvidenceSound(db.live)
  {
    RevisionCountsEvents(db.live.branches, db.events, 0);
    EvidenceIsSound(db.live.branches, db.events);
    DisputesFollowConflicts(db.live.branches, db.events);
  }

  /** Folding a fit event keeps fingerprints honest and live claims unique. */
  lemma FitKeepsFingerprints(p: Projection, e: Event)
    requires FingerprintsHonest(p.memories) && LiveUnique(p.memories)
    requires Fold(p, e).Some? && Fit(p.memories, e)
    ensures FingerprintsHonest(Fold(p, e).value.memories) && LiveUnique(Fold(p, e).value.memories)
    ensures Disciplined(p.memories, e)
  {
    FoldMemories(p, e);
    FoldNeedsValid(p, e);
    assert forall m :: m in AfterImages(e.payload) ==> MemoryStep(p.memories, e, m) && FitImage(p.memories, e, m);
    HonestAfter(p.memories, e, Fold(p, e).value.memories);
    UniqueAfterWrites(p.memories, e, Fold(p, e).value.memories);
  }

  lemma FoldNeedsValid(p: Projection, e: Event)
    requires Fold(p, e).Some?
    ensures ValidEnvelope(e) && ValidPayload(e.payload) && e.id !in p.eventScopes && e.owner.branch in p.branches
    ensures forall m :: m in AfterImages(e.payload) ==> WellShaped(m)
  {
  }

  lemma LogGrows(branches: map<Uuid, Branch>, log: seq<Event>, p: Projection, e: Event)
    requires Rebuild(branches, log) == Some(p) && DisciplinedLog(branches, log)
    requires Fold(p, e).Some? && Disciplined(p.memories, e)
    ensures Rebuild(branches, log + [e]) == Fold(p, e)
    ensures DisciplinedLog(branches, log + [e])
  {
    var longer := log + [e];
    assert longer[..|longer| - 1] == log;
  }

  /** Staging a fit event the live path accepts keeps the projection sound. */
  lemma StagedKeepsSound(db: Db, e: Event)
    requires Sound(db) && Fit(db.live.memories, e) && e.sequence == |db.events| + 1
    requires LiveAccepts(db.live, e)
    ensures Fold(db.live, e) == Some(Staged(db.live, e))
    ensures Sound(db.(live := Staged(db.live, e), events := db.events + [e]))
  {
    LogIsSound(db);
    LiveRefinesFold(db.live, e);
    FitKeepsFingerprints(db.live, e);
    FoldMemories(db.live, e);
    LogGrows(db.live.branches, db.events, db.live, e);
  }

  /** What an append checks, up to the index. */
  predicate Appendable(db: Db, e: Event) {
    && ValidEnvelope(e) && ValidPayload(e.payload)
    && !KeyTaken(db.events, e.owner.tenant, e.client, e.idempotencyKey)
    && LiveAccepts(db.live, e)
  }

  lemma AppendChecks(db: Db, e: Event)
    ensures Append(db, e).Ok? <==> Appendable(db, e) && LiveUnique(Staged(db.live, e).memories)
    ensures Append(db, e).Ok? ==> Append(db, e).value == db.(live := Staged(db.live, e), events := db.events + [e])
  {
  }

  /** Appending a fit event keeps the database sound, and the live-fingerprint index never refuses it. */
  lemma AppendKeepsSound(db: Db, e: Event)
    requires Sound(db) && Fit(db.live.memories, e) && e.sequence == |db.events| + 1
    ensures Append(db, e).Ok? <==> Appendable(db, e)
    ensures Append(db, e).Ok? ==>
              && Sound(Append(db, e).value)
              && Fold(db.live, e) == Some(Append(db, e).value.live)
              && Append(db, e).value == db.(live := Append(db, e).value.live, events := db.events + [e])
  {
    AppendChecks(db, e);
    if Appendable(db, e) {
      StagedKeepsSound(db, e);
    }
  }

  // ---------------------------------------------------------------- prepared events are fit

  lemma CreateFits(db: Db, command: Command, input: MemoryInput, status: Status, owner: Owner, aggregate: Uuid,
      now: Time, e: Event)
    requires PrepareCreate(db, command, input, status, owner, aggregate, now).Ok?
    requires e.payload == PrepareCreate(db, command, input, status, owner, aggregate, now).value.payload
    requires e.operation == Observed || e.operation == Remembered
    ensures Fit(db.live.memories, e)
  {
    var m := NewMemory(input, owner, aggregate, status, now);
    assert AfterImages(e.payload) == [m];
  }

  lemma ReviseFits(db: Db, id: Uuid, expected: nat, changes: Changes, owner: Owner, now: Time, e: Event)
    requires FingerprintsHonest(db.live.memories)
    requires PrepareRevise(db, id, expected, changes, owner, now).Ok?
    requires e.payload == PrepareRevise(db, id, expected, changes, owner, now).value.payload
    requires e.operation == Revised
    ensures Fit(db.live.memories, e)
  {
    var current := db.live.memories[id];
    var m := RevisedMemory(current, changes, now);
    assert current.id == id;
    assert AfterImages(e.payload) == [m];
    forall k | k in db.live.memories && k != m.id ensures Live(m.status) ==> !SameLiveClaim(db.live.memories[k], m) {
      assert !SameLiveClaim(db.live.memories[k], m.(status := Active));
    }
  }

  /** Moving a stored plaintext memory to another status cannot clash, if it was live before. */
  lemma RestatedFits(memories: map<Uuid, Memory>, id: Uuid, status: Status, now: Time, e: Event)
    requires FingerprintsHonest(memories) && id in memories
    requires e.operation == RetiredEvent || e.operation == ConflictOpened || e.operation == ConflictResolved
    requires e.operation == RetiredEvent ==> status == Retired && memories[id].status != Disputed
    ensures FitImage(memories, e, Restated(memories[id], status, now))
  {
    var before, after := memories[id], Restated(memories[id], status, now);
    assert before.id == id && ClaimOf(after) == ClaimOf(before);
  }

  lemma RetireFits(db: Db, id: Uuid, expected: nat, owner: Owner, now: Time, e: Event)
    requires FingerprintsHonest(db.live.memories)
    requires PrepareRetire(db, id, expected, owner, now).Ok?
    requires e.payload == PrepareRetire(db, id, expected, owner, now).value.payload
    requires e.operation == RetiredEvent
    ensures Fit(db.live.memories, e)
  {
    RestatedFits(db.live.memories, id, Retired, now, e);
    assert AfterImages(e.payload) == [Restated(db.live.memories[id], Retired, now)];
  }

  lemma ForgetFits(db: Db, id: Uuid, expected: nat, hard: bool, owner: Owner, now: Time, e: Event)
    requires FingerprintsHonest(db.live.memories)
    requires PrepareForget(db, id, expected, hard, owner, now).Ok?
    requires e.payload == PrepareForget(db, id, expected, hard, owner, now).value.payload
    requires e.operation == TombstonedEvent
    ensures Fit(db.live.memories, e)
  {
    var m := TombstoneOf(db.live.memories[id], now);
    assert db.live.memories[id].id == id;
    assert AfterImages(e.payload) == [m];
  }

  predicate AllRestated(memories: map<Uuid, Memory>, affected: seq<Affected>, now: Time) {
    forall a :: a in affected ==>
      a.memory.id in memories && a.memory == Restated(memories[a.memory.id], a.memory.status, now)
  }

  lemma ConflictFits(memories: map<Uuid, Memory>, e: Event, affected: seq<Affected>, now: Time)
    requires FingerprintsHonest(memories)
    requires e.operation == ConflictOpened || e.operation == ConflictResolved
    requires e.payload.Opened? || e.payload.Resolved?
    requires e.payload.affected == affected && AllRestated(memories, affected, now)
    ensures Fit(memories, e)
  {
    AffectedImages(affected);
    forall m | m in AfterImages(e.payload) ensures FitImage(memories, e, m) {
      var a :| a in affected && a.memory == m;
      RestatedFits(memories, m.id, m.status, now, e);
    }
  }

  predicate RowsOf(rows: map<Uuid, Memory>, memories: map<Uuid, Memory>) {
    forall id :: id in rows ==> id in memories && rows[id] == memories[id] && memories[id].id == id
  }

  lemma DisputedAreRestated(memories: map<Uuid, Memory>, ids: seq<Uuid>, rows: map<Uuid, Memory>, now: Time)
    requires RowsOf(rows, memories) && forall id :: id in ids ==> id in rows
    ensures AllRestated(memories, DisputedImages(ids, rows, now), now)
  {
    forall a | a in DisputedImages(ids, rows, now)
      ensures a.memory.id in memories && a.memory == Restated(memories[a.memory.id], a.memory.status, now)
    {
      var i :| 0 <= i < |ids| && a == DisputedImages(ids, rows, now)[i];
      assert ids[i] in ids;
    }
  }

  lemma SettledAreRestated(memories: map<Uuid, Memory>, ids: seq<Uuid>, rows: map<Uuid, Memory>, verdicts: map<Uuid,
      Verdict>, now: Time)
    requires RowsOf(rows, memories) && forall id :: id in ids ==> id in rows && id in verdicts
    ensures AllRestated(memories, SettledImages(ids, rows, verdicts, now), now)
  {
    forall a | a in SettledImages(ids, rows, verdicts, now)
      ensures a.memory.id in memories && a.memory == Restated(memories[a.memory.id], a.memory.status, now)
    {
      var i :| 0 <= i < |ids| && a == SettledImages(ids, rows, verdicts, now)[i];
      assert ids[i] in ids;
    }
  }

  lemma OpenPrepares(db: Db, body: Body, owner: Owner, aggregate: Uuid, now: Time)
    requires FingerprintsHonest(db.live.memories) && body.OpenConflict?
    requires PrepareOpen(db, body, owner, aggregate, now).Ok?
    ensures var payload := PrepareOpen(db, body, owner, aggregate, now).value.payload;
            payload.Opened? && AllRestated(db.live.memories, payload.affected, now)
  {
    var ids := Expected(body.members).Keys;
    DisputedAreRestated(db.live.memories, Ascending(ids), LoadMemories(db.live.memories, owner, ids).value, now);
  }

  lemma ResolvePrepares(db: Db, body: Body, owner: Owner, now: Time)
    requires FingerprintsHonest(db.live.memories) && body.ResolveConflict?
    requires PrepareResolve(db, body, owner, now).Ok?
    ensures var payload := PrepareResolve(db, body, owner, now).value.payload;
            payload.Resolved? && AllRestated(db.live.memories, payload.affected, now)
  {
    var verdicts := VerdictOf(body.verdicts);
    SettledAreRestated(db.live.memories, Ascending(verdicts.Keys),
      LoadMemories(db.live.memories, owner, verdicts.Keys).value, verdicts, now);
  }

  lemma OpenFits(db: Db, body: Body, owner: Owner, aggregate: Uuid, now: Time, e: Event)
    requires FingerprintsHonest(db.live.memories) && body.OpenConflict?
             && PrepareOpen(db, body, owner, aggregate, now).Ok?
    requires e.payload == PrepareOpen(db, body, owner, aggregate, now).value.payload && e.operation == ConflictOpened
    ensures Fit(db.live.memories, e)
  {
    OpenPrepares(db, body, owner, aggregate, now);
    ConflictFits(db.live.memories, e, e.payload.affected, now);
  }

  lemma ResolveFits(db: Db, body: Body, owner: Owner, now: Time, e: Event)
    requires FingerprintsHonest(db.live.memories) && body.ResolveConflict? && PrepareResolve(db, body, owner, now).Ok?
    requires e.payload == PrepareResolve(db, body, owner, now).value.payload && e.operation == ConflictResolved
    ensures Fit(db.live.memories, e)
  {
    ResolvePrepares(db, body, owner, now);
    ConflictFits(db.live.memories, e, e.payload.affected, now);
  }

  /** Whatever a command prepares is fit to be appended. */
  lemma PreparedFits(db: Db, command: Command, owner: Owner, aggregate: Uuid, now: Time, e: Event)
    requires FingerprintsHonest(db.live.memories)
    requires Prepare(db, command, owner, aggregate, now).Ok?
    requires e.payload == Prepare(db, command, owner, aggregate, now).value.payload
    requires e.operation == EventOperation(command.body)
    ensures Fit(db.live.memories, e)
  {
    match command.body {
      case Observe(input) => CreateFits(db, command, input, Candidate, owner, aggregate, now, e);
      case Remember(input) => CreateFits(db, command, input, Active, owner, aggregate, now, e);
      case Revise(m, expected, changes) => ReviseFits(db, m, expected, changes, owner, now, e);
      case LinkTo(_, _, _, _, _, _) =>
      case OpenConflict(_, _, _, _) => OpenFits(db, command.body, owner, aggregate, now, e);
      case ResolveConflict(_, _, _, _, _) => ResolveFits(db, command.body, owner, now, e);
      case Retire(m, expected) => RetireFits(db, m, expected, owner, now, e);
      case Forget(m, expected, hard) => ForgetFits(db, m, expected, hard, owner, now, e);
    }
  }

  /** Soundness looks only at the log and the live tables. */
  lemma SoundProjection(a: Db, b: Db)
    requires Sound(a) && a.live == b.live && a.events == b.events
    ensures Sound(b)
  {
  }

  lemma CommitAppends(db: Db, principal: Principal, command: Command, owner: Owner, prepared: Prepared, ids: Identities,
      now: Time)
    requires Commit(db, principal, command, owner, prepared, ids, now).Ok?
    ensures var e := EventOf(db, principal, command, owner, prepared, ids.event, now);
            var specs := ScheduledJobs(command.body, e, prepared.resultMemory, prepared.resultRevision);
            var next := Commit(db, principal, command, owner, prepared, ids, now).value;
            && Append(db, e).Ok? && |specs| <= |ids.jobs|
            && next == Append(db, e).value.(
                 jobs := db.jobs + Enqueued(specs, ids.jobs, principal.tenant),
                 keys := if HardForget(command.body) && prepared.resultMemory.Some?
                         then RequestDestruction(db.keys, owner, prepared.resultMemory.value, now) else db.keys,
                 receipts := db.receipts + [ReceiptOf(principal, command, owner, prepared, ids)])
  {
  }

  lemma CommitKeepsSound(db: Db, principal: Principal, command: Command, owner: Owner, prepared: Prepared,
      ids: Identities, now: Time)
    requires Sound(db)
    requires Fit(db.live.memories, EventOf(db, principal, command, owner, prepared, ids.event, now))
    requires Commit(db, principal, command, owner, prepared, ids, now).Ok?
    ensures Sound(Commit(db, principal, command, owner, prepared, ids, now).value)
  {
    var e := EventOf(db, principal, command, owner, prepared, ids.event, now);
    AppendKeepsSound(db, e);
    CommitAppends(db, principal, command, owner, prepared, ids, now);
    SoundProjection(Append(db, e).value, Commit(db, principal, command, owner, prepared, ids, now).value);
  }

  /** A command attempt keeps the database sound. */
  lemma AttemptKeepsSound(db: Db, principal: Principal, command: Command, ids: Identities, now: Time)
    requires Sound(db)
    ensures Sound(Attempt(db, principal, command, ids, now).1)
  {
    var next := Attempt(db, principal, command, ids, now).1;
    if next != db {
      var owner := Gate(db, principal, command).value;
      var prepared := Prepare(db, command, owner, ids.aggregate, now).value;
      PreparedFits(db, command, owner, ids.aggregate, now,
        EventOf(db, principal, command, owner, prepared, ids.event, now));
      CommitKeepsSound(db, principal, command, owner, prepared, ids, now);
    }
  }
}
