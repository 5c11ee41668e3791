/** Content rules over whole runs: what is stored at the highest sensitivity is sealed, but for the untouched
    plaintext of the authorised first import, and what may be shown to others is never sensitive. */
module Sensitivity {
  import opened Domain
  import opened Folding
  import opened FoldInvariants
  import opened LiveProjection
  import opened Mutations
  import opened MutationSafety
  import opened CandidateLifecycle
  import opened MutationRuns
  import opened ExactlyOnce
  import opened Forgetting
  import opened EvidenceRuns

  /** The event store admits an event whose images it may carry, and the authorised import. */
  predicate ContentAdmitted(e: Event) {
    ImagesCarried(false, e.payload) || LegacyImport(e)
  }

  predicate LogCarried(log: seq<Event>) {
    forall i :: 0 <= i < |log| ==> ContentAdmitted(log[i])
  }

  lemma CarriedAnyway(relay: bool, payload: Payload)
    requires ImagesCarried(relay, payload)
    ensures ImagesCarried(false, payload)
  {
  }

  lemma AttemptCarries(db: Db, principal: Principal, command: Command, ids: Identities, now: Time)
    requires LogCarried(db.events)
    ensures LogCarried(Attempt(db, principal, command, ids, now).1.events)
  {
    AttemptCommits(db, principal, command, ids, now);
    if Attempt(db, principal, command, ids, now).1 != db {
      var owner := Gate(db, principal, command).value;
      var prepared := Prepare(db, command, owner, ids.aggregate, now).value;
      CommitShape(db, principal, command, owner, prepared, ids, now);
      CarriedAnyway(OverRelay(db.directory, principal),
        EventOf(db, principal, command, owner, prepared, ids.event, now).payload);
    }
  }

  lemma SettleCarries(db: Db, principal: Principal, request: Request, op: LifecycleOp, m: Memory, ids: LifecycleIds,
      reason: Reason, now: Time)
    requires LogCarried(db.events)
    ensures LogCarried(Settle(db, principal, request, op, m, ids, reason, now).1.events)
  {
    var e := LifecycleEvent(db, principal, request, op, m, ids, now);
    SettleAppends(db, principal, request, op, m, ids, reason, now);
    if Settle(db, principal, request, op, m, ids, reason, now).0.Moved? {
      AppendedIsNew(db, e);
      CarriedAnyway(OverRelay(db.directory, principal), e.payload);
    }
  }

  lemma LifecycleCarries(db: Db, principal: Principal, request: Request, op: LifecycleOp, ids: LifecycleIds,
      facts: Facts, now: Time)
    requires LogCarried(db.events)
    ensures LogCarried(LifecycleAttempt(db, principal, request, op, ids, facts, now).1.events)
  {
    AttemptSettles(db, principal, request, op, ids, facts, now);
    if Movable(db, principal, request, op, facts, now) {
      var m := db.live.memories[request.memory];
      SettleCarries(db, principal, request, op, m, ids, Evaluate(db, op, facts, m, now).1, now);
    }
  }

  lemma NominateCarries(db: Db, n: Nomination)
    requires LogCarried(db.events)
    ensures LogCarried(NominateNext(db, n).events)
  {
    if Nominable(db, n) && Append(db, n.event).Ok? {
      AppendedIsNew(db, n.event);
      assert AfterImages(n.event.payload) == [n.event.payload.memory];
    }
  }

  lemma CorroborateCarries(db: Db, c: Corroboration)
    requires LogCarried(db.events)
    ensures LogCarried(CorroborateNext(db, c).events)
  {
    CorroborateShape(db, c);
    if CorroborateNext(db, c) != db {
      assert AfterImages(c.event.payload) == [c.event.payload.memory];
    }
  }

  lemma StepCarries(db: Db, step: Step)
    requires LogCarried(db.events)
    ensures LogCarried(Next(db, step).events)
  {
    match step {
      case Execute(principal, command, ids, now) => AttemptCarries(db, principal, command, ids, now);
      case Reassess(principal, request, op, ids, facts, now) =>
        LifecycleCarries(db, principal, request, op, ids, facts, now);
      case Nominate(n) => NominateCarries(db, n);
      case Corroborate(c) => CorroborateCarries(db, c);
      case _ =>
    }
  }

  lemma {:induction false} RunsCarry(directory: Directory, branches: map<Uuid, Branch>, steps: seq<Step>)
    ensures LogCarried(Run(Start(directory, branches), steps).events)
    decreases |steps|
  {
    if steps != [] {
      RunsCarry(directory, branches, steps[..|steps| - 1]);
      StepCarries(Run(Start(directory, branches), steps[..|steps| - 1]), steps[|steps| - 1]);
    }
  }

  /** Plaintext of the highest sensitivity. */
  predicate Exposed(m: Memory) {
    !IsSealed(m) && m.attributes.sensitivity == MAX_SENSITIVITY
  }

  /** A memory as the first import left it: never written since, private, a candidate, and backed by evidence. */
  predicate Untouched(p: Projection, m: Memory) {
    m.revision == 1 && m.status == Candidate && m.visibility == PrivateRoot && m.attributes.imported
      && Evidenced(p, m.id)
  }

  lemma ImportIsUntouched(p: Projection, q: Projection, e: Event)
    requires Fold(p, e) == Some(q) && LegacyImport(e)
    ensures AfterImages(e.payload) == [e.payload.memory] && Untouched(q, e.payload.memory)
  {
    FoldIsPayload(p, q, e);
    RowsArrive(p, q, e, e.payload.memory.id);
  }

  lemma StaysUntouched(p: Projection, q: Projection, e: Event, m: Memory)
    requires Fold(p, e) == Some(q) && Untouched(p, m)
    ensures Untouched(q, m)
  {
    FoldKeepsRows(p, q, e);
    var k :| k in p.evidence && p.evidence[k].memory == m.id;
    assert k in q.evidence;
  }

  /** What one event leaves stored is carried or untouched, if that was so before. */
  lemma FoldKeepsAdmitted(p: Projection, q: Projection, e: Event, id: Uuid)
    requires Fold(p, e) == Some(q) && ContentAdmitted(e) && id in q.memories
    requires id in p.memories ==> Exposed(p.memories[id]) ==> Untouched(p, p.memories[id])
    ensures Exposed(q.memories[id]) ==> Untouched(q, q.memories[id])
  {
    FoldMemories(p, e);
    if id in Touched(e.payload) {
      var m :| m in AfterImages(e.payload) && m.id == id;
      if !ImagesCarried(false, e.payload) { ImportIsUntouched(p, q, e); }
    } else if Exposed(p.memories[id]) {
      StaysUntouched(p, q, e, p.memories[id]);
    }
  }

  lemma {:induction false} StoredIsAdmitted(branches: map<Uuid, Branch>, log: seq<Event>, id: Uuid)
    requires Rebuild(branches, log).Some? && LogCarried(log) && id in Rebuild(branches, log).value.memories
    ensures var p := Rebuild(branches, log).value; Exposed(p.memories[id]) ==> Untouched(p, p.memories[id])
    decreases |log|
  {
    if log != [] {
      var init := log[..|log| - 1];
      LastStep(branches, log);
      var p := Rebuild(branches, init).value;
      if id in p.memories { StoredIsAdmitted(branches, init, id); }
      FoldKeepsAdmitted(p, Rebuild(branches, log).value, log[|log| - 1], id);
    }
  }

  /** In every reachable database: content of the highest sensitivity is sealed and holds no plaintext, unless it is an
      imported memory never written since; a shareable memory has sensitivity at most one; a public seed is active,
      approved and not sensitive at all; scene-local memories stay private and keep their origin session; and category
      and ontological status are compatible. */
  lemma RunsKeepContentRules(directory: Directory, branches: map<Uuid, Branch>, steps: seq<Step>, id: Uuid)
    requires id in Run(Start(directory, branches), steps).live.memories
    ensures var p := Run(Start(directory, branches), steps).live;
            var m := p.memories[id];
            && (m.attributes.sensitivity == MAX_SENSITIVITY ==>
                  (IsSealed(m) && m.statement.None? && m.fingerprint.None?) || Untouched(p, m))
            && (m.visibility == Shareable ==> m.attributes.sensitivity <= 1)
            && (m.visibility == PublicSeed ==>
                 m.status == Active && m.approvedBy.Some? && m.attributes.sensitivity == 0)
            && (m.scope == SceneLocalScope ==> m.attributes.origin.Some? && Rank(m.visibility) <= Rank(Restricted))
            && Compatible(m.category, m.ontology)
  {
    RunsAreSound(directory, branches, steps);
    RunsCarry(directory, branches, steps);
    ContentRulesHold(Run(Start(directory, branches), steps), id);
  }

  lemma ContentRulesHold(db: Db, id: Uuid)
    requires Sound(db) && LogCarried(db.events) && id in db.live.memories
    ensures WellShaped(db.live.memories[id]) && (Exposed(db.live.memories[id]) ==>
            Untouched(db.live, db.live.memories[id]))
  {
    LogIsSound(db);
    StoredIsAdmitted(db.live.branches, db.events, id);
  }

  // ---------------------------------------------------------------- what may happen to an imported memory

  /** Every image of a stored memory keeps its sensitivity and its protection. */
  predicate KeepsSensitivity(memories: map<Uuid, Memory>, payload: Payload) {
    forall m :: m in AfterImages(payload) && m.id in memories ==>
      m.attributes.sensitivity == memories[m.id].attributes.sensitivity && (IsSealed(m) <==> IsSealed(memories[m.id]))
  }

  lemma RestatedKeepsSensitivity(memories: map<Uuid, Memory>, payload: Payload, affected: seq<Affected>, now: Time)
    requires (payload.Opened? || payload.Resolved?) && payload.affected == affected
             && AllRestated(memories, affected, now)
    ensures KeepsSensitivity(memories, payload)
  {
    AffectedImages(affected);
  }

  lemma ConflictKeepsSensitivity(db: Db, body: Body, owner: Owner, aggregate: Uuid, now: Time)
    requires FingerprintsHonest(db.live.memories)
    ensures body.OpenConflict? && PrepareOpen(db, body, owner, aggregate, now).Ok? ==>
              KeepsSensitivity(db.live.memories, PrepareOpen(db, body, owner, aggregate, now).value.payload)
    ensures body.ResolveConflict? && PrepareResolve(db, body, owner, now).Ok? ==>
              KeepsSensitivity(db.live.memories, PrepareResolve(db, body, owner, now).value.payload)
  {
    if body.OpenConflict? && PrepareOpen(db, body, owner, aggregate, now).Ok? {
      var payload := PrepareOpen(db, body, owner, aggregate, now).value.payload;
      OpenPrepares(db, body, owner, aggregate, now);
      RestatedKeepsSensitivity(db.live.memories, payload, payload.affected, now);
    }
    if body.ResolveConflict? && PrepareResolve(db, body, owner, now).Ok? {
      var payload := PrepareResolve(db, body, owner, now).value.payload;
      ResolvePrepares(db, body, owner, now);
      RestatedKeepsSensitivity(db.live.memories, payload, payload.affected, now);
    }
  }

  lemma RetireKeepsSensitivity(db: Db, id: Uuid, expected: nat, owner: Owner, now: Time)
    requires FingerprintsHonest(db.live.memories) && PrepareRetire(db, id, expected, owner, now).Ok?
    ensures KeepsSensitivity(db.live.memories, PrepareRetire(db, id, expected, owner, now).value.payload)
  {
  }

  lemma ForgetKeepsSensitivity(db: Db, id: Uuid, expected: nat, hard: bool, owner: Owner, now: Time)
    requires FingerprintsHonest(db.live.memories) && PrepareForget(db, id, expected, hard, owner, now).Ok?
    ensures KeepsSensitivity(db.live.memories, PrepareForget(db, id, expected, hard, owner, now).value.payload)
  {
  }

  lemma SingleKeepsSensitivity(db: Db, command: Command, owner: Owner, aggregate: Uuid, now: Time)
    requires FingerprintsHonest(db.live.memories) && Prepare(db, command, owner, aggregate, now).Ok?
    requires !command.body.Revise? && !command.body.OpenConflict? && !command.body.ResolveConflict?
    ensures var payload := Prepare(db, command, owner, aggregate, now).value.payload;
            payload.Created? || KeepsSensitivity(db.live.memories, payload)
  {
    match command.body {
      case Retire(id, expected) => RetireKeepsSensitivity(db, id, expected, owner, now);
      case Forget(id, expected, hard) => ForgetKeepsSensitivity(db, id, expected, hard, owner, now);
      case LinkTo(_, _, _, _, _, _) => LinkKeepsSensitivity(db, command.body, owner, aggregate, now);
      case Observe(input) => CreateCreates(db, command, input, Candidate, owner, aggregate, now);
      case Remember(input) => CreateCreates(db, command, input, Active, owner, aggregate, now);
    }
  }

  lemma LinkKeepsSensitivity(db: Db, body: Body, owner: Owner, aggregate: Uuid, now: Time)
    requires body.LinkTo? && PrepareLink(db, body, owner, aggregate, now).Ok?
    ensures KeepsSensitivity(db.live.memories, PrepareLink(db, body, owner, aggregate, now).value.payload)
  {
  }

  lemma CreateCreates(db: Db, command: Command, input: MemoryInput, status: Status, owner: Owner, aggregate: Uuid,
      now: Time)
    requires PrepareCreate(db, command, input, status, owner, aggregate, now).Ok?
    ensures PrepareCreate(db, command, input, status, owner, aggregate, now).value.payload.Created?
  {
  }

  /** No command but a revision changes the sensitivity of a stored memory. */
  lemma PreparedKeepsSensitivity(db: Db, command: Command, owner: Owner, aggregate: Uuid, now: Time)
    requires FingerprintsHonest(db.live.memories) && !command.body.Revise?
             && Prepare(db, command, owner, aggregate, now).Ok?
    ensures var payload := Prepare(db, command, owner, aggregate, now).value.payload;
            payload.Created? || KeepsSensitivity(db.live.memories, payload)
  {
    if command.body.OpenConflict? || command.body.ResolveConflict? {
      ConflictKeepsSensitivity(db, command.body, owner, aggregate, now);
    } else {
      SingleKeepsSensitivity(db, command, owner, aggregate, now);
    }
  }

  /** A written image that may be carried is no longer exposed. */
  lemma WrittenIsLowered(p: Projection, q: Projection, e: Event, id: Uuid)
    requires Fold(p, e) == Some(q) && ImagesCarried(false, e.payload) && id in p.memories && Exposed(p.memories[id])
    ensures id in q.memories
    ensures if id in Touched(e.payload) then !Exposed(q.memories[id]) else q.memories[id] == p.memories[id]
  {
    FoldMemories(p, e);
    if id in Touched(e.payload) {
      var m :| m in AfterImages(e.payload) && m.id == id;
      assert Carried(false, m);
    }
  }

  /** An event that keeps sensitivities, or creates, and whose images may be carried does not write an exposed memory.
      */
  lemma ExposedNotWritten(p: Projection, q: Projection, e: Event, id: Uuid)
    requires Fold(p, e) == Some(q) && ImagesCarried(false, e.payload)
    requires id in p.memories && Exposed(p.memories[id])
             && (e.payload.Created? || KeepsSensitivity(p.memories, e.payload))
    ensures id in q.memories && q.memories[id] == p.memories[id]
  {
    FoldIsPayload(p, q, e);
    forall m | m in AfterImages(e.payload) ensures m.id != id { assert Carried(false, m); }
    WrittenIsLowered(p, q, e, id);
  }

  /** The step revises this memory. */
  predicate Revises(step: Step, id: Uuid) {
    step.Execute? && step.command.body.Revise? && step.command.body.memory == id
  }

  lemma CommitFolds(db: Db, principal: Principal, command: Command, owner: Owner, prepared: Prepared, ids: Identities,
      now: Time)
    requires Sound(db) && Prepare(db, command, owner, ids.aggregate, now) == Ok(prepared)
    requires Commit(db, principal, command, owner, prepared, ids, now).Ok?
    ensures var e := EventOf(db, principal, command, owner, prepared, ids.event, now);
            && Fold(db.live, e) == Some(Commit(db, principal, command, owner, prepared, ids, now).value.live)
            && ImagesCarried(false, e.payload)
  {
    var e := EventOf(db, principal, command, owner, prepared, ids.event, now);
    CommitAppends(db, principal, command, owner, prepared, ids, now);
    PreparedFits(db, command, owner, ids.aggregate, now, e);
    AppendKeepsSound(db, e);
    CarriedAnyway(OverRelay(db.directory, principal), e.payload);
  }

  lemma RevisionTouchesOne(db: Db, body: Body, owner: Owner, now: Time)
    requires FingerprintsHonest(db.live.memories) && body.Revise?
             && PrepareRevise(db, body.memory, body.expected, body.changes, owner, now).Ok?
    ensures Touched(PrepareRevise(db, body.memory, body.expected, body.changes, owner, now).value.payload)
            == {body.memory}
  {
  }

  lemma CommandOnExposed(db: Db, principal: Principal, command: Command, ids: Identities, now: Time, id: Uuid)
    requires Sound(db) && id in db.live.memories && Exposed(db.live.memories[id])
    ensures var after := Attempt(db, principal, command, ids, now).1.live.memories;
            && id in after
            && (after[id] == db.live.memories[id]
                 || (command.body.Revise? && command.body.memory == id && !Exposed(after[id])))
  {
    AttemptCommits(db, principal, command, ids, now);
    var next := Attempt(db, principal, command, ids, now).1;
    if next != db {
      var owner := Gate(db, principal, command).value;
      var prepared := Prepare(db, command, owner, ids.aggregate, now).value;
      CommitFolds(db, principal, command, owner, prepared, ids, now);
      CommittedOnExposed(db, next, command, owner, ids.aggregate, now,
        EventOf(db, principal, command, owner, prepared, ids.event, now), id);
    }
  }

  lemma CommittedOnExposed(db: Db, next: Db, command: Command, owner: Owner, aggregate: Uuid, now: Time, e: Event,
      id: Uuid)
    requires Sound(db) && id in db.live.memories && Exposed(db.live.memories[id])
    requires Prepare(db, command, owner, aggregate, now).Ok?
             && e.payload == Prepare(db, command, owner, aggregate, now).value.payload
    requires Fold(db.live, e) == Some(next.live) && ImagesCarried(false, e.payload)
    ensures var after := next.live.memories;
            && id in after
            && (after[id] == db.live.memories[id]
                 || (command.body.Revise? && command.body.memory == id && !Exposed(after[id])))
  {
    if command.body.Revise? {
      RevisionTouchesOne(db, command.body, owner, now);
      WrittenIsLowered(db.live, next.live, e, id);
    } else {
      PreparedKeepsSensitivity(db, command, owner, aggregate, now);
      ExposedNotWritten(db.live, next.live, e, id);
    }
  }

  /** The memory is in both projections, and the same. */
  predicate Same(before: Projection, after: Projection, id: Uuid) {
    id in before.memories && id in after.memories && after.memories[id] == before.memories[id]
  }

  lemma SettledNotExposed(m: Memory, op: LifecycleOp, now: Time)
    ensures Carried(false, Settled(m, op, now)) <==> !Exposed(m)
  {
  }

  lemma LifecycleOnExposed(db: Db, principal: Principal, request: Request, op: LifecycleOp, ids: LifecycleIds,
      facts: Facts, now: Time, id: Uuid)
    requires Sound(db) && id in db.live.memories && Exposed(db.live.memories[id])
    ensures Same(db.live, LifecycleAttempt(db, principal, request, op, ids, facts, now).1.live, id)
  {
    AttemptSettles(db, principal, request, op, ids, facts, now);
    LifecycleKeepsSound(db, principal, request, op, ids, facts, now);
    if Movable(db, principal, request, op, facts, now) && request.memory == id {
      var m := db.live.memories[id];
      ExposedIsNotSettled(db, principal, request, op, m, ids, Evaluate(db, op, facts, m, now).1, now);
    }
  }

  lemma ExposedIsNotSettled(db: Db, principal: Principal, request: Request, op: LifecycleOp, m: Memory,
      ids: LifecycleIds, reason: Reason, now: Time)
    requires Exposed(m)
    ensures Settle(db, principal, request, op, m, ids, reason, now).1 == db
  {
    var e := LifecycleEvent(db, principal, request, op, m, ids, now);
    SettledNotExposed(m, op, now);
    assert AfterImages(e.payload) == [Settled(m, op, now)] && Settled(m, op, now) in AfterImages(e.payload);
  }

  lemma CorroborateOnExposed(db: Db, c: Corroboration, id: Uuid)
    requires Sound(db) && id in db.live.memories && Exposed(db.live.memories[id])
    ensures Same(db.live, CorroborateNext(db, c).live, id)
  {
    CorroborateShape(db, c);
    if CorroborateNext(db, c) != db {
      var k := c.event.payload.memory.id;
      SettledNotExposed(db.live.memories[k], Promote, c.event.createdAt);
      AppendSettled(db, c.event, k, Promote, c.event.createdAt);
    }
  }

  lemma CreationLeaves(p: Projection, q: Projection, e: Event, id: Uuid)
    requires Fold(p, e) == Some(q) && e.payload.Created? && id in p.memories
    ensures id in q.memories && q.memories[id] == p.memories[id]
  {
    FoldIsPayload(p, q, e);
  }

  lemma NominateOnExposed(db: Db, n: Nomination, id: Uuid)
    requires Sound(db) && id in db.live.memories
    ensures Same(db.live, NominateNext(db, n).live, id)
  {
    if Nominable(db, n) && Append(db, n.event).Ok? {
      NominationFits(db, n);
      AppendKeepsSound(db, n.event);
      CreationLeaves(db.live, Append(db, n.event).value.live, n.event, id);
    }
  }

  /** Imported plaintext of the highest sensitivity is frozen: the only step that changes it is its own revision to a
      lower sensitivity. It is not retired, disputed, promoted, expired or forgotten. */
  lemma StepOnExposed(db: Db, step: Step, id: Uuid)
    requires Sound(db) && id in db.live.memories && Exposed(db.live.memories[id])
    ensures var after := Next(db, step).live.memories;
            && id in after
            && (after[id] == db.live.memories[id] || (Revises(step, id) && !Exposed(after[id])))
  {
    if step.Execute? {
      CommandOnExposed(db, step.principal, step.command, step.ids, step.now, id);
    } else {
      OthersOnExposed(db, step, id);
    }
  }

  lemma OthersOnExposed(db: Db, step: Step, id: Uuid)
    requires Sound(db) && id in db.live.memories && Exposed(db.live.memories[id]) && !step.Execute?
    ensures Same(db.live, Next(db, step).live, id)
  {
    match step {
      case Reassess(principal, request, op, ids, facts, now) =>
        LifecycleOnExposed(db, principal, request, op, ids, facts, now, id);
      case Nominate(n) => NominateOnExposed(db, n, id);
      case Corroborate(c) => CorroborateOnExposed(db, c, id);
      case _ => QuietLeaves(db, step);
    }
  }
}
