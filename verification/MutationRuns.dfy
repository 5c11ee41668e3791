/** Whole runs of the memory node: direct commands, lifecycle reassessments, nominations, key
    destruction and directory administration, in any order and any number.
 */
module MutationRuns {
  import opened Domain
  import opened Folding
  import opened FoldInvariants
  import opened LiveProjection
  import opened Mutations
  import opened MutationSafety
  import opened CandidateLifecycle

  /** A creation decided by the selection engine, whose policy is outside this model. `authorized`: the first import of
      legacy memories is under way. */
  datatype Nomination = Nomination(event: Event, receipt: Receipt, decision: Decision, jobs: seq<Uuid>,
      authorized: bool)

  /** A nomination that repeats a candidate's claim with new evidence and so promotes it. */
  datatype Corroboration = Corroboration(event: Event, receipt: Receipt, facts: Facts, ids: LifecycleIds)

  datatype Step =
    | Execute(principal: Principal, command: Command, ids: Identities, now: Time)
    | Reassess(principal: Principal, request: Request, op: LifecycleOp, lifecycleIds: LifecycleIds, facts: Facts,
      now: Time)
    | Nominate(nomination: Nomination)
    | Corroborate(corroboration: Corroboration)
    | Decline(receipt: Receipt, decision: Decision)
    | UpdateKey(key: Uuid, row: ContentKey)
    | Administer(directory: Directory, branches: map<Uuid, Branch>)

  // ---------------------------------------------------------------- steps outside the command processors

  predicate KeyRowFor(k: ContentKey, owner: Owner, memory: Uuid) {
    k.tenant == owner.tenant && k.lineage == owner.lineage && k.memory == memory
  }

  predicate ReceiptFree(receipts: seq<Receipt>, r: Receipt) {
    forall q :: q in receipts ==> !(q.tenant == r.tenant && q.client == r.client && q.key == r.key)
  }

  const GENESIS_PREFIX := "genesis-import-v1:"
  const MANIFEST_PREFIX := "import-manifest:"

  predicate HexLower(c: char) {
    '0' <= c <= '9' || 'a' <= c <= 'f'
  }

  /** The one shape in which plaintext of the highest sensitivity is admitted: an imported private candidate, backed by
      the import manifest. */
  predicate LegacyImport(e: Event) {
    && e.operation == Observed && e.payload.Created?
    && GENESIS_PREFIX <= e.idempotencyKey && |e.idempotencyKey| == |GENESIS_PREFIX| + 64
    && (forall i :: |GENESIS_PREFIX| <= i < |e.idempotencyKey| ==> HexLower(e.idempotencyKey[i]))
    && (var m := e.payload.memory;
        m.status == Candidate && m.visibility == PrivateRoot && m.attributes.imported && !IsSealed(m))
    && e.payload.evidence != []
    && forall x :: x in e.payload.evidence ==> x.kind == ImportManifest && x.trusted && MANIFEST_PREFIX <= x.key
  }

  /** A creation the selection engine may commit: fresh keys everywhere, a fingerprint no live memory has, and
      for sealed content a fresh content key. */
  predicate Nominable(db: Db, n: Nomination) {
    && n.event.payload.Created? && (n.event.operation == Observed || n.event.operation == Remembered)
    && n.event.sequence == |db.events| + 1
    && n.receipt.tenant == n.event.owner.tenant && n.receipt.client == n.event.client
    && n.receipt.key == n.event.idempotencyKey
    && n.receipt.result.event == Some(n.event.id)
    && ReceiptFree(db.receipts, n.receipt)
    && var m := n.event.payload.memory;
       && (!IsSealed(m) ==> m.fingerprint == Some(ClaimOf(m)))
       && (Carried(false, m) || (n.authorized && LegacyImport(n.event)))
       && (forall id :: id in db.live.memories ==> !SameLiveClaim(db.live.memories[id], m))
       && (IsSealed(m) ==>
             && m.keyId.Some? && m.keyId.value !in db.keys
             && forall k :: k in db.keys ==> !KeyRowFor(db.keys[k], m.owner, m.id))
       && |NominationJobs(n)| <= |n.jobs|
  }

  /** The jobs every creation has; a sealed memory is neither embedded nor checked for duplicates. */
  function CreationJobs(e: Event, m: Memory): seq<JobSpec> {
    if IsSealed(m) then [JobSpec(ExportBatch, e.id, None, e.id)]
    else [JobSpec(EmbedMemory, m.id, Some(m.revision), e.id), JobSpec(CheckDuplicates, m.id, Some(m.revision), e.id),
          JobSpec(ExportBatch, e.id, None, e.id)]
  }

  function ExpiryJobs(e: Event, m: Memory): seq<JobSpec> {
    if m.status == Candidate then [JobSpec(ExpireCandidate, m.id, Some(m.revision), e.id)] else []
  }

  function NominationJobs(n: Nomination): seq<JobSpec>
    requires n.event.payload.Created?
  {
    CreationJobs(n.event, n.event.payload.memory) + ExpiryJobs(n.event, n.event.payload.memory)
  }

  function NominationKeys(db: Db, m: Memory): map<Uuid, ContentKey> {
    if IsSealed(m) && m.keyId.Some?
    then db.keys[m.keyId.value := ContentKey(m.owner.tenant, m.owner.lineage, m.id, KeyActive, None, None, None)]
    else db.keys
  }

  function NominateNext(db: Db, n: Nomination): Db {
    if !Nominable(db, n) then db
    else
      match Append(db, n.event)
      case Err(_) => db
      case Ok(next) =>
        next.(receipts := db.receipts + [n.receipt],
              decisions := db.decisions + [n.decision],
              jobs := db.jobs + Enqueued(NominationJobs(n), n.jobs, n.event.owner.tenant),
              keys := NominationKeys(db, n.event.payload.memory))
  }

  /** The candidate is readable and has a source decision, the new evidence is under keys not stored yet, and with it
      the policy promotes. The event is the internal principal's; the receipt is the nominator's. */
  predicate Corroborable(db: Db, c: Corroboration) {
    && c.event.operation == CandidatePromoted && c.event.payload.Lifecycle? && c.event.sequence == |db.events| + 1
    && c.event.payload.memory.id in db.live.memories
    && var m, e := db.live.memories[c.event.payload.memory.id], c.event;
       && m.status == Candidate && Readable(m) && e.owner == m.owner
       && e.payload == Lifecycle(m.revision, Settled(m, Promote, e.createdAt), c.ids.decision, e.payload.evidence)
       && e.memoryId == Some(m.id) && e.expectedRevision == Some(m.revision) && e.id == c.ids.event
       && (exists d :: d in db.decisions && d.tenant == m.owner.tenant && d.memory == Some(m.id)
            && d.outcome == "candidate")
       && e.payload.evidence != []
       && (forall x, k :: x in e.payload.evidence && k in EvidenceFor(db.live.evidence, m) ==> x.key != k.key)
       && EvaluatePromotion(c.facts, EvidenceFor(db.live.evidence, m) + (set x | x in e.payload.evidence)).0
       && Carried(false, e.payload.memory)
       && c.receipt.tenant == m.owner.tenant && c.receipt.result.event == Some(e.id)
       && ReceiptFree(db.receipts, c.receipt)
  }

  function CorroborateNext(db: Db, c: Corroboration): Db {
    if !Corroborable(db, c) then db
    else
      match Append(db, c.event)
      case Err(_) => db
      case Ok(next) =>
        var m := c.event.payload.memory;
        next.(receipts := db.receipts + [c.receipt],
              decisions := db.decisions + [Decision(c.ids.decision, m.owner.tenant, Some(m.id), Some(c.event.id),
                "promoted")],
              jobs := db.jobs + LifecycleJobs(m.owner.tenant, c.event, m, c.ids))
  }

  /** The content-key trigger: a key starts destruction once, ends destroyed or failed, and keeps its audit fields. */
  predicate KeyMove(before: ContentKey, after: ContentKey) {
    && before.tenant == after.tenant && before.lineage == after.lineage && before.memory == after.memory
    && (|| before == after
        || (&& (before.requestedAt.Some? ==> after.requestedAt == before.requestedAt)
            && (before.destroyedAt.Some? ==> after.destroyedAt == before.destroyedAt)
            && (before.receipt.Some? ==> after.receipt == before.receipt)
            && (|| (&& before.state == KeyActive && after.state == DestructionRequested
                    && before.requestedAt.None? && after.requestedAt.Some? && after.destroyedAt.None?
                    && after.receipt.None?)
                || (&& before.state == DestructionRequested && after.state == KeyDestroyed
                    && after.requestedAt == before.requestedAt
                    && before.destroyedAt.None? && after.destroyedAt.Some? && before.receipt.None?
                    && after.receipt.Some?)
                || (&& before.state == DestructionRequested && after.state == DestructionFailed
                    && after.requestedAt == before.requestedAt && after.destroyedAt.None? && after.receipt.None?))))
  }

  /** Administration may add branches and change anything in the directory except who owns an existing branch. */
  predicate Administrable(db: Db, directory: Directory, branches: map<Uuid, Branch>) {
    && (forall b :: b in db.live.branches ==> b in branches && branches[b] == db.live.branches[b])
    && (forall b :: b in db.directory.branches ==>
         b in directory.branches && directory.branches[b].owner == db.directory.branches[b].owner)
  }

  // ---------------------------------------------------------------- runs

  function Next(db: Db, step: Step): Db {
    match step
    case Execute(principal, command, ids, now) => Attempt(db, principal, command, ids, now).1
    case Reassess(principal, request, op, ids, facts, now) =>
      LifecycleAttempt(db, principal, request, op, ids, facts, now).1
    case Nominate(n) => NominateNext(db, n)
    case Corroborate(c) => CorroborateNext(db, c)
    case Decline(receipt, decision) =>
      if receipt.result.event.None? && ReceiptFree(db.receipts, receipt)
      then db.(receipts := db.receipts + [receipt], decisions := db.decisions + [decision]) else db
    case UpdateKey(key, row) =>
      if key in db.keys && KeyMove(db.keys[key], row) then db.(keys := db.keys[key := row]) else db
    case Administer(directory, branches) =>
      if Administrable(db, directory, branches) then db.(directory := directory, live := db.live.(branches := branches))
        else db
  }

  lemma QuietLeaves(db: Db, step: Step)
    requires step.Decline? || step.UpdateKey? || step.Administer?
    ensures Next(db, step).live.memories == db.live.memories && Next(db, step).events == db.events
  {
  }

  function Run(db: Db, steps: seq<Step>): Db
    decreases |steps|
  {
    if steps == [] then db else Next(Run(db, steps[..|steps| - 1]), steps[|steps| - 1])
  }

  function Start(directory: Directory, branches: map<Uuid, Branch>): Db {
    Db(directory, Empty(branches), [], [], [], map[], [])
  }

  // ---------------------------------------------------------------- soundness of every reachable database

  /** Adding branches changes nothing the reducer decided. */
  lemma FoldWithMoreBranches(p: Projection, e: Event, branches: map<Uuid, Branch>)
    requires Fold(p, e).Some?
    requires forall b :: b in p.branches ==> b in branches && branches[b] == p.branches[b]
    ensures Fold(p.(branches := branches), e) == Some(Fold(p, e).value.(branches := branches))
  {
    var q := p.(branches := branches);
    assert Admissible(q, e);
    assert FoldPayload(q, e) == Some(FoldPayload(p, e).value.(branches := branches));
  }

  lemma {:induction false} RebuildWithMoreBranches(before: map<Uuid, Branch>, after: map<Uuid, Branch>, log: seq<Event>)
    requires Rebuild(before, log).Some? && DisciplinedLog(before, log)
    requires forall b :: b in before ==> b in after && after[b] == before[b]
    ensures Rebuild(after, log) == Some(Rebuild(before, log).value.(branches := after))
    ensures DisciplinedLog(after, log)
    decreases |log|
  {
    if log != [] {
      var init := log[..|log| - 1];
      RebuildWithMoreBranches(before, after, init);
      RevisionCountsEvents(before, init, 0);
      FoldWithMoreBranches(Rebuild(before, init).value, log[|log| - 1], after);
    }
  }

  lemma AdministerKeepsSound(db: Db, directory: Directory, branches: map<Uuid, Branch>)
    requires Sound(db) && Administrable(db, directory, branches)
    ensures Sound(db.(directory := directory, live := db.live.(branches := branches)))
  {
    RebuildWithMoreBranches(db.live.branches, branches, db.events);
  }

  lemma NominationFits(db: Db, n: Nomination)
    requires Nominable(db, n)
    ensures Fit(db.live.memories, n.event)
  {
    assert AfterImages(n.event.payload) == [n.event.payload.memory];
  }

  lemma NominateKeepsSound(db: Db, n: Nomination)
    requires Sound(db)
    ensures Sound(NominateNext(db, n))
  {
    if Nominable(db, n) && Append(db, n.event).Ok? {
      NominationFits(db, n);
      AppendKeepsSound(db, n.event);
      SoundProjection(Append(db, n.event).value, NominateNext(db, n));
    }
  }

  lemma CorroborateKeepsSound(db: Db, c: Corroboration)
    requires Sound(db)
    ensures Sound(CorroborateNext(db, c))
  {
    if Corroborable(db, c) && Append(db, c.event).Ok? {
      AppendSettled(db, c.event, c.event.payload.memory.id, Promote, c.event.createdAt);
      SoundProjection(Append(db, c.event).value, CorroborateNext(db, c));
    }
  }

  lemma StepKeepsSound(db: Db, step: Step)
    requires Sound(db)
    ensures Sound(Next(db, step))
  {
    match step {
      case Execute(principal, command, ids, now) => AttemptKeepsSound(db, principal, command, ids, now);
      case Reassess(principal, request, op, ids, facts, now) =>
        LifecycleKeepsSound(db, principal, request, op, ids, facts, now);
      case Nominate(n) => NominateKeepsSound(db, n);
      case Corroborate(c) => CorroborateKeepsSound(db, c);
      case Administer(directory, branches) =>
        if Administrable(db, directory, branches) { AdministerKeepsSound(db, directory, branches); }
      case _ => SoundProjection(db, Next(db, step));
    }
  }

  /** In every reachable database the live tables are the fold of the log, fingerprints are honest and
      no two live memories of one branch and subject state the same claim. */
  lemma {:induction false} RunsAreSound(directory: Directory, branches: map<Uuid, Branch>, steps: seq<Step>)
    ensures Sound(Run(Start(directory, branches), steps))
    decreases |steps|
  {
    if steps != [] {
      RunsAreSound(directory, branches, steps[..|steps| - 1]);
      StepKeepsSound(Run(Start(directory, branches), steps[..|steps| - 1]), steps[|steps| - 1]);
    }
  }

  // ---------------------------------------------------------------- what soundness gives every run

  /** In every run a memory is disputed exactly when one open conflict names it. */
  lemma RunsKeepDisputes(directory: Directory, branches: map<Uuid, Branch>, steps: seq<Step>)
    ensures DisputesSound(Run(Start(directory, branches), steps).live)
  {
    RunsAreSound(directory, branches, steps);
    LogIsSound(Run(Start(directory, branches), steps));
  }

  /** In every run a memory's revision counts the events that wrote it, and no two events replaced the same
      revision of a memory. */
  lemma RunsNeverLoseUpdates(directory: Directory, branches: map<Uuid, Branch>, steps: seq<Step>, i: nat, j: nat,
      id: Uuid)
    requires var log := Run(Start(directory, branches), steps).events;
             i < j < |log| && id in Touched(log[i].payload) && id in Touched(log[j].payload)
    ensures var db := Run(Start(directory, branches), steps);
            && id in db.live.memories && db.live.memories[id].revision == Touches(db.events, id)
            && PreviousRevision(db.events[i].payload, id) < PreviousRevision(db.events[j].payload, id)
  {
    var db := Run(Start(directory, branches), steps);
    RunsAreSound(directory, branches, steps);
    NoLostUpdate(db.live.branches, db.events, i, j, id);
    RevisionCountsEvents(db.live.branches, db.events, id);
    assert db.events[..|db.events|] == db.events;
    TouchesGrow(db.events, j, |db.events|, id);
  }

  /** In every run a memory is promoted or expired at most once. */
  lemma RunsSettleOnce(directory: Directory, branches: map<Uuid, Branch>, steps: seq<Step>, i: nat, j: nat, id: Uuid)
    requires var log := Run(Start(directory, branches), steps).events; i < j < |log| && LeavesCandidacy(log[i], id)
    ensures !LeavesCandidacy(Run(Start(directory, branches), steps).events[j], id)
  {
    var db := Run(Start(directory, branches), steps);
    RunsAreSound(directory, branches, steps);
    AtMostOneLifecycleEvent(db.live.branches, db.events, i, j, id);
  }
}
