/** Forgetting over whole runs: a tombstone is never written again, a content key is given up once,
    and each memory is purged at most once.
 */
module Forgetting {
  import opened Domain
  import opened Folding
  import opened FoldInvariants
  import opened LiveProjection
  import opened Mutations
  import opened MutationSafety
  import opened CandidateLifecycle
  import opened MutationRuns
  import opened ExactlyOnce
  import opened Outbox

  // ---------------------------------------------------------------- tombstones

  lemma BranchesAreKept(db: Db, step: Step)
    requires !step.Administer?
    ensures Next(db, step).live.branches == db.live.branches
  {
    match step {
      case Execute(principal, command, ids, now) => AttemptKeepsBranches(db, principal, command, ids, now);
      case Reassess(principal, request, op, ids, facts, now) =>
        LifecycleKeepsBranches(db, principal, request, op, ids, facts, now);
      case Nominate(n) => NominateKeepsBranches(db, n);
      case Corroborate(c) => CorroborateShape(db, c);
      case _ =>
    }
  }

  lemma AttemptKeepsBranches(db: Db, principal: Principal, command: Command, ids: Identities, now: Time)
    ensures Attempt(db, principal, command, ids, now).1.live.branches == db.live.branches
  {
    AttemptCommits(db, principal, command, ids, now);
    if Attempt(db, principal, command, ids, now).1 != db {
      var owner := Gate(db, principal, command).value;
      CommitShape(db, principal, command, owner, Prepare(db, command, owner, ids.aggregate, now).value, ids, now);
    }
  }

  lemma LifecycleKeepsBranches(db: Db, principal: Principal, request: Request, op: LifecycleOp, ids: LifecycleIds,
      facts: Facts, now: Time)
    ensures LifecycleAttempt(db, principal, request, op, ids, facts, now).1.live.branches == db.live.branches
  {
    AttemptSettles(db, principal, request, op, ids, facts, now);
  }

  lemma NominateKeepsBranches(db: Db, n: Nomination)
    ensures NominateNext(db, n).live.branches == db.live.branches
  {
  }

  /** Two sound databases one event apart are one disciplined fold apart. */
  lemma LogStep(db: Db, next: Db, e: Event)
    requires Sound(db) && Sound(next)
    requires next.events == db.events + [e] && next.live.branches == db.live.branches
    ensures Fold(db.live, e) == Some(next.live) && Disciplined(db.live.memories, e)
  {
    assert next.events[..|next.events| - 1] == db.events;
  }

  /** Both databases are sound, with the same branches, and the second has at most one event more. */
  ghost predicate OneStepOn(db: Db, next: Db) {
    && Sound(db) && Sound(next) && next.live.branches == db.live.branches
    && (next.events == db.events || exists e :: next.events == db.events + [e])
  }

  lemma StepIsOneOn(db: Db, step: Step)
    requires Sound(db) && !step.Administer?
    ensures OneStepOn(db, Next(db, step))
  {
    StepKeepsSound(db, step);
    StepGrows(db, step);
    BranchesAreKept(db, step);
  }

  lemma TombstoneAcross(db: Db, next: Db, id: Uuid)
    requires OneStepOn(db, next)
    requires id in db.live.memories && db.live.memories[id].status == Tombstoned
    ensures id in next.live.memories && next.live.memories[id] == db.live.memories[id]
  {
    if next.events != db.events {
      var e :| next.events == db.events + [e];
      LogStep(db, next, e);
      StatusOnlyAdvances(db.live, e, id);
    }
  }

  /** No step of any kind writes a tombstone again. */
  lemma StepKeepsTombstone(db: Db, step: Step, id: Uuid)
    requires Sound(db) && id in db.live.memories && db.live.memories[id].status == Tombstoned
    ensures id in Next(db, step).live.memories && Next(db, step).live.memories[id] == db.live.memories[id]
  {
    if step.Administer? {
      QuietLeaves(db, step);
    } else {
      StepIsOneOn(db, step);
      TombstoneAcross(db, Next(db, step), id);
    }
  }

  /** From any reachable database on, a tombstoned memory keeps every field for ever. */
  lemma {:induction false} ForgottenForGood(directory: Directory, branches: map<Uuid, Branch>, earlier: seq<Step>,
      later: seq<Step>, id: Uuid)
    requires var db := Run(Start(directory, branches), earlier);
             id in db.live.memories && db.live.memories[id].status == Tombstoned
    ensures var db, end := Run(Start(directory, branches), earlier),
            Run(Run(Start(directory, branches), earlier), later);
            id in end.live.memories && end.live.memories[id] == db.live.memories[id]
    decreases |later|
  {
    if later != [] {
      var init, step := later[..|later| - 1], later[|later| - 1];
      var db := Run(Start(directory, branches), earlier);
      ForgottenForGood(directory, branches, earlier, init, id);
      SoundContinues(directory, branches, earlier, init);
      StepKeepsTombstone(Run(db, init), step, id);
    }
  }

  lemma {:induction false} SoundContinues(directory: Directory, branches: map<Uuid, Branch>, earlier: seq<Step>,
      later: seq<Step>)
    ensures Sound(Run(Run(Start(directory, branches), earlier), later))
    decreases |later|
  {
    RunsAreSound(directory, branches, earlier);
    if later != [] {
      SoundContinues(directory, branches, earlier, later[..|later| - 1]);
      StepKeepsSound(Run(Run(Start(directory, branches), earlier), later[..|later| - 1]), later[|later| - 1]);
    }
  }

  // ---------------------------------------------------------------- content keys

  /** A key row that survives keeps its memory and never becomes active again; a new row serves a memory
      that did not exist. */
  ghost predicate KeysKept(db: Db, next: Db) {
    && (forall k :: k in db.keys ==>
          && k in next.keys
          && next.keys[k].tenant == db.keys[k].tenant && next.keys[k].lineage == db.keys[k].lineage
          && next.keys[k].memory == db.keys[k].memory
          && (next.keys[k].state == KeyActive ==> db.keys[k].state == KeyActive))
    && (forall k :: k in next.keys && k !in db.keys ==> next.keys[k].memory !in db.live.memories)
  }

  lemma RequestKeepsKeys(db: Db, next: Db, owner: Owner, memory: Uuid, now: Time)
    requires next.keys == db.keys || next.keys == RequestDestruction(db.keys, owner, memory, now)
    ensures KeysKept(db, next)
  {
  }

  lemma AttemptKeepsKeys(db: Db, principal: Principal, command: Command, ids: Identities, now: Time)
    ensures KeysKept(db, Attempt(db, principal, command, ids, now).1)
  {
    var next := Attempt(db, principal, command, ids, now).1;
    AttemptCommits(db, principal, command, ids, now);
    if next != db {
      var owner, prepared := Gate(db, principal, command).value,
          Prepare(db, command, Gate(db, principal, command).value, ids.aggregate, now).value;
      CommitShape(db, principal, command, owner, prepared, ids, now);
      RequestKeepsKeys(db, next, owner, if prepared.resultMemory.Some? then prepared.resultMemory.value else 0, now);
    }
  }

  lemma LifecycleKeepsKeys(db: Db, principal: Principal, request: Request, op: LifecycleOp, ids: LifecycleIds,
      facts: Facts, now: Time)
    ensures LifecycleAttempt(db, principal, request, op, ids, facts, now).1.keys == db.keys
  {
    AttemptSettles(db, principal, request, op, ids, facts, now);
  }

  lemma CreatedWasAbsent(db: Db, e: Event)
    requires Append(db, e).Ok? && e.payload.Created?
    ensures e.payload.memory.id !in db.live.memories
  {
  }

  lemma NominateKeepsKeys(db: Db, n: Nomination)
    ensures KeysKept(db, NominateNext(db, n))
  {
    if Nominable(db, n) && Append(db, n.event).Ok? { CreatedWasAbsent(db, n.event); }
  }

  lemma StepKeepsKeys(db: Db, step: Step)
    ensures KeysKept(db, Next(db, step))
  {
    match step {
      case Execute(principal, command, ids, now) => AttemptKeepsKeys(db, principal, command, ids, now);
      case Reassess(principal, request, op, ids, facts, now) =>
        LifecycleKeepsKeys(db, principal, request, op, ids, facts, now);
      case Nominate(n) => NominateKeepsKeys(db, n);
      case Corroborate(c) => CorroborateShape(db, c);
      case _ =>
    }
  }

  /** A content key that has left the active state never returns to it. */
  lemma {:induction false} KeyGivenUpForGood(db: Db, steps: seq<Step>, k: Uuid)
    requires k in db.keys && db.keys[k].state != KeyActive
    ensures k in Run(db, steps).keys && Run(db, steps).keys[k].state != KeyActive
    decreases |steps|
  {
    if steps != [] {
      KeyGivenUpForGood(db, steps[..|steps| - 1], k);
      StepKeepsKeys(Run(db, steps[..|steps| - 1]), steps[|steps| - 1]);
    }
  }

  // ---------------------------------------------------------------- purge jobs

  /** A purged memory is a tombstone and none of its keys is active. */
  ghost predicate Purged(db: Db, id: Uuid) {
    && id in db.live.memories && db.live.memories[id].status == Tombstoned
    && forall k :: k in db.keys && KeyRowFor(db.keys[k], db.live.memories[id].owner, id) ==>
         db.keys[k].state != KeyActive
  }

  predicate IsPurge(s: JobSpec) {
    s.kind == PurgePayload
  }

  ghost predicate PurgesSound(db: Db) {
    && (forall j :: j in db.jobs && IsPurge(j.spec) ==> Purged(db, j.spec.aggregate))
    && (forall a, b :: 0 <= a < b < |db.jobs| && IsPurge(db.jobs[a].spec) && IsPurge(db.jobs[b].spec) ==>
          db.jobs[a].spec.aggregate != db.jobs[b].spec.aggregate)
  }

  lemma StepKeepsPurged(db: Db, step: Step, id: Uuid)
    requires Sound(db) && Purged(db, id)
    ensures Purged(Next(db, step), id)
  {
    StepKeepsTombstone(db, step, id);
    StepKeepsKeys(db, step);
  }

  /** Jobs added by one step: no purge, or one as the last job, for a memory that was no tombstone and is purged now. */
  ghost predicate PurgeGrows(db: Db, next: Db) {
    && db.jobs <= next.jobs
    && forall i :: |db.jobs| <= i < |next.jobs| && IsPurge(next.jobs[i].spec) ==>
         && i == |next.jobs| - 1
         && Purged(next, next.jobs[i].spec.aggregate)
         && !(next.jobs[i].spec.aggregate in db.live.memories
              && db.live.memories[next.jobs[i].spec.aggregate].status == Tombstoned)
  }

  lemma {:induction false} ImageJobsNoPurge(body: Body, event: Uuid, images: seq<Memory>)
    ensures forall s :: s in ImageJobs(body, event, images) ==> !IsPurge(s)
    decreases |images|
  {
    if images != [] { ImageJobsNoPurge(body, event, images[..|images| - 1]); }
  }

  lemma NoPurgeBefore(perImage: seq<JobSpec>, exported: JobSpec, purge: seq<JobSpec>)
    requires !IsPurge(exported) && forall s :: s in perImage ==> !IsPurge(s)
    ensures var all := perImage + [exported] + purge;
            forall i :: 0 <= i <= |perImage| ==> !IsPurge(all[i])
  {
  }

  lemma ScheduledPurges(body: Body, e: Event, memory: Option<Uuid>, revision: Option<nat>, i: nat)
    requires i < |ScheduledJobs(body, e, memory, revision)| && IsPurge(ScheduledJobs(body, e, memory, revision)[i])
    ensures i == |ScheduledJobs(body, e, memory, revision)| - 1
    ensures HardForget(body) && memory == Some(ScheduledJobs(body, e, memory, revision)[i].aggregate)
  {
    var images := SortById(AfterImages(e.payload));
    JobsInOrder(body, e, memory, revision);
    ImageJobsNoPurge(body, e.id, images);
    NoPurgeBefore(ImageJobs(body, e.id, images), ExportSpec(e.id), PurgeJobs(body, e.id, memory, revision));
  }

  lemma TombstoneFold(p: Projection, e: Event, q: Projection)
    requires Fold(p, e) == Some(q) && e.operation == TombstonedEvent && e.memoryId.Some?
    ensures var id := e.memoryId.value;
            && id in p.memories && p.memories[id].status != Tombstoned
            && id in q.memories && q.memories[id].status == Tombstoned && q.memories[id].owner == e.owner
  {
  }

  /** A committed hard forget turned a memory that was no tombstone into one. */
  lemma ForgetTombstones(db: Db, next: Db, e: Event)
    requires Sound(db) && Sound(next) && next.events == db.events + [e] && next.live.branches == db.live.branches
    requires e.operation == TombstonedEvent && e.memoryId.Some?
    ensures var id := e.memoryId.value;
            && id in db.live.memories && db.live.memories[id].status != Tombstoned
            && id in next.live.memories && next.live.memories[id].status == Tombstoned
            && next.live.memories[id].owner == e.owner
  {
    LogStep(db, next, e);
    TombstoneFold(db.live, e, next.live);
  }

  lemma DestructionRequested(keys: map<Uuid, ContentKey>, owner: Owner, memory: Uuid, now: Time, k: Uuid)
    requires k in keys && KeyRowFor(RequestDestruction(keys, owner, memory, now)[k], owner, memory)
    ensures RequestDestruction(keys, owner, memory, now)[k].state != KeyActive
  {
  }

  lemma PurgedByForget(db: Db, next: Db, e: Event, now: Time)
    requires Sound(db) && Sound(next) && next.events == db.events + [e] && next.live.branches == db.live.branches
    requires e.operation == TombstonedEvent && e.memoryId.Some?
    requires next.keys == RequestDestruction(db.keys, e.owner, e.memoryId.value, now)
    ensures Purged(next, e.memoryId.value)
    ensures e.memoryId.value in db.live.memories && db.live.memories[e.memoryId.value].status != Tombstoned
  {
    ForgetTombstones(db, next, e);
    forall k | k in next.keys && KeyRowFor(next.keys[k], e.owner, e.memoryId.value)
      ensures next.keys[k].state != KeyActive {
      DestructionRequested(db.keys, e.owner, e.memoryId.value, now, k);
    }
  }

  /** The purge job a commit adds, if any, is its last and belongs to the memory it just tombstoned. */
  lemma PurgeAdded(db: Db, next: Db, body: Body, e: Event, memory: Option<Uuid>, revision: Option<nat>, ids: seq<Uuid>,
      tenant: Uuid)
    requires var specs := ScheduledJobs(body, e, memory, revision);
             |specs| <= |ids| && next.jobs == db.jobs + Enqueued(specs, ids, tenant)
    requires HardForget(body) && memory.Some? ==>
               && Purged(next, memory.value)
               && !(memory.value in db.live.memories && db.live.memories[memory.value].status == Tombstoned)
    ensures PurgeGrows(db, next)
  {
    var specs := ScheduledJobs(body, e, memory, revision);
    forall i | |db.jobs| <= i < |next.jobs| && IsPurge(next.jobs[i].spec)
      ensures i == |next.jobs| - 1 && HardForget(body) && memory == Some(next.jobs[i].spec.aggregate)
    {
      assert next.jobs[i].spec == specs[i - |db.jobs|];
      ScheduledPurges(body, e, memory, revision, i - |db.jobs|);
    }
  }

  lemma ShapePurges(db: Db, next: Db, body: Body, e: Event, revision: Option<nat>, ids: seq<Uuid>, tenant: Uuid,
      now: Time)
    requires Sound(db) && Sound(next) && next.events == db.events + [e] && next.live.branches == db.live.branches
    requires e.operation == EventOperation(body)
    requires var specs := ScheduledJobs(body, e, e.memoryId, revision);
             |specs| <= |ids| && next.jobs == db.jobs + Enqueued(specs, ids, tenant)
    requires HardForget(body) && e.memoryId.Some? ==>
             next.keys == RequestDestruction(db.keys, e.owner, e.memoryId.value, now)
    ensures PurgeGrows(db, next)
  {
    if HardForget(body) && e.memoryId.Some? { PurgedByForget(db, next, e, now); }
    PurgeAdded(db, next, body, e, e.memoryId, revision, ids, tenant);
  }

  lemma CommitPurges(db: Db, principal: Principal, command: Command, owner: Owner, prepared: Prepared, ids: Identities,
      now: Time, next: Db)
    requires Commit(db, principal, command, owner, prepared, ids, now) == Ok(next)
    requires Sound(db) && Sound(next) && prepared.resultMemory == prepared.memoryId
    ensures PurgeGrows(db, next)
  {
    var e := EventOf(db, principal, command, owner, prepared, ids.event, now);
    CommitShape(db, principal, command, owner, prepared, ids, now);
    ShapePurges(db, next, command.body, e, prepared.resultRevision, ids.jobs, principal.tenant, now);
  }

  lemma ConflictNamesNone(db: Db, body: Body, owner: Owner, aggregate: Uuid, now: Time)
    requires body.OpenConflict? || body.ResolveConflict?
    ensures body.OpenConflict? && PrepareOpen(db, body, owner, aggregate, now).Ok? ==>
              PrepareOpen(db, body, owner, aggregate, now).value.resultMemory
                == PrepareOpen(db, body, owner, aggregate, now).value.memoryId
    ensures body.ResolveConflict? && PrepareResolve(db, body, owner, now).Ok? ==>
              PrepareResolve(db, body, owner, now).value.resultMemory
                == PrepareResolve(db, body, owner, now).value.memoryId
  {
  }

  lemma ForgetNamesMemory(db: Db, command: Command, owner: Owner, aggregate: Uuid, now: Time)
    requires Prepare(db, command, owner, aggregate, now).Ok?
    ensures var prepared := Prepare(db, command, owner, aggregate, now).value;
            prepared.resultMemory == prepared.memoryId
  {
    if command.body.OpenConflict? || command.body.ResolveConflict? {
      ConflictNamesNone(db, command.body, owner, aggregate, now);
    }
  }

  lemma AttemptPurges(db: Db, principal: Principal, command: Command, ids: Identities, now: Time)
    requires Sound(db)
    ensures PurgeGrows(db, Attempt(db, principal, command, ids, now).1)
  {
    var next := Attempt(db, principal, command, ids, now).1;
    AttemptKeepsSound(db, principal, command, ids, now);
    AttemptCommits(db, principal, command, ids, now);
    if next != db {
      var owner := Gate(db, principal, command).value;
      var prepared := Prepare(db, command, owner, ids.aggregate, now).value;
      ForgetNamesMemory(db, command, owner, ids.aggregate, now);
      CommitPurges(db, principal, command, owner, prepared, ids, now, next);
    }
  }

  lemma StepPurges(db: Db, step: Step)
    requires Sound(db)
    ensures PurgeGrows(db, Next(db, step))
  {
    match step {
      case Execute(principal, command, ids, now) => AttemptPurges(db, principal, command, ids, now);
      case Reassess(principal, request, op, ids, facts, now) =>
        LifecyclePurgesNothing(db, principal, request, op, ids, facts, now);
      case Nominate(n) => NominatePurgesNothing(db, n);
      case Corroborate(c) => CorroboratePurgesNothing(db, c);
      case _ =>
    }
  }

  lemma LifecyclePurgesNothing(db: Db, principal: Principal, request: Request, op: LifecycleOp, ids: LifecycleIds,
      facts: Facts, now: Time)
    ensures PurgeGrows(db, LifecycleAttempt(db, principal, request, op, ids, facts, now).1)
  {
    AttemptSettles(db, principal, request, op, ids, facts, now);
  }

  lemma CorroboratePurgesNothing(db: Db, c: Corroboration)
    ensures PurgeGrows(db, CorroborateNext(db, c))
  {
    CorroborateShape(db, c);
    var next := CorroborateNext(db, c);
    if next != db {
      LifecycleJobsPurgeNothing(db, next, c.event.payload.memory.owner.tenant, c.event, c.event.payload.memory, c.ids);
    }
  }

  lemma LifecycleJobsPurgeNothing(db: Db, next: Db, tenant: Uuid, e: Event, m: Memory, ids: LifecycleIds)
    requires next.jobs == db.jobs + LifecycleJobs(tenant, e, m, ids)
    ensures PurgeGrows(db, next)
  {
  }

  lemma NominatePurgesNothing(db: Db, n: Nomination)
    ensures PurgeGrows(db, NominateNext(db, n))
  {
    if Nominable(db, n) && Append(db, n.event).Ok? {
      var specs := NominationJobs(n);
      assert forall s :: s in specs ==> !IsPurge(s);
      var added := Enqueued(specs, n.jobs, n.event.owner.tenant);
      assert forall i :: 0 <= i < |added| ==> added[i].spec == specs[i] && specs[i] in specs;
    }
  }

  lemma StepKeepsPurges(db: Db, step: Step)
    requires Sound(db) && PurgesSound(db)
    ensures PurgesSound(Next(db, step))
  {
    var next := Next(db, step);
    StepPurges(db, step);
    forall j | j in next.jobs && IsPurge(j.spec) ensures Purged(next, j.spec.aggregate) {
      var i :| 0 <= i < |next.jobs| && next.jobs[i] == j;
      if i < |db.jobs| {
        assert db.jobs[i] == j;
        StepKeepsPurged(db, step, j.spec.aggregate);
      }
    }
    forall a, b | 0 <= a < b < |next.jobs| && IsPurge(next.jobs[a].spec) && IsPurge(next.jobs[b].spec)
      ensures next.jobs[a].spec.aggregate != next.jobs[b].spec.aggregate
    {
      assert a < |db.jobs| && next.jobs[a] == db.jobs[a];
      assert Purged(db, db.jobs[a].spec.aggregate);
      assert b < |db.jobs| ==> next.jobs[b] == db.jobs[b];
    }
  }

  /** In every run each memory has at most one purge job, it is a tombstone, and its keys are given up. */
  lemma {:induction false} OnePurgePerMemory(directory: Directory, branches: map<Uuid, Branch>, steps: seq<Step>)
    ensures PurgesSound(Run(Start(directory, branches), steps))
    decreases |steps|
  {
    if steps != [] {
      OnePurgePerMemory(directory, branches, steps[..|steps| - 1]);
      RunsAreSound(directory, branches, steps[..|steps| - 1]);
      StepKeepsPurges(Run(Start(directory, branches), steps[..|steps| - 1]), steps[|steps| - 1]);
    }
  }
}
