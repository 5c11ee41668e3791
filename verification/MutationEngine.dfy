/** The command processor as it runs: an engine over mutable tables, with the loops that build
    conflict payloads and outbox jobs and the retry loop around one attempt.
 */
module MutationEngine {
  import opened Domain
  import opened Folding
  import opened FoldInvariants
  import opened LiveProjection
  import opened Mutations
  import opened CandidateLifecycle

  const MAX_ATTEMPTS := 4

  /** The payload parts of an opening conflict, built member by member; stops at the first stale revision. */
  method BuildDisputed(ids: seq<Uuid>, memories: map<Uuid, Memory>, expected: map<Uuid, nat>, conflict: Uuid, now: Time)
    returns (stale: Option<Failure>, members: seq<Member>, affected: seq<Affected>)
    requires forall id :: id in ids ==> id in memories && id in expected
    ensures stale == FirstStale(ids, memories, expected)
    ensures stale.None? ==>
            members == JoiningMembers(ids, conflict, now) && affected == DisputedImages(ids, memories, now)
  {
    stale, members, affected := None, [], [];
    for i := 0 to |ids|
      invariant |members| == i && |affected| == i
      invariant FirstStale(ids, memories, expected) == FirstStale(ids[i..], memories, expected)
      invariant forall k :: 0 <= k < i ==> members[k] == Member(conflict, ids[k], "disputed", now)
      invariant forall k :: 0 <= k < i ==>
                affected[k] == Affected(memories[ids[k]].revision, Restated(memories[ids[k]], Disputed, now))
    {
      var current := memories[ids[i]];
      assert ids[i..][0] == ids[i] && ids[i..][1..] == ids[i + 1..];
      stale := CheckRevision(current, expected[ids[i]]);
      if stale.Some? { return; }
      affected := affected + [Affected(current.revision, Restated(current, Disputed, now))];
      members := members + [Member(conflict, ids[i], "disputed", now)];
    }
    stale := None;
    assert ids[|ids|..] == [];
  }

  /** The payload parts of a resolution, in stored-member order. */
  method BuildSettled(ids: seq<Uuid>, memories: map<Uuid, Memory>, verdicts: map<Uuid, Verdict>, conflict: Uuid,
                      stored: map<(Uuid, Uuid), Member>, now: Time)
    returns (stale: Option<Failure>, members: seq<Member>, affected: seq<Affected>)
    requires forall id :: id in ids ==> id in memories && id in verdicts && (conflict, id) in stored
    ensures stale == FirstStale(ids, memories, RevisionsOf(verdicts))
    ensures stale.None? ==>
              members == SettledMembers(ids, conflict, verdicts, stored)
                && affected == SettledImages(ids, memories, verdicts, now)
  {
    ghost var expected := RevisionsOf(verdicts);
    stale, members, affected := None, [], [];
    for i := 0 to |ids|
      invariant |members| == i && |affected| == i
      invariant FirstStale(ids, memories, expected) == FirstStale(ids[i..], memories, expected)
      invariant forall k :: 0 <= k < i ==>
                  members[k] == Member(conflict, ids[k], verdicts[ids[k]].disposition,
                    stored[(conflict, ids[k])].joinedAt)
      invariant forall k :: 0 <= k < i ==>
                  affected[k] == Affected(memories[ids[k]].revision,
                    Restated(memories[ids[k]], verdicts[ids[k]].status, now))
    {
      var current, verdict := memories[ids[i]], verdicts[ids[i]];
      assert ids[i..][0] == ids[i] && ids[i..][1..] == ids[i + 1..];
      stale := CheckRevision(current, verdict.revision);
      if stale.Some? { return; }
      affected := affected + [Affected(current.revision, Restated(current, verdict.status, now))];
      members := members + [Member(conflict, ids[i], verdict.disposition, stored[(conflict, ids[i])].joinedAt)];
    }
    stale := None;
    assert ids[|ids|..] == [];
  }

  method BuildOpening(body: Body, owner: Owner, aggregate: Uuid, now: Time, expected: map<Uuid, nat>,
      memories: map<Uuid, Memory>)
    returns (r: Outcome<Prepared>)
    requires body.OpenConflict? && memories.Keys == expected.Keys
    ensures r == OpenWith(body, owner, aggregate, now, expected, memories)
  {
    if exists id :: id in memories && memories[id].subject != body.subject { return Err(InvalidInput); }
    var stale, members, affected := BuildDisputed(Ascending(expected.Keys), memories, expected, aggregate, now);
    if stale.Some? { return Err(stale.value); }
    var conflict := Conflict(aggregate, owner, body.subject, body.conflictReason, now, body.metadata, None);
    r := Ok(Prepared(Opened(conflict, members, affected), None, None, None, None, Some(aggregate)));
  }

  method BuildResolution(live: Projection, body: Body, owner: Owner, now: Time, verdicts: map<Uuid, Verdict>,
      memories: map<Uuid, Memory>)
    returns (r: Outcome<Prepared>)
    requires body.ResolveConflict? && memories.Keys == verdicts.Keys
    ensures r == ResolveWith(live, body, owner, now, verdicts, memories)
  {
    if !body.userConfirmed && exists id :: id in memories && NeedsConfirmation(memories[id]) {
      return Err(InvalidInput);
    }
    if body.conflict !in live.conflicts || live.conflicts[body.conflict].owner != owner { return Err(NotFound); }
    var stored := StoredMemberIds(live.members, body.conflict);
    if !live.conflicts[body.conflict].Open() || stored != verdicts.Keys { return Err(ConflictStateChanged); }
    StoredMembers(live.members, body.conflict);
    var stale, members, affected := BuildSettled(Ascending(stored), memories, verdicts, body.conflict, live.members,
        now);
    if stale.Some? { return Err(stale.value); }
    var conflict := live.conflicts[body.conflict].(resolution := Some(Resolution(body.resolutionKind, body.rationale,
        now)));
    r := Ok(Prepared(Resolved(conflict, members, affected), None, None, None, None, Some(body.conflict)));
  }

  /** The jobs of one commit, appended image by image. */
  method ScheduleJobs(body: Body, event: Event, memory: Option<Uuid>, revision: Option<nat>)
      returns (jobs: seq<JobSpec>)
    ensures jobs == ScheduledJobs(body, event, memory, revision)
  {
    var images := SortById(AfterImages(event.payload));
    jobs := [];
    for i := 0 to |images|
      invariant jobs == ImageJobs(body, event.id, images[..i])
    {
      var m := images[i];
      assert images[..i + 1][..i] == images[..i];
      jobs := jobs + [JobSpec(EmbedMemory, m.id, Some(m.revision), event.id)];
      if ChecksDuplicates(body) {
        jobs := jobs + [JobSpec(CheckDuplicates, m.id, Some(m.revision), event.id)];
      }
    }
    assert images[..|images|] == images;
    jobs := jobs + [JobSpec(ExportBatch, event.id, None, event.id)];
    if HardForget(body) && memory.Some? {
      jobs := jobs + [JobSpec(PurgePayload, memory.value, revision, event.id)];
    }
  }

  /** The first receipt under the caller's key. */
  method LookUpReceipt(receipts: seq<Receipt>, principal: Principal, key: string) returns (found: Option<Receipt>)
    ensures found == FindReceipt(receipts, principal, key)
  {
    for i := 0 to |receipts|
      invariant FindReceipt(receipts, principal, key) == FindReceipt(receipts[i..], principal, key)
    {
      assert receipts[i..][0] == receipts[i] && receipts[i..][1..] == receipts[i + 1..];
      if Keyed(receipts[i], principal, key) { return Some(receipts[i]); }
    }
    assert receipts[|receipts|..] == [];
    return None;
  }

  class Engine {
    var directory: Directory
    var live: Projection
    var events: seq<Event>
    var receipts: seq<Receipt>
    var jobs: seq<Job>
    var keys: map<Uuid, ContentKey>
    var decisions: seq<Decision>

    ghost function State(): Db
      reads this
    {
      Db(directory, live, events, receipts, jobs, keys, decisions)
    }

    constructor (db: Db)
      ensures State() == db
    {
      directory, live, events, receipts := db.directory, db.live, db.events, db.receipts;
      jobs, keys, decisions := db.jobs, db.keys, db.decisions;
    }

    /** Computes the event payload of a command; reads only. */
    method PreparePayload(command: Command, owner: Owner, aggregate: Uuid, now: Time) returns (r: Outcome<Prepared>)
      ensures r == Prepare(State(), command, owner, aggregate, now)
    {
      var db := Db(directory, live, events, receipts, jobs, keys, decisions);
      match command.body {
        case OpenConflict(_, _, _, _) => r := PrepareOpening(command.body, owner, aggregate, now);
        case ResolveConflict(_, _, _, _, _) => r := PrepareResolution(command.body, owner, now);
        case _ => r := Prepare(db, command, owner, aggregate, now);
      }
    }

    method PrepareOpening(body: Body, owner: Owner, aggregate: Uuid, now: Time) returns (r: Outcome<Prepared>)
      requires body.OpenConflict?
      ensures r == PrepareOpen(State(), body, owner, aggregate, now)
    {
      var expected := Expected(body.members);
      var loaded := LoadMemories(live.memories, owner, expected.Keys);
      if loaded.Err? { return Err(loaded.error); }
      r := BuildOpening(body, owner, aggregate, now, expected, loaded.value);
    }

    method PrepareResolution(body: Body, owner: Owner, now: Time) returns (r: Outcome<Prepared>)
      requires body.ResolveConflict?
      ensures r == PrepareResolve(State(), body, owner, now)
    {
      var verdicts := VerdictOf(body.verdicts);
      var loaded := LoadMemories(live.memories, owner, verdicts.Keys);
      if loaded.Err? { return Err(loaded.error); }
      r := BuildResolution(live, body, owner, now, verdicts, loaded.value);
    }

    /** Appends the event, stages its rows, requests key destruction, enqueues jobs and writes the receipt; on
        any refusal nothing is left behind. */
    method CommitPrepared(principal: Principal, command: Command, owner: Owner, prepared: Prepared, ids: Identities,
        now: Time)
      returns (refused: Option<Failure>)
      modifies this
      ensures match Commit(old(State()), principal, command, owner, prepared, ids, now)
              case Ok(next) => refused == None && State() == next
              case Err(error) => refused == Some(error) && State() == old(State())
    {
      var db := Db(directory, live, events, receipts, jobs, keys, decisions);
      var e := EventOf(db, principal, command, owner, prepared, ids.event, now);
      if !ValidEnvelope(e) || !ValidPayload(e.payload) { return Some(InvalidInput); }
      var verdict := TransportVerdict(directory, principal, e.operation);
      if verdict.Some? { return verdict; }
      if !ImagesCarried(OverRelay(directory, principal), e.payload) { return Some(InvalidInput); }
      var appended := Append(db, e);
      if appended.Err? { return Some(appended.error); }
      var specs := ScheduleJobs(command.body, e, prepared.resultMemory, prepared.resultRevision);
      if |specs| > |ids.jobs| { return Some(InvalidInput); }
      live, events := appended.value.live, appended.value.events;
      assert State() == appended.value;
      Record(principal, command, owner, prepared, ids, specs, now);
      return None;
    }

    method Record(principal: Principal, command: Command, owner: Owner, prepared: Prepared, ids: Identities,
        specs: seq<JobSpec>, now: Time)
      requires |specs| <= |ids.jobs|
      modifies this
      ensures State() == Recorded(old(State()), principal, command, owner, prepared, ids, specs, now)
    {
      if HardForget(command.body) && prepared.resultMemory.Some? {
        keys := RequestDestruction(keys, owner, prepared.resultMemory.value, now);
      }
      EnqueueAll(specs, ids.jobs, principal.tenant);
      receipts := receipts + [ReceiptOf(principal, command, owner, prepared, ids)];
    }

    method EnqueueAll(specs: seq<JobSpec>, ids: seq<Uuid>, tenant: Uuid)
      requires |specs| <= |ids|
      modifies this`jobs
      ensures jobs == old(jobs) + Enqueued(specs, ids, tenant)
    {
      ghost var before := jobs;
      for i := 0 to |specs|
        invariant jobs == before + Enqueued(specs[..i], ids, tenant)
      {
        jobs := jobs + [Job(ids[i], tenant, specs[i])];
        assert Enqueued(specs[..i + 1], ids, tenant)
               == Enqueued(specs[..i], ids, tenant) + [Job(ids[i], tenant, specs[i])];
      }
      assert specs[..|specs|] == specs;
    }

    /** One transaction attempt. */
    method AttemptOnce(principal: Principal, command: Command, ids: Identities, now: Time) returns (response: Response)
      modifies this
      ensures (response, State()) == Attempt(old(State()), principal, command, ids, now)
    {
      var db := Db(directory, live, events, receipts, jobs, keys, decisions);
      var gate := Gate(db, principal, command);
      if gate.Err? { return Failed(gate.error); }
      var found := LookUpReceipt(receipts, principal, command.idempotencyKey);
      if found.Some? {
        if found.value.digest != DigestOf(principal, gate.value.lineage, command) {
          return Failed(IdempotencyKeyReused);
        }
        return Success(found.value.result.(replay := true));
      }
      if directory.branches[command.branch].closed { return Failed(Forbidden); }
      var prepared := PreparePayload(command, gate.value, ids.aggregate, now);
      if prepared.Err? { return Failed(prepared.error); }
      var refused := CommitPrepared(principal, command, gate.value, prepared.value, ids, now);
      if refused.Some? { return Failed(refused.value); }
      return Success(ResultOf(command, ids, prepared.value));
    }

    /** At most four attempts with the same identities; `aborts` says which of them the database rolls back.
        A rolled-back attempt leaves nothing behind, so the outcome is that of a single attempt, or no change. */
    method Execute(principal: Principal, command: Command, ids: Identities, now: Time, aborts: seq<bool>)
        returns (response: Response)
      requires |aborts| == MAX_ATTEMPTS
      modifies this
      ensures false in aborts ==> (response, State()) == Attempt(old(State()), principal, command, ids, now)
      ensures false !in aborts ==> response == Failed(SerializationExhausted) && State() == old(State())
    {
      for i := 0 to MAX_ATTEMPTS
        invariant State() == old(State())
        invariant false !in aborts[..i]
      {
        if aborts[i] {
          RollBack(principal, command, ids, now);
        } else {
          assert aborts[i] in aborts;
          response := AttemptOnce(principal, command, ids, now);
          return;
        }
      }
      assert aborts[..MAX_ATTEMPTS] == aborts;
      return Failed(SerializationExhausted);
    }

    /** One lifecycle attempt: every check in order, then the event, the decision and the two jobs. */
    method Reassess(principal: Principal, request: Request, op: LifecycleOp, ids: LifecycleIds, facts: Facts, now: Time)
      returns (response: LifecycleResponse)
      modifies this
      ensures (response, State()) == LifecycleAttempt(old(State()), principal, request, op, ids, facts, now)
    {
      var db := Db(directory, live, events, receipts, jobs, keys, decisions);
      if !Permitted(db, principal, op) { return Refused(NotPermitted); }
      if request.memory !in live.memories || live.memories[request.memory].owner.tenant != principal.tenant {
        return Unmoved(UnknownMemory);
      }
      var m := live.memories[request.memory];
      if m.revision != request.expected { return Unmoved(OldRevision); }
      if m.status != Candidate { return Unmoved(NotCandidate); }
      if m.owner.branch !in directory.branches || directory.branches[m.owner.branch].owner != m.owner {
        return Refused(UnknownBranch);
      }
      if directory.branches[m.owner.branch].closed { return Refused(NotPermitted); }
      if !SourceDecision(decisions, principal.tenant, request.decision, m.id) { return Unmoved(DecisionMissing); }
      if !Readable(m) { return Refused(ValidationFailed); }
      var (moves, reason) := Evaluate(db, op, facts, m, now);
      if !moves {
        decisions := decisions + [Decision(ids.decision, principal.tenant, None, None, "omit")];
        return Unmoved(reason);
      }
      response := SettleCandidate(principal, request, op, m, ids, reason, now);
    }

    method SettleCandidate(principal: Principal, request: Request, op: LifecycleOp, m: Memory, ids: LifecycleIds,
        reason: Reason, now: Time)
      returns (response: LifecycleResponse)
      modifies this
      ensures (response, State()) == Settle(old(State()), principal, request, op, m, ids, reason, now)
    {
      var db := Db(directory, live, events, receipts, jobs, keys, decisions);
      var e := LifecycleEvent(db, principal, request, op, m, ids, now);
      if !Transported(db, principal, e) { return Refused(ValidationFailed); }
      var appended := Append(db, e);
      if appended.Err? {
        return Refused(if appended.error == DependencyUnavailable then StoreUnavailable else ValidationFailed);
      }
      SettleWhenAppended(db, principal, request, op, m, ids, reason, now);
      live, events := appended.value.live, appended.value.events;
      decisions := decisions + [SettlingDecision(principal, op, m, ids)];
      jobs := jobs + LifecycleJobs(principal.tenant, e, Settled(m, op, now), ids);
      return Moved(e.id, m.revision + 1, reason);
    }

    /** An attempt the database aborts: the tables return to their state before it. */
    method RollBack(principal: Principal, command: Command, ids: Identities, now: Time)
      modifies this
      ensures State() == old(State())
    {
      var db := Db(directory, live, events, receipts, jobs, keys, decisions);
      var _ := AttemptOnce(principal, command, ids, now);
      directory, live, events, receipts := db.directory, db.live, db.events, db.receipts;
      jobs, keys, decisions := db.jobs, db.keys, db.decisions;
    }
  }
}
