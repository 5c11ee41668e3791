/** Promotion and expiry of candidate memories, evaluated under a row lock and recorded as events,
    selection decisions and outbox jobs.
 */
module CandidateLifecycle {
  import opened Domain
  import opened Folding
  import opened FoldInvariants
  import opened LiveProjection
  import opened Mutations
  import opened MutationSafety

  datatype LifecycleOp = Promote | Expire

  datatype Request = Request(memory: Uuid, expected: nat, decision: Uuid)

  /** What the policy reads of the source decision: whether its profile is the current one, and its guards. */
  datatype Facts = Facts(profileMatches: bool, guarded: bool)

  datatype LifecycleIds = LifecycleIds(decision: Uuid, event: Uuid, embedJob: Uuid, exportJob: Uuid)

  datatype Reason =
    | UnknownMemory | OldRevision | NotCandidate | DecisionMissing | ProfileMismatch | ProtectedCandidate
    | InsufficientEvidence | NotDue | TrustedConfirmation | IndependentObservations | DeadlineReached

  datatype Refusal = NotPermitted | UnknownBranch | ValidationFailed | StoreUnavailable

  datatype LifecycleResponse = Moved(event: Uuid, revision: nat,
      reason: Reason) | Unmoved(reason: Reason) | Refused(refusal: Refusal)

  // ---------------------------------------------------------------- policy

  /** The rows of evidence the policy reads for a memory. */
  function EvidenceFor(table: map<Uuid, Evidence>, m: Memory): set<Evidence> {
    set k | k in table && table[k].memory == m.id && SameLineage(table[k].owner, m.owner) :: table[k]
  }

  function TrustedObservations(evidence: set<Evidence>): set<string> {
    set e | e in evidence && e.kind == AssistantObservation && e.trusted :: e.key
  }

  /** The verdict on a promotion request and whether it promotes. */
  function EvaluatePromotion(facts: Facts, evidence: set<Evidence>): (bool, Reason) {
    if !facts.profileMatches then (false, ProfileMismatch)
    else if exists e :: e in evidence && e.kind == UserConfirmation && e.trusted then (true, TrustedConfirmation)
    else if facts.guarded then (false, ProtectedCandidate)
    else if |TrustedObservations(evidence)| >= 2 then (true, IndependentObservations)
    else (false, InsufficientEvidence)
  }

  function EvaluateExpiry(facts: Facts, deadline: Time, now: Time): (bool, Reason) {
    if !facts.profileMatches then (false, ProfileMismatch)
    else if deadline > now then (false, NotDue)
    else (true, DeadlineReached)
  }

  /** The policy's verdict on a candidate with a deadline. */
  function Evaluate(db: Db, op: LifecycleOp, facts: Facts, m: Memory, now: Time): (bool, Reason)
    requires m.expiresAt.Some?
  {
    if op == Promote then EvaluatePromotion(facts, EvidenceFor(db.live.evidence, m))
      else EvaluateExpiry(facts, m.expiresAt.value, now)
  }

  // ---------------------------------------------------------------- one attempt

  function Scope(op: LifecycleOp): string {
    if op == Promote then "memory.lifecycle.promote" else "memory.lifecycle.expire"
  }

  predicate Permitted(db: Db, principal: Principal, op: LifecycleOp) {
    && Scope(op) in principal.scopes && principal.ingress.None?
    && BindingMatches(db.directory, principal)
    && db.directory.bindings[principal.binding].kind == InternalService
  }

  predicate SourceDecision(decisions: seq<Decision>, tenant: Uuid, id: Uuid, memory: Uuid) {
    exists d :: d in decisions && d.tenant == tenant && d.id == id && d.memory == Some(memory)
      && d.outcome == "candidate"
  }

  /** The processor can read a stored candidate only as a plaintext state with a deadline. */
  predicate Readable(m: Memory) {
    !IsSealed(m) && m.expiresAt.Some?
  }

  function Settled(m: Memory, op: LifecycleOp, now: Time): Memory {
    m.(revision := m.revision + 1, status := if op == Promote then Active
      else Retired, updatedAt := now, expiresAt := None)
  }

  function KeyOf(op: LifecycleOp, request: Request): string {
    (if op == Promote then "candidate-promote-" else "candidate-expire-") + Digits(request.decision) + "-"
      + Digits(request.expected)
  }

  function Digits(n: nat): string {
    if n < 10 then ["0123456789"[n]] else Digits(n / 10) + ["0123456789"[n % 10]]
  }

  function LifecycleEvent(db: Db, principal: Principal, request: Request, op: LifecycleOp, m: Memory, ids: LifecycleIds,
      now: Time): Event {
    Event(|db.events| + 1, ids.event, m.owner, principal.actor, principal.client,
          if op == Promote then CandidatePromoted else CandidateExpired,
          Some(m.id), Some(m.revision), None, KeyOf(op, request),
            Lifecycle(m.revision, Settled(m, op, now), ids.decision, []), now)
  }

  function LifecycleJobs(tenant: Uuid, e: Event, m: Memory, ids: LifecycleIds): seq<Job> {
    [Job(ids.embedJob, tenant, JobSpec(EmbedMemory, m.id, Some(m.revision), e.id)),
     Job(ids.exportJob, tenant, JobSpec(ExportBatch, e.id, None, e.id))]
  }

  function SettlingDecision(principal: Principal, op: LifecycleOp, m: Memory, ids: LifecycleIds): Decision {
    Decision(ids.decision, principal.tenant, Some(m.id), Some(ids.event), if op == Promote then "promoted"
      else "expired")
  }

  predicate Transported(db: Db, principal: Principal, e: Event) {
    && ValidPayload(e.payload) && TransportVerdict(db.directory, principal, e.operation).None?
    && ImagesCarried(OverRelay(db.directory, principal), e.payload)
  }

  function Settle(db: Db, principal: Principal, request: Request, op: LifecycleOp, m: Memory, ids: LifecycleIds,
      reason: Reason, now: Time): (LifecycleResponse, Db) {
    var e := LifecycleEvent(db, principal, request, op, m, ids, now);
    if !Transported(db, principal, e) then (Refused(ValidationFailed), db)
    else
      match Append(db, e)
      case Err(error) => (Refused(if error == DependencyUnavailable then StoreUnavailable else ValidationFailed), db)
      case Ok(next) =>
        (Moved(e.id, m.revision + 1, reason),
         next.(decisions := db.decisions + [SettlingDecision(principal, op, m, ids)],
               jobs := db.jobs + LifecycleJobs(principal.tenant, e, Settled(m, op, now), ids)))
  }

  lemma SettleWhenAppended(db: Db, principal: Principal, request: Request, op: LifecycleOp, m: Memory,
      ids: LifecycleIds, reason: Reason, now: Time)
    requires var e := LifecycleEvent(db, principal, request, op, m, ids, now);
             Transported(db, principal, e) && Append(db, e).Ok?
    ensures var e := LifecycleEvent(db, principal, request, op, m, ids, now);
            Settle(db, principal, request, op, m, ids, reason, now)
            == (Moved(e.id, m.revision + 1, reason),
                db.(live := Append(db, e).value.live, events := Append(db, e).value.events,
                    decisions := db.decisions + [SettlingDecision(principal, op, m, ids)],
                    jobs := db.jobs + LifecycleJobs(principal.tenant, e, Settled(m, op, now), ids)))
  {
  }

  function LifecycleAttempt(db: Db, principal: Principal, request: Request, op: LifecycleOp, ids: LifecycleIds,
      facts: Facts, now: Time): (LifecycleResponse, Db) {
    if !Permitted(db, principal, op) then (Refused(NotPermitted), db)
    else if request.memory !in db.live.memories || db.live.memories[request.memory].owner.tenant != principal.tenant
      then (Unmoved(UnknownMemory), db)
    else
      var m := db.live.memories[request.memory];
      if m.revision != request.expected then (Unmoved(OldRevision), db)
      else if m.status != Candidate then (Unmoved(NotCandidate), db)
      else if m.owner.branch !in db.directory.branches || db.directory.branches[m.owner.branch].owner != m.owner
        then (Refused(UnknownBranch), db)
      else if db.directory.branches[m.owner.branch].closed then (Refused(NotPermitted), db)
      else if !SourceDecision(db.decisions, principal.tenant, request.decision, m.id)
        then (Unmoved(DecisionMissing), db)
      else if !Readable(m) then (Refused(ValidationFailed), db)
      else
        var (moves, reason) := Evaluate(db, op, facts, m, now);
        if moves then Settle(db, principal, request, op, m, ids, reason, now)
        else (Unmoved(reason), db.(decisions := db.decisions
          + [Decision(ids.decision, principal.tenant, None, None, "omit")]))
  }

  // ---------------------------------------------------------------- safety

  lemma SettledFits(memories: map<Uuid, Memory>, e: Event, id: Uuid, op: LifecycleOp, now: Time)
    requires FingerprintsHonest(memories) && id in memories && memories[id].status == Candidate
    requires AfterImages(e.payload) == [Settled(memories[id], op, now)]
    requires e.operation == CandidatePromoted || e.operation == CandidateExpired
    ensures Fit(memories, e)
  {
    var before, after := memories[id], Settled(memories[id], op, now);
    assert before.id == id && ClaimOf(after) == ClaimOf(before);
  }

  lemma SettleAppends(db: Db, principal: Principal, request: Request, op: LifecycleOp, m: Memory, ids: LifecycleIds,
      reason: Reason, now: Time)
    ensures var (response, next) := Settle(db, principal, request, op, m, ids, reason, now);
            var e := LifecycleEvent(db, principal, request, op, m, ids, now);
            if response.Moved? then Append(db, e).Ok? && next.live == Append(db, e).value.live
              && next.events == Append(db, e).value.events
            else next == db
  {
  }

  lemma AppendSettled(db: Db, e: Event, id: Uuid, op: LifecycleOp, now: Time)
    requires Sound(db) && id in db.live.memories && db.live.memories[id].status == Candidate
    requires e.payload.Lifecycle? && e.payload.memory == Settled(db.live.memories[id], op, now)
    requires e.operation == CandidatePromoted || e.operation == CandidateExpired
    requires e.sequence == |db.events| + 1 && Append(db, e).Ok?
    ensures Sound(Append(db, e).value)
    ensures Append(db, e).value.live.memories == db.live.memories[id := Settled(db.live.memories[id], op, now)]
    ensures Append(db, e).value.events == db.events + [e]
  {
    assert db.live.memories[id].id == id;
    SettledFits(db.live.memories, e, id, op, now);
    AppendKeepsSound(db, e);
    SettledFold(db.live, e, db.live.memories[id], op, now);
  }

  lemma SettleKeepsSound(db: Db, principal: Principal, request: Request, op: LifecycleOp, id: Uuid, ids: LifecycleIds,
      reason: Reason, now: Time)
    requires Sound(db) && id in db.live.memories && db.live.memories[id].status == Candidate
    ensures var (response, next) := Settle(db, principal, request, op, db.live.memories[id], ids, reason, now);
            && Sound(next)
            && (response.Moved? ==>
                 next.live.memories == db.live.memories[id := Settled(db.live.memories[id], op, now)])
            && (response.Moved? ==> |next.events| == |db.events| + 1)
            && (!response.Moved? ==> next == db)
  {
    var m := db.live.memories[id];
    var (response, next) := Settle(db, principal, request, op, m, ids, reason, now);
    SettleAppends(db, principal, request, op, m, ids, reason, now);
    if response.Moved? {
      var e := LifecycleEvent(db, principal, request, op, m, ids, now);
      AppendSettled(db, e, id, op, now);
      SoundProjection(Append(db, e).value, next);
    }
  }

  lemma SettledFold(p: Projection, e: Event, m: Memory, op: LifecycleOp, now: Time)
    requires Fold(p, e).Some? && e.payload.Lifecycle? && e.payload.memory == Settled(m, op, now)
    ensures Fold(p, e).value.memories == p.memories[m.id := Settled(m, op, now)]
  {
  }

  /** The candidate an attempt moves: named at its current revision, in an open branch, with a deadline. */
  predicate Movable(db: Db, principal: Principal, request: Request, op: LifecycleOp, facts: Facts, now: Time) {
    && Permitted(db, principal, op)
    && request.memory in db.live.memories
    && var m := db.live.memories[request.memory];
       && m.owner.tenant == principal.tenant && m.revision == request.expected && m.status == Candidate
       && m.owner.branch in db.directory.branches && db.directory.branches[m.owner.branch].owner == m.owner
       && !db.directory.branches[m.owner.branch].closed
       && SourceDecision(db.decisions, principal.tenant, request.decision, m.id)
       && Readable(m)
       && Evaluate(db, op, facts, m, now).0
  }

  lemma AttemptSettles(db: Db, principal: Principal, request: Request, op: LifecycleOp, ids: LifecycleIds, facts: Facts,
      now: Time)
    ensures var (response, next) := LifecycleAttempt(db, principal, request, op, ids, facts, now);
            if Movable(db, principal, request, op, facts, now) then
              var m := db.live.memories[request.memory];
              (response, next) == Settle(db, principal, request, op, m, ids, Evaluate(db, op, facts, m, now).1, now)
            else
              !response.Moved? && next == db.(decisions := next.decisions)
  {
  }

  /** A lifecycle attempt keeps the database sound. It either settles exactly the named candidate with one
      event, or leaves memories, events and jobs alone. */
  lemma LifecycleKeepsSound(db: Db, principal: Principal, request: Request, op: LifecycleOp, ids: LifecycleIds,
      facts: Facts, now: Time)
    requires Sound(db)
    ensures var (response, next) := LifecycleAttempt(db, principal, request, op, ids, facts, now);
            && Sound(next)
            && (response.Moved? ==>
                  && Movable(db, principal, request, op, facts, now)
                  && next.live.memories == db.live.memories[request.memory := Settled(db.live.memories[request.memory],
                       op, now)]
                  && |next.events| == |db.events| + 1)
            && (!response.Moved? ==> next == db.(decisions := next.decisions))
  {
    AttemptSettles(db, principal, request, op, ids, facts, now);
    var next := LifecycleAttempt(db, principal, request, op, ids, facts, now).1;
    if Movable(db, principal, request, op, facts, now) {
      var m := db.live.memories[request.memory];
      SettleKeepsSound(db, principal, request, op, request.memory, ids, Evaluate(db, op, facts, m, now).1, now);
    } else {
      SoundProjection(db, next);
    }
  }

  // ---------------------------------------------------------------- deadlines exist only at birth

  ghost predicate DeadlinesAtBirth(memories: map<Uuid, Memory>) {
    forall id :: id in memories && memories[id].expiresAt.Some? ==> memories[id].revision == 1
  }

  lemma ReplacementHasNoDeadline(p: Projection, e: Event, m: Memory)
    requires Fold(p, e).Some? && m in AfterImages(e.payload) && m.expiresAt.Some?
    ensures e.payload.Created?
  {
    match e.payload {
      case Opened(_, _, affected) => AffectedImages(affected);
      case Resolved(_, _, affected) => AffectedImages(affected);
      case _ =>
    }
  }

  /** Over every accepted log, only a memory that was never written again can have a deadline. */
  lemma {:induction false} DeadlineOnlyAtBirth(branches: map<Uuid, Branch>, log: seq<Event>)
    requires Rebuild(branches, log).Some?
    ensures DeadlinesAtBirth(Rebuild(branches, log).value.memories)
    decreases |log|
  {
    if log != [] {
      var p, e := Rebuild(branches, log[..|log| - 1]).value, log[|log| - 1];
      DeadlineOnlyAtBirth(branches, log[..|log| - 1]);
      FoldMemories(p, e);
      var q := Fold(p, e).value;
      forall id | id in q.memories && q.memories[id].expiresAt.Some? ensures q.memories[id].revision == 1 {
        if id in Touched(e.payload) {
          var m :| m in AfterImages(e.payload) && m.id == id;
          ReplacementHasNoDeadline(p, e, m);
          assert Creates(p.memories, e, m);
        }
      }
    }
  }

  /** A candidate written by any later event can be neither promoted nor expired: every lifecycle attempt
      on it leaves it alone, whatever the evidence and however long its deadline is past. */
  lemma TouchedCandidateIsStuck(db: Db, principal: Principal, request: Request, op: LifecycleOp, ids: LifecycleIds,
      facts: Facts, now: Time)
    requires Sound(db)
    requires request.memory in db.live.memories && Touches(db.events, request.memory) > 1
    ensures var (response, next) := LifecycleAttempt(db, principal, request, op, ids, facts, now);
            !response.Moved? && next == db.(decisions := next.decisions)
  {
    RevisionCountsEvents(db.live.branches, db.events, request.memory);
    DeadlineOnlyAtBirth(db.live.branches, db.events);
    AttemptSettles(db, principal, request, op, ids, facts, now);
  }
}
