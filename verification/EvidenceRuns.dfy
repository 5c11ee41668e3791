/** Evidence over whole runs. Creations and promotions store rows of evidence, nothing the node runs ever removes one,
    and a memory with evidence cannot be forgotten: so whatever was created or promoted on evidence stays for good. */
module EvidenceRuns {
  import opened Domain
  import opened Folding
  import opened FoldInvariants
  import opened LiveProjection
  import opened Mutations
  import opened MutationSafety
  import opened CandidateLifecycle
  import opened MutationRuns
  import opened ExactlyOnce
  import opened Forgetting

  /** Some row of evidence names the memory. */
  predicate Evidenced(p: Projection, id: Uuid) {
    !Sanitized(p.evidence, id)
  }

  predicate RowsRemain(before: map<Uuid, Evidence>, after: map<Uuid, Evidence>) {
    forall k :: k in before ==> k in after && after[k] == before[k]
  }

  lemma FoldKeepsRows(p: Projection, q: Projection, e: Event)
    requires Fold(p, e) == Some(q)
    ensures RowsRemain(p.evidence, q.evidence)
  {
    FoldEvidence(p, q, e);
    RowsKept(p.evidence, e);
  }

  lemma RowsAcross(db: Db, next: Db)
    requires OneStepOn(db, next)
    ensures RowsRemain(db.live.evidence, next.live.evidence)
  {
    if next.events != db.events {
      var e :| next.events == db.events + [e];
      LogStep(db, next, e);
      FoldKeepsRows(db.live, next.live, e);
    }
  }

  /** No step removes or rewrites a row of evidence. */
  lemma StepKeepsRows(db: Db, step: Step)
    requires Sound(db)
    ensures RowsRemain(db.live.evidence, Next(db, step).live.evidence)
  {
    if !step.Administer? {
      StepIsOneOn(db, step);
      RowsAcross(db, Next(db, step));
    }
  }

  lemma {:induction false} RunsKeepRows(directory: Directory, branches: map<Uuid, Branch>, earlier: seq<Step>,
      later: seq<Step>)
    ensures var db := Run(Start(directory, branches), earlier);
            RowsRemain(db.live.evidence, Run(db, later).live.evidence) && Sound(Run(db, later))
    decreases |later|
  {
    SoundContinues(directory, branches, earlier, later);
    if later != [] {
      var init := later[..|later| - 1];
      RunsKeepRows(directory, branches, earlier, init);
      StepKeepsRows(Run(Run(Start(directory, branches), earlier), init), later[|later| - 1]);
    }
  }

  lemma RemainsEvidenced(p: Projection, q: Projection, id: Uuid)
    requires Evidenced(p, id) && RowsRemain(p.evidence, q.evidence) && EvidenceSound(q)
    ensures Evidenced(q, id) && id in q.memories && q.memories[id].status != Tombstoned
  {
    var k :| k in p.evidence && p.evidence[k].memory == id;
    assert k in q.evidence;
  }

  /** Once a memory has evidence, then in every continuation it has, and it is never a tombstone. */
  lemma EvidencedForGood(directory: Directory, branches: map<Uuid, Branch>, earlier: seq<Step>, later: seq<Step>,
      id: Uuid)
    requires Evidenced(Run(Start(directory, branches), earlier).live, id)
    ensures var end := Run(Run(Start(directory, branches), earlier), later).live;
            Evidenced(end, id) && id in end.memories && end.memories[id].status != Tombstoned
  {
    var db := Run(Start(directory, branches), earlier);
    RunsKeepRows(directory, branches, earlier, later);
    LogIsSound(Run(db, later));
    RemainsEvidenced(db.live, Run(db, later).live, id);
  }

  // ---------------------------------------------------------------- where evidence comes from

  lemma RowsArrive(p: Projection, q: Projection, e: Event, id: Uuid)
    requires Fold(p, e) == Some(q) && NewEvidence(e.payload) != [] && AfterImages(e.payload) == [e.payload.memory]
             && e.payload.memory.id == id
    ensures Evidenced(q, id)
  {
    FoldEvidence(p, q, e);
    PutEvidenceKeys(p.evidence, NewEvidence(e.payload));
    var x := NewEvidence(e.payload)[0];
    assert x in NewEvidence(e.payload) && x.id in q.evidence;
    assert x.id !in p.evidence;
  }

  /** A creation with evidence leaves the memory with evidence. */
  lemma CreationEvidences(db: Db, n: Nomination)
    requires Sound(db) && Nominable(db, n) && Append(db, n.event).Ok? && n.event.payload.evidence != []
    ensures Evidenced(NominateNext(db, n).live, n.event.payload.memory.id)
  {
    NominationFits(db, n);
    AppendKeepsSound(db, n.event);
    RowsArrive(db.live, Append(db, n.event).value.live, n.event, n.event.payload.memory.id);
  }

  /** So does a promotion on new evidence. */
  lemma CorroborationEvidences(db: Db, c: Corroboration)
    requires Sound(db) && CorroborateNext(db, c) != db
    ensures Evidenced(CorroborateNext(db, c).live, c.event.payload.memory.id)
  {
    var e, id := c.event, c.event.payload.memory.id;
    CorroborateShape(db, c);
    assert db.live.memories[id].id == id;
    SettledFits(db.live.memories, e, id, Promote, e.createdAt);
    AppendKeepsSound(db, e);
    RowsArrive(db.live, CorroborateNext(db, c).live, e, id);
  }

  lemma NothingOnNoEvidence(facts: Facts)
    ensures !EvaluatePromotion(facts, {}).0
  {
    assert TrustedObservations({}) == {};
  }

  /** The policy promotes nothing without a stored row of evidence. */
  lemma PolicyNeedsEvidence(table: map<Uuid, Evidence>, facts: Facts, m: Memory)
    requires EvaluatePromotion(facts, EvidenceFor(table, m)).0
    ensures !Sanitized(table, m.id)
  {
    var rows := EvidenceFor(table, m);
    NothingOnNoEvidence(facts);
    var x :| x in rows;
    var k :| k in table && table[k] == x && x.memory == m.id;
  }

  /** A candidate promoted by reassessment had evidence, and keeps it. */
  lemma PromotionIsEvidenced(db: Db, principal: Principal, request: Request, ids: LifecycleIds, facts: Facts, now: Time)
    requires Sound(db) && LifecycleAttempt(db, principal, request, Promote, ids, facts, now).0.Moved?
    ensures Evidenced(LifecycleAttempt(db, principal, request, Promote, ids, facts, now).1.live, request.memory)
  {
    var step := Reassess(principal, request, Promote, ids, facts, now);
    LifecycleKeepsSound(db, principal, request, Promote, ids, facts, now);
    var m := db.live.memories[request.memory];
    assert m.id == request.memory;
    PolicyNeedsEvidence(db.live.evidence, facts, m);
    StepKeepsRows(db, step);
    LogIsSound(Next(db, step));
    RemainsEvidenced(db.live, Next(db, step).live, request.memory);
  }

  /** Whatever is created or promoted on evidence is in no continuation forgotten. */
  lemma SubstantiatedForGood(directory: Directory, branches: map<Uuid, Branch>, earlier: seq<Step>, step: Step,
      later: seq<Step>, id: Uuid)
    requires Substantiates(Run(Start(directory, branches), earlier), step, id)
    ensures var end := Run(Next(Run(Start(directory, branches), earlier), step), later).live;
            Evidenced(end, id) && id in end.memories && end.memories[id].status != Tombstoned
  {
    var db := Run(Start(directory, branches), earlier);
    RunsAreSound(directory, branches, earlier);
    SubstantiatesEvidenced(db, step, id);
    assert (earlier + [step])[..|earlier|] == earlier;
    assert Run(Start(directory, branches), earlier + [step]) == Next(db, step);
    EvidencedForGood(directory, branches, earlier + [step], later, id);
  }

  /** The step creates the memory with evidence, or promotes it. */
  predicate Substantiates(db: Db, step: Step, id: Uuid) {
    match step
    case Reassess(principal, request, op, ids, facts, now) =>
      op == Promote && request.memory == id && LifecycleAttempt(db, principal, request, op, ids, facts, now).0.Moved?
    case Nominate(n) =>
      && Nominable(db, n) && Append(db, n.event).Ok?
      && n.event.payload.evidence != [] && n.event.payload.memory.id == id
    case Corroborate(c) => CorroborateNext(db, c) != db && c.event.payload.Lifecycle? && c.event.payload.memory.id == id
    case _ => false
  }

  lemma SubstantiatesEvidenced(db: Db, step: Step, id: Uuid)
    requires Sound(db) && Substantiates(db, step, id)
    ensures Evidenced(Next(db, step).live, id)
  {
    match step {
      case Reassess(principal, request, op, ids, facts, now) =>
        PromotionIsEvidenced(db, principal, request, ids, facts, now);
      case Nominate(n) => CreationEvidences(db, n);
      case Corroborate(c) => CorroborationEvidences(db, c);
    }
  }

  /** Asking to forget a memory with evidence changes nothing, however often and in whatever mode. */
  lemma ForgetChangesNothing(db: Db, principal: Principal, command: Command, ids: Identities, now: Time)
    requires Sound(db) && command.body.Forget? && Evidenced(db.live, command.body.memory)
    ensures Attempt(db, principal, command, ids, now).1 == db
  {
    AttemptCommits(db, principal, command, ids, now);
    if Gate(db, principal, command).Ok? {
      EvidencedIsUnforgettable(db, command.body.memory);
      PreparedForgetFails(db, principal, command, Gate(db, principal, command).value, ids, now);
    }
  }

  /** The log takes no event that forgets the memory. */
  ghost predicate Unforgettable(db: Db, id: Uuid) {
    forall e: Event :: e.payload.Tombstone? && e.payload.memory.id == id && e.sequence == |db.events| + 1 ==>
      Append(db, e).Err?
  }

  lemma EvidencedIsUnforgettable(db: Db, id: Uuid)
    requires Sound(db) && Evidenced(db.live, id)
    ensures Unforgettable(db, id)
  {
    forall e: Event | e.payload.Tombstone? && e.payload.memory.id == id && e.sequence == |db.events| + 1
      ensures Append(db, e).Err?
    {
      ForgetNotAppended(db, e, id);
    }
  }

  lemma PreparedForgetFails(db: Db, principal: Principal, command: Command, owner: Owner, ids: Identities, now: Time)
    requires FingerprintsHonest(db.live.memories) && command.body.Forget? && Unforgettable(db, command.body.memory)
    ensures var prepared := Prepare(db, command, owner, ids.aggregate, now);
            prepared.Ok? ==> Commit(db, principal, command, owner, prepared.value, ids, now).Err?
  {
    if Prepare(db, command, owner, ids.aggregate, now).Ok? {
      ForgetPayload(db, command.body, owner, now);
      ForgetNotCommitted(db, principal, command, owner, Prepare(db, command, owner, ids.aggregate, now).value, ids,
        now);
    }
  }

  lemma ForgetPayload(db: Db, body: Body, owner: Owner, now: Time)
    requires FingerprintsHonest(db.live.memories) && body.Forget?
             && PrepareForget(db, body.memory, body.expected, body.hard, owner, now).Ok?
    ensures var payload := PrepareForget(db, body.memory, body.expected, body.hard, owner, now).value.payload;
            payload.Tombstone? && payload.memory.id == body.memory
  {
  }

  lemma ForgetNotCommitted(db: Db, principal: Principal, command: Command, owner: Owner, prepared: Prepared,
      ids: Identities, now: Time)
    requires prepared.payload.Tombstone? && Unforgettable(db, prepared.payload.memory.id)
    ensures Commit(db, principal, command, owner, prepared, ids, now).Err?
  {
    assert Append(db, EventOf(db, principal, command, owner, prepared, ids.event, now)).Err?;
  }

  lemma ForgetNotAppended(db: Db, e: Event, id: Uuid)
    requires Sound(db) && e.payload.Tombstone? && e.payload.memory.id == id && Evidenced(db.live, id)
             && e.sequence == |db.events| + 1
    ensures Append(db, e).Err?
  {
    LogIsSound(db);
    LiveAcceptsExactly(db.live, e);
    AppendChecks(db, e);
  }
}
