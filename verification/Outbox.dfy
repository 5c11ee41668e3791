/** Outbox accounting over whole runs: what each commit enqueues, and what the queue holds in every
    reachable database.
 */
module Outbox {
  import opened Domain
  import opened Folding
  import opened FoldInvariants
  import opened LiveProjection
  import opened Mutations
  import opened MutationSafety
  import opened CandidateLifecycle
  import opened MutationRuns
  import opened ExactlyOnce

  // ---------------------------------------------------------------- sorting after-images

  lemma {:induction false} InsertKeeps(sorted: seq<Memory>, m: Memory)
    ensures multiset(InsertImage(sorted, m)) == multiset(sorted) + multiset{m}
    decreases |sorted|
  {
    if sorted != [] && sorted[|sorted| - 1].id > m.id {
      var init, last := sorted[..|sorted| - 1], sorted[|sorted| - 1];
      InsertKeeps(init, m);
      assert sorted == init + [last];
    }
  }

  predicate SortedById(images: seq<Memory>) {
    forall i, j :: 0 <= i < j < |images| ==> images[i].id <= images[j].id
  }

  lemma {:induction false} InsertSorted(sorted: seq<Memory>, m: Memory)
    requires SortedById(sorted)
    ensures SortedById(InsertImage(sorted, m))
    ensures forall x :: x in InsertImage(sorted, m) ==> x in sorted || x == m
    decreases |sorted|
  {
    if sorted != [] && sorted[|sorted| - 1].id > m.id {
      var init := sorted[..|sorted| - 1];
      InsertSorted(init, m);
      assert forall x :: x in init ==> x.id <= sorted[|sorted| - 1].id;
      assert forall x :: x in InsertImage(init, m) ==> x.id <= sorted[|sorted| - 1].id;
    }
  }

  /** Sorting keeps every after-image, and orders them. */
  lemma {:induction false} SortKeeps(images: seq<Memory>)
    ensures multiset(SortById(images)) == multiset(images)
    ensures SortedById(SortById(images))
    decreases |images|
  {
    if images != [] {
      var init, last := images[..|images| - 1], images[|images| - 1];
      SortKeeps(init);
      InsertKeeps(SortById(init), last);
      InsertSorted(SortById(init), last);
      assert images == init + [last];
    }
  }

  // ---------------------------------------------------------------- what an event owes the queue

  function EmbedSpec(m: Memory, event: Uuid): JobSpec {
    JobSpec(EmbedMemory, m.id, Some(m.revision), event)
  }

  function ExportSpec(event: Uuid): JobSpec {
    JobSpec(ExportBatch, event, None, event)
  }

  function EmbedSpecs(images: seq<Memory>, event: Uuid): seq<JobSpec>
    decreases |images|
  {
    if images == [] then [] else EmbedSpecs(images[..|images| - 1], event) + [EmbedSpec(images[|images| - 1], event)]
  }

  /** After-images that get an embedding: all but the creation of a sealed memory. */
  function Embedded(payload: Payload): seq<Memory> {
    if payload.Created? && IsSealed(payload.memory) then [] else SortById(AfterImages(payload))
  }

  /** The embeddings and the export of one event. */
  function Owed(e: Event): multiset<JobSpec> {
    multiset(EmbedSpecs(Embedded(e.payload), e.id)) + multiset{ExportSpec(e.id)}
  }

  function OwedBy(log: seq<Event>): multiset<JobSpec>
    decreases |log|
  {
    if log == [] then multiset{} else OwedBy(log[..|log| - 1]) + Owed(log[|log| - 1])
  }

  function Specs(jobs: seq<Job>): seq<JobSpec> {
    seq(|jobs|, i requires 0 <= i < |jobs| => jobs[i].spec)
  }

  predicate Counted(kind: JobKind) {
    kind == EmbedMemory || kind == ExportBatch
  }

  /** The queue was given exactly the embeddings and exports the log owes. */
  ghost predicate QueueMatchesLog(db: Db) {
    forall s: JobSpec :: Counted(s.kind) ==> multiset(Specs(db.jobs))[s] == OwedBy(db.events)[s]
  }

  /** `added` carries exactly the embeddings and the export of `e`. */
  ghost predicate Pays(added: seq<JobSpec>, e: Event) {
    forall s: JobSpec :: Counted(s.kind) ==> multiset(added)[s] == Owed(e)[s]
  }

  lemma {:induction false} ImageJobsPay(body: Body, event: Uuid, images: seq<Memory>, s: JobSpec)
    requires Counted(s.kind)
    ensures multiset(ImageJobs(body, event, images))[s] == multiset(EmbedSpecs(images, event))[s]
    decreases |images|
  {
    if images != [] {
      ImageJobsPay(body, event, images[..|images| - 1], s);
    }
  }

  lemma {:induction false} ImageJobsCount(body: Body, event: Uuid, images: seq<Memory>)
    ensures |ImageJobs(body, event, images)| == if ChecksDuplicates(body) then 2 * |images| else |images|
    decreases |images|
  {
    if images != [] {
      ImageJobsCount(body, event, images[..|images| - 1]);
    }
  }

  function PurgeJobs(body: Body, event: Uuid, memory: Option<Uuid>, revision: Option<nat>): seq<JobSpec> {
    if HardForget(body) && memory.Some? then [JobSpec(PurgePayload, memory.value, revision, event)] else []
  }

  lemma JobsInOrder(body: Body, e: Event, memory: Option<Uuid>, revision: Option<nat>)
    ensures ScheduledJobs(body, e, memory, revision)
            == ImageJobs(body, e.id, SortById(AfterImages(e.payload))) + [ExportSpec(e.id)]
              + PurgeJobs(body, e.id, memory, revision)
  {
  }

  lemma CountInThree(a: seq<JobSpec>, b: JobSpec, c: seq<JobSpec>, s: JobSpec)
    requires |c| <= 1 && (|c| == 1 ==> c[0] != s)
    ensures multiset(a + [b] + c)[s] == multiset(a)[s] + multiset{b}[s]
  {
    assert multiset(a + [b] + c) == multiset(a) + multiset{b} + multiset(c);
  }

  /** A command commit enqueues one embedding per after-image and one export. */
  lemma ScheduledJobsPay(body: Body, e: Event, memory: Option<Uuid>, revision: Option<nat>)
    requires !(e.payload.Created? && IsSealed(e.payload.memory))
    ensures Pays(ScheduledJobs(body, e, memory, revision), e)
  {
    var images := SortById(AfterImages(e.payload));
    JobsInOrder(body, e, memory, revision);
    forall s: JobSpec | Counted(s.kind) ensures multiset(ScheduledJobs(body, e, memory, revision))[s] == Owed(e)[s] {
      ImageJobsPay(body, e.id, images, s);
      CountInThree(ImageJobs(body, e.id, images), ExportSpec(e.id), PurgeJobs(body, e.id, memory, revision), s);
    }
  }

  /** The preallocated identities always suffice: 32 conflict members and an export are 33 jobs. */
  lemma JobsFit(db: Db, principal: Principal, command: Command, owner: Owner, aggregate: Uuid, event: Uuid, now: Time)
    requires WellFormed(command.body)
    requires Prepare(db, command, owner, aggregate, now).Ok?
    ensures var prepared := Prepare(db, command, owner, aggregate, now).value;
            |ScheduledJobs(command.body, EventOf(db, principal, command, owner, prepared, event, now),
              prepared.resultMemory, prepared.resultRevision)|
            <= PREALLOCATED_JOBS
  {
    var prepared := Prepare(db, command, owner, aggregate, now).value;
    ImagesBounded(db, command, owner, aggregate, now);
    JobsWithin(command.body, EventOf(db, principal, command, owner, prepared, event, now), prepared.resultMemory,
               prepared.resultRevision);
  }

  function MaximumImages(body: Body): nat {
    if body.OpenConflict? || body.ResolveConflict? then MAX_CONFLICT_MEMBERS else 1
  }

  lemma JobsWithin(body: Body, e: Event, memory: Option<Uuid>, revision: Option<nat>)
    requires |AfterImages(e.payload)| <= MaximumImages(body)
    ensures |ScheduledJobs(body, e, memory, revision)| <= PREALLOCATED_JOBS
  {
    var images := AfterImages(e.payload);
    SortKeeps(images);
    SameLength(SortById(images), images);
    ImageJobsCount(body, e.id, SortById(images));
  }

  lemma SameLength(a: seq<Memory>, b: seq<Memory>)
    requires multiset(a) == multiset(b)
    ensures |a| == |b|
  {
    assert |multiset(a)| == |a| && |multiset(b)| == |b|;
  }

  lemma OpenBounded(db: Db, body: Body, owner: Owner, aggregate: Uuid, now: Time)
    requires body.OpenConflict? && PrepareOpen(db, body, owner, aggregate, now).Ok?
    ensures |AfterImages(PrepareOpen(db, body, owner, aggregate, now).value.payload)| <= |body.members|
  {
    ExpectedKeys(body.members);
    var expected := Expected(body.members);
    assert |Ascending(expected.Keys)| == |expected.Keys| && |expected.Keys| == |expected|;
  }

  lemma ResolveBounded(db: Db, body: Body, owner: Owner, now: Time)
    requires body.ResolveConflict? && PrepareResolve(db, body, owner, now).Ok?
    ensures |AfterImages(PrepareResolve(db, body, owner, now).value.payload)| <= |body.verdicts|
  {
    VerdictKeys(body.verdicts);
    var verdicts := VerdictOf(body.verdicts);
    assert |Ascending(verdicts.Keys)| == |verdicts.Keys| && |verdicts.Keys| == |verdicts|;
  }

  lemma ImagesBounded(db: Db, command: Command, owner: Owner, aggregate: Uuid, now: Time)
    requires WellFormed(command.body) && Prepare(db, command, owner, aggregate, now).Ok?
    ensures var images := AfterImages(Prepare(db, command, owner, aggregate, now).value.payload);
            |images| <= MaximumImages(command.body)
  {
    match command.body {
      case OpenConflict(_, members, _, _) => OpenBounded(db, command.body, owner, aggregate, now);
      case ResolveConflict(_, verdicts, _, _, _) => ResolveBounded(db, command.body, owner, now);
      case _ =>
    }
  }

  // ---------------------------------------------------------------- accounting over runs

  lemma SpecsAppend(jobs: seq<Job>, added: seq<Job>)
    ensures Specs(jobs + added) == Specs(jobs) + Specs(added)
  {
  }

  lemma SpecsOfEnqueued(specs: seq<JobSpec>, ids: seq<Uuid>, tenant: Uuid)
    requires |specs| <= |ids|
    ensures Specs(Enqueued(specs, ids, tenant)) == specs
  {
  }

  /** The log grew by `e` and the queue by `added`, or neither. */
  ghost predicate QueueGrows(db: Db, next: Db) {
    || (next.events == db.events && next.jobs == db.jobs)
    || exists e, added :: next.events == db.events + [e] && next.jobs == db.jobs + added && Pays(Specs(added), e)
  }

  lemma QueueKeepsPace(db: Db, next: Db)
    requires QueueMatchesLog(db) && QueueGrows(db, next)
    ensures QueueMatchesLog(next)
  {
    if !(next.events == db.events && next.jobs == db.jobs) {
      var e, added :| next.events == db.events + [e] && next.jobs == db.jobs + added && Pays(Specs(added), e);
      SpecsAppend(db.jobs, added);
      assert next.events[..|next.events| - 1] == db.events;
      forall s: JobSpec | Counted(s.kind) ensures multiset(Specs(next.jobs))[s] == OwedBy(next.events)[s] {
        assert multiset(Specs(next.jobs)) == multiset(Specs(db.jobs)) + multiset(Specs(added));
      }
    }
  }

  lemma QueueGrew(db: Db, next: Db, e: Event, added: seq<Job>)
    requires next.events == db.events + [e] && next.jobs == db.jobs + added && Pays(Specs(added), e)
    ensures QueueGrows(db, next)
  {
  }

  lemma CommitPays(db: Db, principal: Principal, command: Command, owner: Owner, prepared: Prepared, ids: Identities,
      now: Time)
    requires Commit(db, principal, command, owner, prepared, ids, now).Ok?
    requires prepared.payload.Created? ==> !IsSealed(prepared.payload.memory)
    ensures QueueGrows(db, Commit(db, principal, command, owner, prepared, ids, now).value)
  {
    var e := EventOf(db, principal, command, owner, prepared, ids.event, now);
    var specs := ScheduledJobs(command.body, e, prepared.resultMemory, prepared.resultRevision);
    CommitShape(db, principal, command, owner, prepared, ids, now);
    ScheduledJobsPay(command.body, e, prepared.resultMemory, prepared.resultRevision);
    SpecsOfEnqueued(specs, ids.jobs, principal.tenant);
    QueueGrew(db, Commit(db, principal, command, owner, prepared, ids, now).value, e,
      Enqueued(specs, ids.jobs, principal.tenant));
  }

  lemma OpeningCreatesNothing(db: Db, body: Body, owner: Owner, aggregate: Uuid, now: Time)
    requires body.OpenConflict?
    ensures PrepareOpen(db, body, owner, aggregate, now).Ok? ==>
              PrepareOpen(db, body, owner, aggregate, now).value.payload.Opened?
  {
  }

  lemma ResolvingCreatesNothing(db: Db, body: Body, owner: Owner, now: Time)
    requires body.ResolveConflict?
    ensures PrepareResolve(db, body, owner, now).Ok? ==> PrepareResolve(db, body, owner, now).value.payload.Resolved?
  {
  }

  lemma PreparedCreatesPlaintext(db: Db, command: Command, owner: Owner, aggregate: Uuid, now: Time)
    requires Prepare(db, command, owner, aggregate, now).Ok?
    ensures var payload := Prepare(db, command, owner, aggregate, now).value.payload;
            payload.Created? ==> !IsSealed(payload.memory)
  {
    match command.body {
      case OpenConflict(_, _, _, _) => OpeningCreatesNothing(db, command.body, owner, aggregate, now);
      case ResolveConflict(_, _, _, _, _) => ResolvingCreatesNothing(db, command.body, owner, now);
      case _ =>
    }
  }

  lemma AttemptPays(db: Db, principal: Principal, command: Command, ids: Identities, now: Time)
    ensures QueueGrows(db, Attempt(db, principal, command, ids, now).1)
  {
    var next := Attempt(db, principal, command, ids, now).1;
    AttemptCommits(db, principal, command, ids, now);
    if next != db {
      var owner := Gate(db, principal, command).value;
      var prepared := Prepare(db, command, owner, ids.aggregate, now).value;
      PreparedCreatesPlaintext(db, command, owner, ids.aggregate, now);
      CommitPays(db, principal, command, owner, prepared, ids, now);
    }
  }

  lemma OneImagePays(e: Event, m: Memory)
    requires AfterImages(e.payload) == [m] && !(e.payload.Created? && IsSealed(e.payload.memory))
    ensures Owed(e) == multiset{EmbedSpec(m, e.id), ExportSpec(e.id)}
  {
    assert SortById([m]) == [m] by { assert [m][..0] == []; }
    assert EmbedSpecs([m], e.id) == [EmbedSpec(m, e.id)] by { assert [m][..0] == []; }
  }

  lemma LifecycleJobsPay(tenant: Uuid, e: Event, after: Memory, ids: LifecycleIds)
    requires e.payload.Lifecycle? && e.payload.memory == after
    ensures Pays(Specs(LifecycleJobs(tenant, e, after, ids)), e)
  {
    OneImagePays(e, after);
    assert Specs(LifecycleJobs(tenant, e, after, ids)) == [EmbedSpec(after, e.id), ExportSpec(e.id)];
  }

  lemma SettlePays(db: Db, principal: Principal, request: Request, op: LifecycleOp, m: Memory, ids: LifecycleIds,
      reason: Reason, now: Time)
    ensures QueueGrows(db, Settle(db, principal, request, op, m, ids, reason, now).1)
  {
    var (response, next) := Settle(db, principal, request, op, m, ids, reason, now);
    if response.Moved? {
      var e := LifecycleEvent(db, principal, request, op, m, ids, now);
      var after := Settled(m, op, now);
      var added := LifecycleJobs(principal.tenant, e, after, ids);
      SettleAppends(db, principal, request, op, m, ids, reason, now);
      AppendedIsNew(db, e);
      LifecycleJobsPay(principal.tenant, e, after, ids);
      QueueGrew(db, next, e, added);
    }
  }

  lemma LifecyclePays(db: Db, principal: Principal, request: Request, op: LifecycleOp, ids: LifecycleIds, facts: Facts,
      now: Time)
    ensures QueueGrows(db, LifecycleAttempt(db, principal, request, op, ids, facts, now).1)
  {
    AttemptSettles(db, principal, request, op, ids, facts, now);
    if Movable(db, principal, request, op, facts, now) {
      var m := db.live.memories[request.memory];
      SettlePays(db, principal, request, op, m, ids, Evaluate(db, op, facts, m, now).1, now);
    }
  }

  lemma CorroboratePays(db: Db, c: Corroboration)
    ensures QueueGrows(db, CorroborateNext(db, c))
  {
    CorroborateShape(db, c);
    var next, e := CorroborateNext(db, c), c.event;
    if next != db {
      LifecycleJobsPay(e.payload.memory.owner.tenant, e, e.payload.memory, c.ids);
      QueueGrew(db, next, e, LifecycleJobs(e.payload.memory.owner.tenant, e, e.payload.memory, c.ids));
    }
  }

  lemma NominatePays(db: Db, n: Nomination)
    ensures QueueGrows(db, NominateNext(db, n))
  {
    if Nominable(db, n) && Append(db, n.event).Ok? {
      var e, m, specs := n.event, n.event.payload.memory, NominationJobs(n);
      AppendedIsNew(db, e);
      NominationJobsPay(n);
      SpecsOfEnqueued(specs, n.jobs, e.owner.tenant);
      assert Pays(Specs(Enqueued(specs, n.jobs, e.owner.tenant)), e);
    }
  }

  /** Jobs of other kinds do not count. */
  lemma UncountedTail(added: seq<JobSpec>, tail: seq<JobSpec>, s: JobSpec)
    requires Counted(s.kind) && forall t :: t in tail ==> !Counted(t.kind)
    ensures multiset(added + tail)[s] == multiset(added)[s]
  {
    assert multiset(added + tail) == multiset(added) + multiset(tail);
    assert s !in tail;
  }

  lemma UncountedMiddle(a: JobSpec, b: JobSpec, c: JobSpec, s: JobSpec)
    requires Counted(s.kind) && !Counted(b.kind)
    ensures multiset([a, b, c])[s] == multiset{a, c}[s]
  {
    assert multiset([a, b, c]) == multiset{a, c} + multiset{b};
  }

  lemma CreationJobsPay(e: Event, m: Memory, s: JobSpec)
    requires e.payload.Created? && e.payload.memory == m && Counted(s.kind)
    ensures multiset(CreationJobs(e, m))[s] == Owed(e)[s]
  {
    if !IsSealed(m) {
      OneImagePays(e, m);
      UncountedMiddle(EmbedSpec(m, e.id), JobSpec(CheckDuplicates, m.id, Some(m.revision), e.id), ExportSpec(e.id), s);
    }
  }

  lemma NominationJobsPay(n: Nomination)
    requires n.event.payload.Created?
    ensures Pays(NominationJobs(n), n.event)
  {
    var e, m := n.event, n.event.payload.memory;
    forall s: JobSpec | Counted(s.kind) ensures multiset(NominationJobs(n))[s] == Owed(e)[s] {
      CreationJobsPay(e, m, s);
      UncountedTail(CreationJobs(e, m), ExpiryJobs(e, m), s);
    }
  }

  lemma StepPays(db: Db, step: Step)
    ensures QueueGrows(db, Next(db, step))
  {
    match step {
      case Execute(principal, command, ids, now) => AttemptPays(db, principal, command, ids, now);
      case Reassess(principal, request, op, ids, facts, now) =>
        LifecyclePays(db, principal, request, op, ids, facts, now);
      case Nominate(n) => NominatePays(db, n);
      case Corroborate(c) => CorroboratePays(db, c);
      case _ =>
    }
  }

  /** In every run the queue was given exactly the embeddings and exports the log owes. */
  lemma {:induction false} RunsPayTheQueue(directory: Directory, branches: map<Uuid, Branch>, steps: seq<Step>)
    ensures QueueMatchesLog(Run(Start(directory, branches), steps))
    decreases |steps|
  {
    if steps != [] {
      var db := Run(Start(directory, branches), steps[..|steps| - 1]);
      RunsPayTheQueue(directory, branches, steps[..|steps| - 1]);
      StepPays(db, steps[|steps| - 1]);
      QueueKeepsPace(db, Next(db, steps[|steps| - 1]));
    }
  }

  // ---------------------------------------------------------------- one export per event, one embedding per image

  lemma {:induction false} EmbedSpecsAbout(images: seq<Memory>, event: Uuid)
    ensures forall s :: s in EmbedSpecs(images, event) ==> s.event == event && s.kind == EmbedMemory
    decreases |images|
  {
    if images != [] { EmbedSpecsAbout(images[..|images| - 1], event); }
  }

  lemma OwedAbout(e: Event, s: JobSpec)
    requires s.event != e.id
    ensures Owed(e)[s] == 0
  {
    EmbedSpecsAbout(Embedded(e.payload), e.id);
  }

  lemma {:induction false} OwedElsewhere(log: seq<Event>, s: JobSpec)
    requires forall e :: e in log ==> e.id != s.event
    ensures OwedBy(log)[s] == 0
    decreases |log|
  {
    if log != [] {
      OwedElsewhere(log[..|log| - 1], s);
      OwedAbout(log[|log| - 1], s);
    }
  }

  lemma {:induction false} OwedOnce(log: seq<Event>, i: nat, s: JobSpec)
    requires i < |log| && s.event == log[i].id
    requires forall a, b :: 0 <= a < b < |log| ==> log[a].id != log[b].id
    ensures OwedBy(log)[s] == Owed(log[i])[s]
    decreases |log|
  {
    var init := log[..|log| - 1];
    if i == |log| - 1 {
      OwedElsewhere(init, s);
    } else {
      OwedOnce(init, i, s);
      OwedAbout(log[|log| - 1], s);
    }
  }

  lemma {:induction false} EmbedOnce(images: seq<Memory>, event: Uuid, m: Memory)
    requires m in images
    requires forall a, b :: 0 <= a < b < |images| ==> images[a].id != images[b].id
    ensures multiset(EmbedSpecs(images, event))[EmbedSpec(m, event)] == 1
    decreases |images|
  {
    var init, last := images[..|images| - 1], images[|images| - 1];
    assert images == init + [last];
    if m == last {
      EmbedNone(init, event, m);
    } else {
      EmbedOnce(init, event, m);
      assert m in init;
    }
  }

  lemma {:induction false} EmbedNone(images: seq<Memory>, event: Uuid, m: Memory)
    requires forall x :: x in images ==> x.id != m.id
    ensures multiset(EmbedSpecs(images, event))[EmbedSpec(m, event)] == 0
    decreases |images|
  {
    if images != [] { EmbedNone(images[..|images| - 1], event, m); }
  }

  /** In every run each event has exactly one export job. */
  lemma OneExportPerEvent(directory: Directory, branches: map<Uuid, Branch>, steps: seq<Step>, i: nat)
    requires i < |Run(Start(directory, branches), steps).events|
    ensures var db := Run(Start(directory, branches), steps);
            multiset(Specs(db.jobs))[ExportSpec(db.events[i].id)] == 1
  {
    var db := Run(Start(directory, branches), steps);
    RunsPayTheQueue(directory, branches, steps);
    RunsAreLedgered(directory, branches, steps);
    var s := ExportSpec(db.events[i].id);
    OwedOnce(db.events, i, s);
    EmbedSpecsAbout(Embedded(db.events[i].payload), db.events[i].id);
  }

  lemma {:induction false} ApplyAffectedDistinct(memories: map<Uuid, Memory>, e: Event, affected: seq<Affected>)
    requires ApplyAffected(memories, e, affected).Some?
    ensures forall a, b :: 0 <= a < b < |affected| ==> affected[a].memory.id != affected[b].memory.id
    decreases |affected|
  {
    if affected != [] {
      ApplyAffectedDistinct(memories[affected[0].memory.id := affected[0].memory], e, affected[1..]);
      forall a, b | 0 <= a < b < |affected| ensures affected[a].memory.id != affected[b].memory.id {
        assert affected[b] == affected[1..][b - 1];
        if a > 0 { assert affected[a] == affected[1..][a - 1]; }
      }
    }
  }

  lemma ImagesDistinct(p: Projection, e: Event)
    requires Fold(p, e).Some?
    ensures var images := AfterImages(e.payload);
            forall a, b :: 0 <= a < b < |images| ==> images[a].id != images[b].id
  {
    match e.payload {
      case Opened(_, _, affected) => ApplyAffectedDistinct(p.memories, e, affected);
      case Resolved(_, _, affected) => ApplyAffectedDistinct(p.memories, e, affected);
      case _ =>
    }
  }

  /** Sorting after-images with distinct identifiers leaves them distinct. */
  lemma SortedDistinct(images: seq<Memory>)
    requires forall a, b :: 0 <= a < b < |images| ==> images[a].id != images[b].id
    ensures var sorted := SortById(images);
            forall a, b :: 0 <= a < b < |sorted| ==> sorted[a].id != sorted[b].id
  {
    var sorted := SortById(images);
    SortKeeps(images);
    forall a, b | 0 <= a < b < |sorted| ensures sorted[a].id != sorted[b].id {
      if sorted[a].id == sorted[b].id {
        TwiceInSequence(sorted, a, b);
        assert sorted[a] in multiset(images) && sorted[b] in multiset(images);
        var i :| 0 <= i < |images| && images[i] == sorted[a];
        var j :| 0 <= j < |images| && images[j] == sorted[b];
        assert i == j;
        OnceInSequence(images, i);
      }
    }
  }

  lemma TwiceInSequence(s: seq<Memory>, a: nat, b: nat)
    requires a < b < |s|
    ensures s[a] == s[b] ==> multiset(s)[s[a]] >= 2
  {
    assert s == s[..b] + s[b..];
    assert s[..b][a] in multiset(s[..b]) && s[b..][0] in multiset(s[b..]);
  }

  lemma OnceInSequence(s: seq<Memory>, i: nat)
    requires i < |s| && forall a, b :: 0 <= a < b < |s| ==> s[a] != s[b]
    ensures multiset(s)[s[i]] == 1
  {
    assert s == s[..i] + [s[i]] + s[i + 1..];
    assert s[i] !in s[..i] && s[i] !in s[i + 1..];
    assert s[i] !in multiset(s[..i]) && s[i] !in multiset(s[i + 1..]);
  }

  /** In every run each after-image of each event, but for the creation of a sealed memory, has exactly one
      embedding job. */
  lemma OneEmbeddingPerImage(directory: Directory, branches: map<Uuid, Branch>, steps: seq<Step>, i: nat, m: Memory)
    requires i < |Run(Start(directory, branches), steps).events|
    requires m in AfterImages(Run(Start(directory, branches), steps).events[i].payload)
    requires var payload := Run(Start(directory, branches), steps).events[i].payload;
             payload.Created? ==> !IsSealed(payload.memory)
    ensures var db := Run(Start(directory, branches), steps);
            multiset(Specs(db.jobs))[EmbedSpec(m, db.events[i].id)] == 1
  {
    RunsPayTheQueue(directory, branches, steps);
    RunsAreLedgered(directory, branches, steps);
    RunsAreSound(directory, branches, steps);
    EmbeddedOnce(Run(Start(directory, branches), steps), i, m);
  }

  lemma EmbeddedOnce(db: Db, i: nat, m: Memory)
    requires Sound(db) && Ledgered(db) && QueueMatchesLog(db)
    requires i < |db.events| && m in AfterImages(db.events[i].payload)
    requires db.events[i].payload.Created? ==> !IsSealed(db.events[i].payload.memory)
    ensures multiset(Specs(db.jobs))[EmbedSpec(m, db.events[i].id)] == 1
  {
    var e := db.events[i];
    OwedOnce(db.events, i, EmbedSpec(m, e.id));
    EventFolds(db, i);
    var images := AfterImages(e.payload);
    SortedDistinct(images);
    SortKeeps(images);
    assert m in multiset(SortById(images));
    EmbedOnce(SortById(images), e.id, m);
  }

  lemma EventFolds(db: Db, i: nat)
    requires Sound(db) && i < |db.events|
    ensures Rebuild(db.live.branches, db.events[..i]).Some?
    ensures Fold(Rebuild(db.live.branches, db.events[..i]).value, db.events[i]).Some?
    ensures var images := AfterImages(db.events[i].payload);
            forall a, b :: 0 <= a < b < |images| ==> images[a].id != images[b].id
  {
    EventWasFolded(db.live.branches, db.events, i);
    ImagesDistinct(Rebuild(db.live.branches, db.events[..i]).value, db.events[i]);
  }
}
