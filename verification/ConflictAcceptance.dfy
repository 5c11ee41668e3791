/** When opening and resolving a conflict commit, and what they then change. */
module ConflictAcceptance {
  import opened Domain
  import opened Folding
  import opened FoldInvariants
  import opened LiveProjection
  import opened Mutations
  import opened MutationSafety
  import opened Outbox
  import opened Acceptance

  // ---------------------------------------------------------------- lists keyed by memory

  predicate DistinctExpectations(members: seq<Expectation>) {
    forall i, j :: 0 <= i < j < |members| ==> members[i].memory != members[j].memory
  }

  lemma {:induction false} ExpectedValues(members: seq<Expectation>)
    requires DistinctExpectations(members)
    ensures |Expected(members)| == |members|
    ensures forall e :: e in members ==> e.memory in Expected(members) && Expected(members)[e.memory] == e.revision
    decreases |members|
  {
    if members != [] {
      var init, last := members[..|members| - 1], members[|members| - 1];
      ExpectedValues(init);
      ExpectedKeys(init);
      assert members == init + [last];
      assert last.memory !in Expected(init);
    }
  }

  predicate DistinctVerdicts(verdicts: seq<Verdict>) {
    forall i, j :: 0 <= i < j < |verdicts| ==> verdicts[i].memory != verdicts[j].memory
  }

  /** Every verdict but the last is about another memory than the last. */
  lemma LastVerdict(verdicts: seq<Verdict>)
    requires DistinctVerdicts(verdicts) && verdicts != []
    ensures DistinctVerdicts(verdicts[..|verdicts| - 1])
    ensures forall v :: v in verdicts <==> v == verdicts[|verdicts| - 1] || v in verdicts[..|verdicts| - 1]
    ensures forall v :: v in verdicts[..|verdicts| - 1] ==> v.memory != verdicts[|verdicts| - 1].memory
  {
    assert verdicts == verdicts[..|verdicts| - 1] + [verdicts[|verdicts| - 1]];
  }

  /** Every verdict is the one the table holds for its memory. */
  predicate Tabled(verdicts: seq<Verdict>, table: map<Uuid, Verdict>) {
    |table| == |verdicts| && forall v :: v in verdicts ==> v.memory in table && table[v.memory] == v
  }

  lemma VerdictAdded(verdicts: seq<Verdict>, table: map<Uuid, Verdict>)
    requires DistinctVerdicts(verdicts) && verdicts != [] && Tabled(verdicts[..|verdicts| - 1], table)
    requires forall id :: id in table ==> exists v :: v in verdicts[..|verdicts| - 1] && v.memory == id
    ensures Tabled(verdicts, table[verdicts[|verdicts| - 1].memory := verdicts[|verdicts| - 1]])
  {
    LastVerdict(verdicts);
    assert verdicts[|verdicts| - 1].memory !in table;
  }

  lemma {:induction false} VerdictValues(verdicts: seq<Verdict>)
    requires DistinctVerdicts(verdicts)
    ensures Tabled(verdicts, VerdictOf(verdicts))
    decreases |verdicts|
  {
    if verdicts != [] {
      var init := verdicts[..|verdicts| - 1];
      LastVerdict(verdicts);
      VerdictValues(init);
      VerdictKeys(init);
      VerdictAdded(verdicts, VerdictOf(init));
    }
  }

  lemma {:induction false} NothingStale(ids: seq<Uuid>, memories: map<Uuid, Memory>, expected: map<Uuid, nat>)
    requires forall id :: id in ids ==> id in memories && id in expected
    ensures FirstStale(ids, memories, expected).None? <==>
            forall id :: id in ids ==> memories[id].revision == expected[id]
    decreases |ids|
  {
    if ids != [] {
      NothingStale(ids[1..], memories, expected);
      assert ids == [ids[0]] + ids[1..];
    }
  }

  // ---------------------------------------------------------------- applying affected memories

  /** Each affected memory is a legal step of its stored row. */
  predicate EachFollows(memories: map<Uuid, Memory>, e: Event, affected: seq<Affected>) {
    forall a :: a in affected ==>
      && a.memory.owner == e.owner && a.memory.id in memories
      && RevisionFollows(e, memories[a.memory.id], a.previous, a.memory)
      && StatusMove(e.operation, memories[a.memory.id].status, a.memory.status)
  }

  predicate DistinctAffected(affected: seq<Affected>) {
    forall i, j :: 0 <= i < j < |affected| ==> affected[i].memory.id != affected[j].memory.id
  }

  /** With distinct memories, applying them succeeds exactly when each is a legal step on its own. */
  lemma {:induction false} ApplyExactly(memories: map<Uuid, Memory>, e: Event, affected: seq<Affected>)
    requires DistinctAffected(affected)
    ensures ApplyAffected(memories, e, affected).Some? <==> EachFollows(memories, e, affected)
    decreases |affected|
  {
    if affected != [] {
      var a, rest := affected[0], affected[1..];
      assert affected == [a] + rest;
      forall b | b in rest ensures b.memory.id != a.memory.id {
        var k :| 0 <= k < |rest| && rest[k] == b;
        assert affected[k + 1] == b;
      }
      var next := memories[a.memory.id := a.memory];
      ApplyExactly(next, e, rest);
      assert EachFollows(next, e, rest) <==> EachFollows(memories, e, rest);
      assert a in affected;
    }
  }

  // ---------------------------------------------------------------- status changes of several memories

  /** The rows of a list of memories moved to new statuses. */
  function Moved(ids: seq<Uuid>, rows: map<Uuid, Memory>, target: map<Uuid, Status>, now: Time): seq<Affected>
    requires forall id :: id in ids ==> id in rows && id in target
  {
    seq(|ids|, i requires 0 <= i < |ids| => Affected(rows[ids[i]].revision,
      Restated(rows[ids[i]], target[ids[i]], now)))
  }

  predicate Sorted(ids: seq<Uuid>) {
    forall i, j :: 0 <= i < j < |ids| ==> ids[i] < ids[j]
  }

  /** One memory may move: plaintext, legal for the operation, old enough, visible and shown publicly only when
      active. */
  predicate MayMove(e: Event, m: Memory, status: Status, ceiling: Visibility) {
    && m.owner == e.owner && !IsSealed(m) && StatusMove(e.operation, m.status, status)
    && m.createdAt <= e.createdAt && (m.visibility == PublicSeed ==> status == Active)
    && Rank(m.visibility) <= Rank(ceiling)
  }

  lemma MovedProperties(ids: seq<Uuid>, rows: map<Uuid, Memory>, target: map<Uuid, Status>, now: Time)
    requires Sorted(ids) && forall id :: id in ids ==> id in rows && id in target && rows[id].id == id
    ensures DistinctAffected(Moved(ids, rows, target, now))
    ensures AffectedIds(Moved(ids, rows, target, now)) == set id | id in ids
    ensures forall a :: a in Moved(ids, rows, target, now) <==>
              a.memory.id in ids && a == Affected(rows[a.memory.id].revision,
                Restated(rows[a.memory.id], target[a.memory.id], now))
  {
    var moved := Moved(ids, rows, target, now);
    forall i | 0 <= i < |ids| ensures moved[i].memory.id == ids[i] { assert ids[i] in ids; }
    forall id | id in ids ensures Affected(rows[id].revision, Restated(rows[id], target[id], now)) in moved {
      var i :| 0 <= i < |ids| && ids[i] == id;
      assert moved[i] in moved;
    }
  }

  lemma MoveFollows(memories: map<Uuid, Memory>, e: Event, m: Memory, status: Status)
    requires m.id in memories && memories[m.id] == m && WellShaped(m) && m.status != Tombstoned
    requires e.operation == ConflictOpened || e.operation == ConflictResolved
    ensures var after := Restated(m, status, e.createdAt);
            (WellShaped(after) && after.owner == e.owner && RevisionFollows(e, m, m.revision, after)
              && StatusMove(e.operation, m.status, status))
            <==> (m.owner == e.owner && !IsSealed(m) && StatusMove(e.operation, m.status, status)
                  && m.createdAt <= e.createdAt && (m.visibility == PublicSeed ==> status == Active))
  {
    if !IsSealed(m) && status != Tombstoned { RestatedShape(m, status, e.createdAt); }
  }

  /** Applying the moves, with shapes and ceiling, succeeds exactly when each memory may move. */
  lemma MovesApply(p: Projection, e: Event, ids: seq<Uuid>, target: map<Uuid, Status>, ceiling: Visibility)
    requires e.operation == ConflictOpened || e.operation == ConflictResolved
    requires Sorted(ids) && forall id :: id in ids ==>
               id in p.memories && id in target && p.memories[id].id == id && WellShaped(p.memories[id])
                 && p.memories[id].status != Tombstoned
    ensures var moved := Moved(ids, p.memories, target, e.createdAt);
            (&& ApplyAffected(p.memories, e, moved).Some?
             && (forall a :: a in moved ==> WellShaped(a.memory) && Rank(a.memory.visibility) <= Rank(ceiling)))
            <==> forall id :: id in ids ==> MayMove(e, p.memories[id], target[id], ceiling)
  {
    var moved := Moved(ids, p.memories, target, e.createdAt);
    MovedProperties(ids, p.memories, target, e.createdAt);
    ApplyExactly(p.memories, e, moved);
    forall id | id in ids
      ensures var a := Affected(p.memories[id].revision, Restated(p.memories[id], target[id], e.createdAt));
              a in moved && (MayMove(e, p.memories[id], target[id], ceiling) <==>
                             && WellShaped(a.memory) && Rank(a.memory.visibility) <= Rank(ceiling)
                             && a.memory.owner == e.owner && RevisionFollows(e, p.memories[id], a.previous, a.memory)
                             && StatusMove(e.operation, p.memories[id].status, a.memory.status))
    {
      MoveFollows(p.memories, e, p.memories[id], target[id]);
    }
  }

  lemma MembersOf(members: seq<Member>, ids: seq<Uuid>, conflict: Uuid)
    requires |members| == |ids| && Sorted(ids) && |ids| >= 2
    requires forall i :: 0 <= i < |ids| ==> members[i].memory == ids[i] && members[i].conflict == conflict
    ensures UniqueMembers(members) && MemberIds(members) == set id | id in ids
    ensures forall m :: m in members ==> m.conflict == conflict && m.memory in ids
  {
    forall id | id in ids ensures id in MemberIds(members) {
      var i :| 0 <= i < |ids| && ids[i] == id;
      assert members[i] in members;
    }
  }

  /** Payload checks of a conflict event, read off its list of moves. */
  lemma ConflictPayloadValid(payload: Payload, ids: seq<Uuid>, rows: map<Uuid, Memory>, target: map<Uuid, Status>,
      now: Time, ceiling: Visibility)
    requires payload.Opened? || payload.Resolved?
    requires forall id :: id in ids ==> id in rows && id in target
    requires payload.affected == Moved(ids, rows, target, now) && MembersShape(payload.conflict, payload.members)
    ensures ValidPayload(payload) && WithinCeiling(ceiling, payload) <==>
            forall a :: a in payload.affected ==> WellShaped(a.memory) && Rank(a.memory.visibility) <= Rank(ceiling)
  {
    AffectedImages(payload.affected);
    assert forall a :: a in payload.affected ==> a.memory.expiresAt.None?;
    assert forall a :: a in payload.affected ==> a.memory in AfterImages(payload);
  }

  /** The moves pass the payload checks and apply exactly when each memory may move. */
  lemma MovesTaken(p: Projection, e: Event, ids: seq<Uuid>, target: map<Uuid, Status>)
    requires (e.payload.Opened? && e.operation == ConflictOpened)
             || (e.payload.Resolved? && e.operation == ConflictResolved)
    requires e.owner.branch in p.branches && MembersShape(e.payload.conflict, e.payload.members)
    requires Sorted(ids) && forall id :: id in ids ==>
               id in p.memories && id in target && p.memories[id].id == id && WellShaped(p.memories[id])
                 && p.memories[id].status != Tombstoned
    requires e.payload.affected == Moved(ids, p.memories, target, e.createdAt)
    ensures ValidPayload(e.payload) && WithinCeiling(p.branches[e.owner.branch].ceiling, e.payload)
            && ApplyAffected(p.memories, e, e.payload.affected).Some?
            <==> forall id :: id in ids ==> MayMove(e, p.memories[id], target[id], p.branches[e.owner.branch].ceiling)
  {
    ConflictPayloadValid(e.payload, ids, p.memories, target, e.createdAt, p.branches[e.owner.branch].ceiling);
    MovesApply(p, e, ids, target, p.branches[e.owner.branch].ceiling);
  }

  /** None of the stored rows is of the highest sensitivity. */
  predicate BelowTop(memories: map<Uuid, Memory>, ids: set<Uuid>) {
    forall id :: id in ids && id in memories ==> memories[id].attributes.sensitivity != MAX_SENSITIVITY
  }

  /** A transport carries the moves of plaintext rows exactly when none is of the highest sensitivity. */
  lemma MovesCarried(relay: bool, payload: Payload, ids: seq<Uuid>, keys: set<Uuid>, rows: map<Uuid, Memory>,
      target: map<Uuid, Status>, now: Time)
    requires (payload.Opened? || payload.Resolved?) && forall id :: id in ids <==> id in keys
    requires forall id :: id in ids ==> id in rows && id in target && rows[id].id == id && !IsSealed(rows[id])
    requires payload.affected == Moved(ids, rows, target, now) && Sorted(ids)
    ensures ImagesCarried(relay, payload) <==> BelowTop(rows, keys)
  {
    MovedProperties(ids, rows, target, now);
    AffectedImages(payload.affected);
    forall id | id in keys ensures Restated(rows[id], target[id], now) in AfterImages(payload) {
      var a := Affected(rows[id].revision, Restated(rows[id], target[id], now));
      assert id in ids && a in payload.affected && a.memory in AfterImages(payload);
    }
  }

  // ---------------------------------------------------------------- opening

  function AllTo(ids: set<Uuid>, status: Status): map<Uuid, Status> {
    map id | id in ids :: status
  }

  lemma DisputedAreMoved(ids: seq<Uuid>, loaded: map<Uuid, Memory>, rows: map<Uuid, Memory>, known: set<Uuid>,
      now: Time)
    requires forall id :: id in ids ==> id in loaded && id in rows && loaded[id] == rows[id] && id in known
    ensures DisputedImages(ids, loaded, now) == Moved(ids, rows, AllTo(known, Disputed), now)
  {
    forall i | 0 <= i < |ids|
      ensures DisputedImages(ids, loaded, now)[i] == Moved(ids, rows, AllTo(known, Disputed), now)[i] {
      assert ids[i] in ids;
    }
  }

  lemma OpenFolds(p: Projection, e: Event, c: Conflict, ids: seq<Uuid>, target: map<Uuid, Status>)
    requires Enveloped(p, e) && MembersSound(p) && e.operation == ConflictOpened
    requires c.owner == e.owner && c.Open() && c.openedAt == e.createdAt
    requires Sorted(ids) && |ids| >= 2 && forall id :: id in ids ==>
               && id in p.memories && p.memories[id].subject == c.subject && id in target && target[id] == Disputed
               && WellShaped(p.memories[id]) && p.memories[id].status != Tombstoned
    requires e.payload == Opened(c, JoiningMembers(ids, c.id, e.createdAt), Moved(ids, p.memories, target, e.createdAt))
    ensures Fold(p, e).Some? <==>
            && c.id !in p.conflicts
            && forall id :: id in ids ==> MayMove(e, p.memories[id], Disputed, p.branches[e.owner.branch].ceiling)
  {
    MembersOf(e.payload.members, ids, c.id);
    MovedProperties(ids, p.memories, target, e.createdAt);
    MovesTaken(p, e, ids, target);
    FoldAsksPayload(p, e);
    OpenedExactly(p, e, c, e.payload.members, e.payload.affected);
  }

  lemma OpenedExactly(p: Projection, e: Event, c: Conflict, members: seq<Member>, affected: seq<Affected>)
    requires MembersSound(p) && c.owner == e.owner && c.Open() && c.openedAt == e.createdAt
    requires forall m :: m in members ==> m.conflict == c.id && m.joinedAt == e.createdAt
    requires AffectedIds(affected) == MemberIds(members)
    requires forall a :: a in affected ==> a.memory.subject == c.subject
    ensures FoldOpened(p, e, c, members, affected).Some? <==>
            c.id !in p.conflicts && ApplyAffected(p.memories, e, affected).Some?
  {
    assert c.id !in p.conflicts ==> forall m :: m in members ==> (m.conflict, m.memory) !in p.members;
  }

  /** Every member is a plaintext candidate or active memory of the subject, at the revision named and unpublished. */
  predicate Openable(db: Db, body: Body, owner: Owner, aggregate: Uuid, now: Time)
    requires body.OpenConflict?
  {
    && aggregate !in db.live.conflicts
    && forall x :: x in body.members ==>
         && Named(db, owner, x.memory, x.revision, now)
         && var m := db.live.memories[x.memory];
            m.subject == body.subject && (m.status == Candidate || m.status == Active) && !IsSealed(m)
              && Visible(db, owner, m.visibility)
  }

  /** Every loaded member has the subject and the expected revision. */
  predicate MembersAgree(loaded: map<Uuid, Memory>, subject: Uuid, expected: map<Uuid, nat>) {
    forall id :: id in expected ==> id in loaded && loaded[id].subject == subject && loaded[id].revision == expected[id]
  }

  lemma OpenWithExactly(body: Body, owner: Owner, aggregate: Uuid, now: Time, expected: map<Uuid, nat>,
      loaded: map<Uuid, Memory>)
    requires body.OpenConflict? && loaded.Keys == expected.Keys
    ensures OpenWith(body, owner, aggregate, now, expected, loaded).Ok? <==>
            MembersAgree(loaded, body.subject, expected)
  {
    var ids := Ascending(expected.Keys);
    NothingStale(ids, loaded, expected);
    assert FirstStale(ids, loaded, expected).None? <==>
           forall id :: id in expected ==> loaded[id].revision == expected[id];
  }

  /** What preparing asks of one member. */
  predicate MemberReady(db: Db, owner: Owner, subject: Uuid, id: Uuid, revision: nat) {
    && Owned(db.live.memories, owner, id) && Lockable(db.live.memories[id])
    && db.live.memories[id].subject == subject && db.live.memories[id].revision == revision
  }

  predicate AllReady(db: Db, owner: Owner, subject: Uuid, expected: map<Uuid, nat>) {
    forall id :: id in expected ==> MemberReady(db, owner, subject, id, expected[id])
  }

  function OpeningPayload(db: Db, body: Body, owner: Owner, aggregate: Uuid, now: Time): Payload
    requires body.OpenConflict? && Expected(body.members).Keys <= db.live.memories.Keys
  {
    var ids := Ascending(Expected(body.members).Keys);
    Opened(Conflict(aggregate, owner, body.subject, body.conflictReason, now, body.metadata, None),
           JoiningMembers(ids, aggregate, now), Moved(ids, db.live.memories,
             AllTo(Expected(body.members).Keys, Disputed), now))
  }

  lemma OpenPreparesExactly(db: Db, body: Body, owner: Owner, aggregate: Uuid, now: Time)
    requires body.OpenConflict?
    ensures PrepareOpen(db, body, owner, aggregate, now).Ok? <==>
            AllReady(db, owner, body.subject, Expected(body.members))
  {
    var expected := Expected(body.members);
    var loaded := LoadMemories(db.live.memories, owner, expected.Keys);
    if loaded.Ok? {
      OpenWithExactly(body, owner, aggregate, now, expected, loaded.value);
      assert PrepareOpen(db, body, owner, aggregate, now)
             == OpenWith(body, owner, aggregate, now, expected, loaded.value);
      ReadyWhenLoaded(db, owner, body.subject, expected, loaded.value);
    } else {
      var id :| id in expected.Keys && !(Owned(db.live.memories, owner, id) && Lockable(db.live.memories[id]));
      assert id in expected && !MemberReady(db, owner, body.subject, id, expected[id]);
    }
  }

  lemma ReadyWhenLoaded(db: Db, owner: Owner, subject: Uuid, expected: map<Uuid, nat>, loaded: map<Uuid, Memory>)
    requires loaded.Keys == expected.Keys
    requires forall id :: id in expected ==>
             Owned(db.live.memories, owner, id) && Lockable(db.live.memories[id]) && loaded[id] == db.live.memories[id]
    ensures AllReady(db, owner, subject, expected) <==> MembersAgree(loaded, subject, expected)
  {
    if AllReady(db, owner, subject, expected) {
      forall id | id in expected ensures loaded[id].subject == subject && loaded[id].revision == expected[id] {
        assert MemberReady(db, owner, subject, id, expected[id]);
      }
    }
  }

  lemma OpenPreparesThis(db: Db, body: Body, owner: Owner, aggregate: Uuid, now: Time)
    requires body.OpenConflict? && PrepareOpen(db, body, owner, aggregate, now).Ok?
    ensures Expected(body.members).Keys <= db.live.memories.Keys
    ensures PrepareOpen(db, body, owner, aggregate, now).value
            == Prepared(OpeningPayload(db, body, owner, aggregate, now), None, None, None, None, Some(aggregate))
  {
    var expected := Expected(body.members);
    var loaded := LoadMemories(db.live.memories, owner, expected.Keys).value;
    DisputedAreMoved(Ascending(expected.Keys), loaded, db.live.memories, expected.Keys, now);
  }

  lemma OpenAccepts(db: Db, principal: Principal, command: Command, ids: Identities, now: Time)
    requires Sound(db) && Admitted(db, principal, command, ids) && command.body.OpenConflict?
    ensures var owner, proposed := Gate(db, principal, command).value, Proposed(db, principal, command, ids, now);
            && (proposed.Some? && Fold(db.live, proposed.value).Some? <==>
                 Openable(db, command.body, owner, ids.aggregate, now))
            && (proposed.Some? ==> EndpointsLocal(db.live, proposed.value))
            && (proposed.Some? ==>
                  && Expected(command.body.members).Keys <= db.live.memories.Keys
                  && proposed.value.payload == OpeningPayload(db, command.body, owner, ids.aggregate, now)
                  && proposed.value.operation == ConflictOpened)
  {
    var owner, body := Gate(db, principal, command).value, command.body;
    OpenPreparesExactly(db, body, owner, ids.aggregate, now);
    ExpectedValues(body.members);
    OpenableByKey(db, body, owner, ids.aggregate, now);
    OpenableIsReady(db, body, owner, now);
    if PrepareOpen(db, body, owner, ids.aggregate, now).Ok? {
      OpenPreparesThis(db, body, owner, ids.aggregate, now);
      ProposedIsEnveloped(db, principal, command, ids, now);
      OpeningFolds(db, body, owner, ids.aggregate, Proposed(db, principal, command, ids, now).value);
    }
  }

  /** The caller's condition, key by key. */
  predicate OpenableAt(db: Db, owner: Owner, subject: Uuid, id: Uuid, revision: nat, now: Time) {
    && Named(db, owner, id, revision, now)
    && var m := db.live.memories[id];
       m.subject == subject && (m.status == Candidate || m.status == Active) && !IsSealed(m)
         && Visible(db, owner, m.visibility)
  }

  lemma OpenableIsReady(db: Db, body: Body, owner: Owner, now: Time)
    requires Sound(db) && body.OpenConflict?
    ensures forall id, n: nat :: OpenableAt(db, owner, body.subject, id, n, now) ==>
            MemberReady(db, owner, body.subject, id, n)
  {
    forall id, n: nat | OpenableAt(db, owner, body.subject, id, n, now)
      ensures MemberReady(db, owner, body.subject, id, n) {
      StoredIsHonest(db, id);
    }
  }

  lemma OpenableByKey(db: Db, body: Body, owner: Owner, aggregate: Uuid, now: Time)
    requires body.OpenConflict? && DistinctExpectations(body.members)
    ensures Openable(db, body, owner, aggregate, now) <==>
            && aggregate !in db.live.conflicts
            && forall id :: id in Expected(body.members) ==>
                 OpenableAt(db, owner, body.subject, id, Expected(body.members)[id], now)
  {
    ExpectedKeys(body.members);
    ExpectedValues(body.members);
    forall id | id in Expected(body.members)
      ensures exists x :: x in body.members && x.memory == id && x.revision == Expected(body.members)[id] {
      var x :| x in body.members && x.memory == id;
    }
  }

  lemma OpeningFolds(db: Db, body: Body, owner: Owner, aggregate: Uuid, e: Event)
    requires Sound(db) && body.OpenConflict? && Enveloped(db.live, e) && e.owner == owner
             && e.operation == ConflictOpened
    requires |Expected(body.members)| >= 2 && Expected(body.members).Keys <= db.live.memories.Keys
    requires AllReady(db, owner, body.subject, Expected(body.members))
    requires e.payload == OpeningPayload(db, body, owner, aggregate, e.createdAt)
    ensures Fold(db.live, e).Some? <==>
            && aggregate !in db.live.conflicts
            && forall id :: id in Expected(body.members) ==>
                 OpenableAt(db, owner, body.subject, id, Expected(body.members)[id], e.createdAt)
  {
    LogIsSound(db);
    RowsAreShaped(db, Expected(body.members).Keys);
    OpeningFoldsReady(db, body, owner, aggregate, e);
  }

  ghost predicate RowsShaped(memories: map<Uuid, Memory>, ids: set<Uuid>) {
    forall id :: id in ids ==>
      id in memories && WellShaped(memories[id]) && (!IsSealed(memories[id]) ==> memories[id].status != Tombstoned)
  }

  lemma OpeningFoldsReady(db: Db, body: Body, owner: Owner, aggregate: Uuid, e: Event)
    requires body.OpenConflict? && MembersSound(db.live) && RowsShaped(db.live.memories, Expected(body.members).Keys)
    requires Enveloped(db.live, e) && e.owner == owner && e.operation == ConflictOpened
    requires |Expected(body.members)| >= 2 && Expected(body.members).Keys <= db.live.memories.Keys
    requires AllReady(db, owner, body.subject, Expected(body.members))
    requires e.payload == OpeningPayload(db, body, owner, aggregate, e.createdAt)
    ensures Fold(db.live, e).Some? <==>
            && aggregate !in db.live.conflicts
            && forall id :: id in Expected(body.members) ==>
                 OpenableAt(db, owner, body.subject, id, Expected(body.members)[id], e.createdAt)
  {
    var expected := Expected(body.members);
    var ids := Ascending(expected.Keys);
    ReadyIsOpenable(db, owner, body.subject, expected, e);
    forall id | id in ids ensures id in expected && MemberReady(db, owner, body.subject, id, expected[id]) {
      assert id in expected.Keys;
    }
    OpeningFoldsOn(db.live, e, e.payload.conflict, ids, AllTo(expected.Keys, Disputed));
    assert forall id :: id in expected ==> id in ids;
  }

  lemma RowsAreShaped(db: Db, ids: set<Uuid>)
    requires Sound(db) && ids <= db.live.memories.Keys && forall id :: id in ids ==> Lockable(db.live.memories[id])
    ensures RowsShaped(db.live.memories, ids)
  {
    forall id | id in ids
      ensures WellShaped(db.live.memories[id]) && (!IsSealed(db.live.memories[id]) ==>
              db.live.memories[id].status != Tombstoned)
    {
      StoredIsHonest(db, id);
    }
  }

  lemma ReadyIsOpenable(db: Db, owner: Owner, subject: Uuid, expected: map<Uuid, nat>, e: Event)
    requires e.operation == ConflictOpened && e.owner == owner && owner.branch in db.live.branches
    requires AllReady(db, owner, subject, expected)
    ensures forall id :: id in expected ==>
              id in db.live.memories &&
              (MayMove(e, db.live.memories[id], Disputed, db.live.branches[owner.branch].ceiling) <==>
               OpenableAt(db, owner, subject, id, expected[id], e.createdAt))
  {
  }

  /** As `OpenFolds`, also when some member is a sealed tombstone: then both sides are false. */
  lemma OpeningFoldsOn(p: Projection, e: Event, c: Conflict, ids: seq<Uuid>, target: map<Uuid, Status>)
    requires Enveloped(p, e) && MembersSound(p) && e.operation == ConflictOpened
    requires c.owner == e.owner && c.Open() && c.openedAt == e.createdAt
    requires Sorted(ids) && |ids| >= 2 && forall id :: id in ids ==>
               && id in p.memories && p.memories[id].subject == c.subject && id in target && target[id] == Disputed
               && (!IsSealed(p.memories[id]) ==> WellShaped(p.memories[id]) && p.memories[id].status != Tombstoned)
    requires e.payload == Opened(c, JoiningMembers(ids, c.id, e.createdAt), Moved(ids, p.memories, target, e.createdAt))
    ensures Fold(p, e).Some? <==>
            && c.id !in p.conflicts
            && forall id :: id in ids ==> MayMove(e, p.memories[id], Disputed, p.branches[e.owner.branch].ceiling)
  {
    if exists id :: id in ids && IsSealed(p.memories[id]) {
      var id :| id in ids && IsSealed(p.memories[id]);
      SealedRefused(p, e, ids, target, id);
    } else {
      OpenFolds(p, e, c, ids, target);
    }
  }

  lemma SealedRefused(p: Projection, e: Event, ids: seq<Uuid>, target: map<Uuid, Status>, id: Uuid)
    requires MembersSound(p) && (e.operation == ConflictOpened || e.operation == ConflictResolved)
    requires Sorted(ids) && (forall k :: k in ids ==> k in p.memories && k in target) && id in ids
             && IsSealed(p.memories[id])
    requires e.payload.Opened? || e.payload.Resolved?
    requires e.payload.affected == Moved(ids, p.memories, target, e.createdAt)
    ensures Fold(p, e).None?
  {
    MovedProperties(ids, p.memories, target, e.createdAt);
    var moved := Moved(ids, p.memories, target, e.createdAt);
    ApplyExactly(p.memories, e, moved);
    var a := Affected(p.memories[id].revision, Restated(p.memories[id], target[id], e.createdAt));
    assert a in moved && !RevisionFollows(e, p.memories[id], a.previous, a.memory);
  }

  lemma OpeningCarried(db: Db, relay: bool, body: Body, owner: Owner, aggregate: Uuid, now: Time, e: Event)
    requires Sound(db) && body.OpenConflict? && WellFormed(body) && Openable(db, body, owner, aggregate, now)
    requires Expected(body.members).Keys <= db.live.memories.Keys
             && e.payload == OpeningPayload(db, body, owner, aggregate, now)
    ensures ImagesCarried(relay, e.payload) <==> BelowTop(db.live.memories, Expected(body.members).Keys)
  {
    var expected := Expected(body.members);
    OpenableByKey(db, body, owner, aggregate, now);
    forall id | id in expected ensures db.live.memories[id].id == id && !IsSealed(db.live.memories[id]) {
      assert OpenableAt(db, owner, body.subject, id, expected[id], now);
      StoredIsHonest(db, id);
    }
    MovesCarried(relay, e.payload, Ascending(expected.Keys), expected.Keys, db.live.memories,
      AllTo(expected.Keys, Disputed), now);
  }

  /** Opening succeeds exactly on openable members below the highest sensitivity. The conflict is then open with
      exactly those members, each of them disputed one revision on, and no other memory has changed. */
  lemma OpenSucceedsExactly(db: Db, principal: Principal, command: Command, ids: Identities, now: Time)
    requires Sound(db) && Admitted(db, principal, command, ids) && command.body.OpenConflict?
    ensures var (response, next) := Attempt(db, principal, command, ids, now);
            var owner, body, c := Gate(db, principal, command).value, command.body, ids.aggregate;
            && (response.Success? <==>
                 Openable(db, body, owner, c, now) && BelowTop(db.live.memories, Expected(body.members).Keys))
            && (response.Success? ==>
                  && c in next.live.conflicts && next.live.conflicts == db.live.conflicts[c := next.live.conflicts[c]]
                  && next.live.conflicts[c].Open() && next.live.conflicts[c].subject == body.subject
                  && (forall k :: k in next.live.members <==>
                       k in db.live.members || (k.0 == c && k.1 in Expected(body.members)))
                  && next.live.memories.Keys == db.live.memories.Keys
                  && (forall id :: id in db.live.memories && id !in Expected(body.members) ==>
                       next.live.memories[id] == db.live.memories[id])
                  && (forall id :: id in Expected(body.members) ==>
                        id in db.live.memories && next.live.memories[id]
                          == Restated(db.live.memories[id], Disputed, now)))
  {
    AdmittedSucceeds(db, principal, command, ids, now);
    OpenAccepts(db, principal, command, ids, now);
    var proposed := Proposed(db, principal, command, ids, now);
    if proposed.Some? && Fold(db.live, proposed.value).Some? {
      LogIsSound(db);
      OpeningCarried(db, OverRelay(db.directory, principal), command.body, Gate(db, principal, command).value,
        ids.aggregate, now, proposed.value);
      OpeningEffect(db, command.body, Gate(db, principal, command).value, ids.aggregate, now, proposed.value);
    }
  }

  lemma OpeningEffect(db: Db, body: Body, owner: Owner, aggregate: Uuid, now: Time, e: Event)
    requires MembersSound(db.live) && body.OpenConflict? && Expected(body.members).Keys <= db.live.memories.Keys
    requires e.payload == OpeningPayload(db, body, owner, aggregate, now) && Fold(db.live, e).Some?
    ensures var q := Fold(db.live, e).value;
            && q.conflicts == db.live.conflicts[aggregate := e.payload.conflict] && e.payload.conflict.Open()
            && e.payload.conflict.subject == body.subject
            && (forall k :: k in q.members <==>
                 k in db.live.members || (k.0 == aggregate && k.1 in Expected(body.members)))
            && q.memories.Keys == db.live.memories.Keys
            && (forall id :: id in db.live.memories && id !in Expected(body.members) ==>
                 q.memories[id] == db.live.memories[id])
            && (forall id :: id in Expected(body.members) ==>
                  id in db.live.memories && q.memories[id] == Restated(db.live.memories[id], Disputed, now))
  {
    var expected := Expected(body.members);
    var ids := Ascending(expected.Keys);
    OpenedOn(db.live, e, ids, AllTo(expected.Keys, Disputed), now);
    assert forall id :: id in ids <==> id in expected;
  }

  lemma OpenedOn(p: Projection, e: Event, ids: seq<Uuid>, target: map<Uuid, Status>, now: Time)
    requires MembersSound(p) && e.payload.Opened? && Fold(p, e).Some?
    requires Sorted(ids) && forall id :: id in ids ==> id in p.memories && id in target
    requires e.payload.affected == Moved(ids, p.memories, target, now)
    ensures var q, c := Fold(p, e).value, e.payload.conflict;
            && q.conflicts == p.conflicts[c.id := c] && c.Open()
            && (forall k :: k in q.members <==> k in p.members || (k.0 == c.id && k.1 in ids))
            && q.memories.Keys == p.memories.Keys
            && (forall id :: id in p.memories && id !in ids ==> q.memories[id] == p.memories[id])
            && (forall id :: id in ids ==> q.memories[id] == Restated(p.memories[id], target[id], now))
  {
    OpenedTables(p, e);
    MovedProperties(ids, p.memories, target, now);
    MovedWritten(p, e, ids, target, now);
  }

  /** A conflict event writes each moved row. */
  lemma MovedWritten(p: Projection, e: Event, ids: seq<Uuid>, target: map<Uuid, Status>, now: Time)
    requires Fold(p, e).Some? && MembersSound(p) && (e.payload.Opened? || e.payload.Resolved?)
    requires Sorted(ids) && forall id :: id in ids ==> id in p.memories && id in target
    requires e.payload.affected == Moved(ids, p.memories, target, now)
    ensures forall id :: id in ids ==>
            id in Fold(p, e).value.memories && Fold(p, e).value.memories[id]
              == Restated(p.memories[id], target[id], now)
  {
    FoldMemories(p, e);
    MovedProperties(ids, p.memories, target, now);
    AffectedImages(e.payload.affected);
    forall id | id in ids
      ensures id in Fold(p, e).value.memories && Fold(p, e).value.memories[id]
              == Restated(p.memories[id], target[id], now)
    {
      var a := Affected(p.memories[id].revision, Restated(p.memories[id], target[id], now));
      assert a in e.payload.affected && a.memory in AfterImages(e.payload);
    }
  }

  // ---------------------------------------------------------------- resolving

  function StatusesOf(verdicts: map<Uuid, Verdict>): map<Uuid, Status> {
    map id | id in verdicts :: verdicts[id].status
  }

  /** The conflict is open in the branch, the verdicts cover exactly its members at their current revisions, and the
      user confirmed where a persona or relationship memory is among them. */
  predicate Resolvable(db: Db, body: Body, owner: Owner, now: Time)
    requires body.ResolveConflict?
  {
    var verdicts := VerdictOf(body.verdicts);
    && body.conflict in db.live.conflicts && db.live.conflicts[body.conflict].owner == owner
    && db.live.conflicts[body.conflict].Open()
    && StoredMemberIds(db.live.members, body.conflict) == verdicts.Keys
    && owner.branch in db.live.branches
    && (forall id :: id in verdicts ==>
          && Named(db, owner, id, verdicts[id].revision, now)
          && !IsSealed(db.live.memories[id]) && Rank(db.live.memories[id].visibility)
               <= Rank(db.live.branches[owner.branch].ceiling)
          && (NeedsConfirmation(db.live.memories[id]) ==> body.userConfirmed))
  }

  /** The user confirmed, or nothing settled needs it. */
  predicate Confirmed(confirmed: bool, rows: map<Uuid, Memory>) {
    confirmed || forall id :: id in rows ==> !NeedsConfirmation(rows[id])
  }

  lemma ResolveWithCases(live: Projection, body: Body, owner: Owner, now: Time, verdicts: map<Uuid, Verdict>,
      loaded: map<Uuid, Memory>)
    requires body.ResolveConflict? && loaded.Keys == verdicts.Keys
    ensures ResolveWith(live, body, owner, now, verdicts, loaded).Ok? <==>
            && Confirmed(body.userConfirmed, loaded)
            && body.conflict in live.conflicts && live.conflicts[body.conflict].owner == owner
            && live.conflicts[body.conflict].Open()
            && StoredMemberIds(live.members, body.conflict) == verdicts.Keys
            && FirstStale(Ascending(verdicts.Keys), loaded, RevisionsOf(verdicts)).None?
  {
  }

  lemma ResolveWithExactly(live: Projection, body: Body, owner: Owner, now: Time, verdicts: map<Uuid, Verdict>,
      loaded: map<Uuid, Memory>)
    requires body.ResolveConflict? && loaded.Keys == verdicts.Keys
    ensures ResolveWith(live, body, owner, now, verdicts, loaded).Ok? <==>
            && Confirmed(body.userConfirmed, loaded)
            && body.conflict in live.conflicts && live.conflicts[body.conflict].owner == owner
            && live.conflicts[body.conflict].Open()
            && StoredMemberIds(live.members, body.conflict) == verdicts.Keys
            && forall id :: id in verdicts ==> loaded[id].revision == verdicts[id].revision
  {
    ResolveWithCases(live, body, owner, now, verdicts, loaded);
    SettledAtRevision(verdicts, loaded);
  }

  lemma SettledAtRevision(verdicts: map<Uuid, Verdict>, loaded: map<Uuid, Memory>)
    requires loaded.Keys == verdicts.Keys
    ensures FirstStale(Ascending(verdicts.Keys), loaded, RevisionsOf(verdicts)).None? <==>
            forall id :: id in verdicts ==> loaded[id].revision == verdicts[id].revision
  {
    var ids := Ascending(verdicts.Keys);
    NothingStale(ids, loaded, RevisionsOf(verdicts));
    assert forall id :: id in ids <==> id in verdicts;
  }

  /** What preparing asks of one verdict. */
  predicate VerdictReady(db: Db, owner: Owner, confirmed: bool, v: Verdict, id: Uuid) {
    && Owned(db.live.memories, owner, id) && Lockable(db.live.memories[id])
    && db.live.memories[id].revision == v.revision
    && (NeedsConfirmation(db.live.memories[id]) ==> confirmed)
  }

  lemma ResolvePreparesExactly(db: Db, body: Body, owner: Owner, now: Time)
    requires body.ResolveConflict?
    ensures PrepareResolve(db, body, owner, now).Ok? <==>
            && body.conflict in db.live.conflicts && db.live.conflicts[body.conflict].owner == owner
            && db.live.conflicts[body.conflict].Open()
            && StoredMemberIds(db.live.members, body.conflict) == VerdictOf(body.verdicts).Keys
            && AllVerdictsReady(db, owner, body.userConfirmed, VerdictOf(body.verdicts))
  {
    var verdicts := VerdictOf(body.verdicts);
    var loaded := LoadMemories(db.live.memories, owner, verdicts.Keys);
    if loaded.Ok? {
      ResolveWithExactly(db.live, body, owner, now, verdicts, loaded.value);
      assert PrepareResolve(db, body, owner, now) == ResolveWith(db.live, body, owner, now, verdicts, loaded.value);
      VerdictsWhenLoaded(db, owner, body.userConfirmed, verdicts, loaded.value);
    } else {
      var id :| id in verdicts.Keys && !(Owned(db.live.memories, owner, id) && Lockable(db.live.memories[id]));
      assert id in verdicts && !VerdictReady(db, owner, body.userConfirmed, verdicts[id], id);
    }
  }

  lemma VerdictsWhenLoaded(db: Db, owner: Owner, confirmed: bool, verdicts: map<Uuid, Verdict>, loaded: map<Uuid,
      Memory>)
    requires loaded.Keys == verdicts.Keys
    requires forall id :: id in verdicts ==>
             Owned(db.live.memories, owner, id) && Lockable(db.live.memories[id]) && loaded[id] == db.live.memories[id]
    ensures AllVerdictsReady(db, owner, confirmed, verdicts) <==>
            Confirmed(confirmed, loaded) && forall id :: id in verdicts ==> loaded[id].revision == verdicts[id].revision
  {
    if AllVerdictsReady(db, owner, confirmed, verdicts) {
      forall id | id in verdicts
        ensures loaded[id].revision == verdicts[id].revision && (NeedsConfirmation(loaded[id]) ==> confirmed) {
        assert VerdictReady(db, owner, confirmed, verdicts[id], id);
      }
    }
  }

  function ResolvedConflict(live: Projection, body: Body, now: Time): Conflict
    requires body.ResolveConflict? && body.conflict in live.conflicts
  {
    live.conflicts[body.conflict].(resolution := Some(Resolution(body.resolutionKind, body.rationale, now)))
  }

  function ResolvingPayload(db: Db, body: Body, now: Time): Payload
    requires body.ResolveConflict? && body.conflict in db.live.conflicts
    requires var keys := VerdictOf(body.verdicts).Keys;
             keys <= db.live.memories.Keys && forall id :: id in keys ==> (body.conflict, id) in db.live.members
  {
    var verdicts := VerdictOf(body.verdicts);
    var ids := Ascending(verdicts.Keys);
    Resolved(ResolvedConflict(db.live, body, now), SettledMembers(ids, body.conflict, verdicts, db.live.members),
             Moved(ids, db.live.memories, StatusesOf(verdicts), now))
  }

  lemma SettledAreMoved(ids: seq<Uuid>, loaded: map<Uuid, Memory>, rows: map<Uuid, Memory>, verdicts: map<Uuid,
      Verdict>, now: Time)
    requires forall id :: id in ids ==> id in loaded && id in rows && loaded[id] == rows[id] && id in verdicts
    ensures SettledImages(ids, loaded, verdicts, now) == Moved(ids, rows, StatusesOf(verdicts), now)
  {
    forall i | 0 <= i < |ids|
      ensures SettledImages(ids, loaded, verdicts, now)[i] == Moved(ids, rows, StatusesOf(verdicts), now)[i] {
      assert ids[i] in ids;
    }
  }

  lemma ResolvePreparesThis(db: Db, body: Body, owner: Owner, now: Time)
    requires body.ResolveConflict? && PrepareResolve(db, body, owner, now).Ok?
    ensures var keys := VerdictOf(body.verdicts).Keys;
            keys <= db.live.memories.Keys && forall id :: id in keys ==> (body.conflict, id) in db.live.members
    ensures body.conflict in db.live.conflicts
    ensures PrepareResolve(db, body, owner, now).value
            == Prepared(ResolvingPayload(db, body, now), None, None, None, None, Some(body.conflict))
  {
    var verdicts := VerdictOf(body.verdicts);
    var loaded := LoadMemories(db.live.memories, owner, verdicts.Keys).value;
    StoredMembers(db.live.members, body.conflict);
    SettledAreMoved(Ascending(verdicts.Keys), loaded, db.live.memories, verdicts, now);
  }

  lemma ResolvedExactly(p: Projection, e: Event, c: Conflict, members: seq<Member>, affected: seq<Affected>)
    requires c.owner == e.owner && c.id in p.conflicts && p.conflicts[c.id].Open() && !c.Open()
             && c.resolution.value.at == e.createdAt
    requires SameConflict(p.conflicts[c.id], c)
    requires StoredMemberIds(p.members, c.id) == MemberIds(members) && AffectedIds(affected) == MemberIds(members)
    requires forall m :: m in members ==>
             (m.conflict, m.memory) in p.members && p.members[(m.conflict, m.memory)].joinedAt == m.joinedAt
    ensures FoldResolved(p, e, c, members, affected).Some? <==> ApplyAffected(p.memories, e, affected).Some?
  {
  }

  /** The listed memories are stored, shaped, judged members of the conflict. */
  predicate MemberRows(p: Projection, c: Uuid, ids: seq<Uuid>, verdicts: map<Uuid, Verdict>) {
    forall id :: id in ids ==>
      id in p.memories && id in verdicts && (c, id) in p.members && WellShaped(p.memories[id])
        && p.memories[id].status != Tombstoned
  }

  predicate AllMayMove(p: Projection, e: Event, ids: seq<Uuid>, verdicts: map<Uuid, Verdict>)
    requires e.owner.branch in p.branches && forall id :: id in ids ==> id in p.memories && id in verdicts
  {
    forall id :: id in ids ==> MayMove(e, p.memories[id], verdicts[id].status, p.branches[e.owner.branch].ceiling)
  }

  lemma ResolveFolds(p: Projection, e: Event, c: Conflict, ids: seq<Uuid>, verdicts: map<Uuid, Verdict>)
    requires Enveloped(p, e) && MembersSound(p) && e.operation == ConflictResolved
    requires c.owner == e.owner && c.id in p.conflicts && p.conflicts[c.id].Open() && !c.Open()
             && c.resolution.value.at == e.createdAt
    requires SameConflict(p.conflicts[c.id], c)
    requires Sorted(ids) && |ids| >= 2 && StoredMemberIds(p.members, c.id) == set id | id in ids
    requires MemberRows(p, c.id, ids, verdicts)
    requires e.payload == Resolved(c, SettledMembers(ids, c.id, verdicts, p.members),
             Moved(ids, p.memories, StatusesOf(verdicts), e.createdAt))
    ensures Fold(p, e).Some? <==> AllMayMove(p, e, ids, verdicts)
  {
    MembersOf(e.payload.members, ids, c.id);
    MovedProperties(ids, p.memories, StatusesOf(verdicts), e.createdAt);
    MovesTaken(p, e, ids, StatusesOf(verdicts));
    FoldAsksPayload(p, e);
    ResolvedExactly(p, e, c, e.payload.members, e.payload.affected);
  }

  /** Members of an open conflict are disputed, so settling one is always a legal move. */
  lemma SettlingMayMove(db: Db, owner: Owner, e: Event, c: Uuid, id: Uuid, v: Verdict)
    requires DisputesSound(db.live) && c in db.live.conflicts && db.live.conflicts[c].Open()
             && (c, id) in db.live.members
    requires e.operation == ConflictResolved && e.owner == owner && owner.branch in db.live.branches
    requires id in db.live.memories && db.live.memories[id].owner == owner && WellShaped(db.live.memories[id])
    requires v.status == Active || v.status == Superseded || v.status == Retired
    ensures db.live.memories[id].status == Disputed
    ensures MayMove(e, db.live.memories[id], v.status, db.live.branches[owner.branch].ceiling) <==>
            && !IsSealed(db.live.memories[id]) && db.live.memories[id].createdAt <= e.createdAt
            && Rank(db.live.memories[id].visibility) <= Rank(db.live.branches[owner.branch].ceiling)
  {
    assert OpenMember(db.live, c, id);
  }

  /** The caller's condition on one verdict. */
  predicate ResolvableAt(db: Db, owner: Owner, confirmed: bool, v: Verdict, id: Uuid, now: Time) {
    && Named(db, owner, id, v.revision, now) && owner.branch in db.live.branches
    && !IsSealed(db.live.memories[id]) && Rank(db.live.memories[id].visibility)
         <= Rank(db.live.branches[owner.branch].ceiling)
    && (NeedsConfirmation(db.live.memories[id]) ==> confirmed)
  }

  predicate AllResolvable(db: Db, owner: Owner, confirmed: bool, verdicts: map<Uuid, Verdict>, now: Time) {
    forall id :: id in verdicts ==> ResolvableAt(db, owner, confirmed, verdicts[id], id, now)
  }

  predicate AllVerdictsReady(db: Db, owner: Owner, confirmed: bool, verdicts: map<Uuid, Verdict>) {
    forall id :: id in verdicts ==> VerdictReady(db, owner, confirmed, verdicts[id], id)
  }

  /** An open conflict of the branch whose members are exactly the judged memories. */
  ghost predicate Judged(db: Db, owner: Owner, c: Uuid, verdicts: map<Uuid, Verdict>) {
    && DisputesSound(db.live)
    && c in db.live.conflicts && db.live.conflicts[c].owner == owner && db.live.conflicts[c].Open()
    && StoredMemberIds(db.live.members, c) == verdicts.Keys
    && (forall id :: id in verdicts ==>
          && (c, id) in db.live.members
          && (verdicts[id].status == Active || verdicts[id].status == Superseded || verdicts[id].status == Retired))
  }

  lemma JudgedMayMove(db: Db, owner: Owner, e: Event, c: Uuid, verdicts: map<Uuid, Verdict>, confirmed: bool, id: Uuid)
    requires Judged(db, owner, c, verdicts) && RowsShaped(db.live.memories, verdicts.Keys) && id in verdicts
    requires e.operation == ConflictResolved && e.owner == owner && owner.branch in db.live.branches
    requires AllVerdictsReady(db, owner, confirmed, verdicts)
    ensures id in db.live.memories && db.live.memories[id].status == Disputed && WellShaped(db.live.memories[id])
    ensures MayMove(e, db.live.memories[id], verdicts[id].status, db.live.branches[owner.branch].ceiling) <==>
            ResolvableAt(db, owner, confirmed, verdicts[id], id, e.createdAt)
  {
    assert VerdictReady(db, owner, confirmed, verdicts[id], id) && id in verdicts.Keys;
    SettlingMayMove(db, owner, e, c, id, verdicts[id]);
  }

  /** A memory that can be judged: a shaped member row whose move is legal exactly when the caller's condition holds. */
  ghost predicate JudgeableAt(db: Db, owner: Owner, e: Event, c: Uuid, verdicts: map<Uuid, Verdict>, confirmed: bool,
      id: Uuid) {
    && owner.branch in db.live.branches
    && id in verdicts && id in db.live.memories && (c, id) in db.live.members
    && WellShaped(db.live.memories[id]) && db.live.memories[id].status != Tombstoned
    && (MayMove(e, db.live.memories[id], verdicts[id].status, db.live.branches[owner.branch].ceiling) <==>
        ResolvableAt(db, owner, confirmed, verdicts[id], id, e.createdAt))
  }

  ghost predicate Judgeable(db: Db, owner: Owner, e: Event, c: Uuid, verdicts: map<Uuid, Verdict>, confirmed: bool,
      ids: seq<Uuid>) {
    forall id :: id in ids ==> JudgeableAt(db, owner, e, c, verdicts, confirmed, id)
  }

  lemma JudgedRows(db: Db, owner: Owner, e: Event, c: Uuid, verdicts: map<Uuid, Verdict>, confirmed: bool,
      ids: seq<Uuid>)
    requires Judged(db, owner, c, verdicts) && RowsShaped(db.live.memories, verdicts.Keys)
    requires e.operation == ConflictResolved && e.owner == owner && owner.branch in db.live.branches
    requires AllVerdictsReady(db, owner, confirmed, verdicts) && forall id :: id in ids ==> id in verdicts
    ensures Judgeable(db, owner, e, c, verdicts, confirmed, ids)
  {
    forall id | id in ids ensures JudgeableAt(db, owner, e, c, verdicts, confirmed, id) {
      JudgedMayMove(db, owner, e, c, verdicts, confirmed, id);
    }
  }

  lemma ResolvingFolds(db: Db, body: Body, owner: Owner, e: Event, verdicts: map<Uuid, Verdict>)
    requires body.ResolveConflict? && verdicts == VerdictOf(body.verdicts) && |verdicts| >= 2
    requires MembersSound(db.live) && body.conflict in db.live.conflicts
    requires db.live.conflicts[body.conflict].owner == owner && db.live.conflicts[body.conflict].Open()
    requires StoredMemberIds(db.live.members, body.conflict) == verdicts.Keys
    requires Enveloped(db.live, e) && e.owner == owner && e.operation == ConflictResolved
    requires Judgeable(db, owner, e, body.conflict, verdicts, body.userConfirmed, Ascending(verdicts.Keys))
    requires verdicts.Keys <= db.live.memories.Keys && forall id :: id in verdicts.Keys ==>
             (body.conflict, id) in db.live.members
    requires e.payload == ResolvingPayload(db, body, e.createdAt)
    ensures Fold(db.live, e).Some? <==> AllResolvable(db, owner, body.userConfirmed, verdicts, e.createdAt)
  {
    var ids := Ascending(verdicts.Keys);
    assert (set id | id in ids) == verdicts.Keys;
    JudgeableMeans(db, owner, e, body.conflict, verdicts, body.userConfirmed, ids);
    ResolveFolds(db.live, e, e.payload.conflict, ids, verdicts);
  }

  lemma JudgeableMeans(db: Db, owner: Owner, e: Event, c: Uuid, verdicts: map<Uuid, Verdict>, confirmed: bool,
      ids: seq<Uuid>)
    requires Judgeable(db, owner, e, c, verdicts, confirmed, ids) && e.owner == owner
             && owner.branch in db.live.branches
    requires forall id :: id in ids <==> id in verdicts
    ensures MemberRows(db.live, c, ids, verdicts)
    ensures AllMayMove(db.live, e, ids, verdicts) <==> AllResolvable(db, owner, confirmed, verdicts, e.createdAt)
  {
    forall id | id in ids
      ensures JudgeableAt(db, owner, e, c, verdicts, confirmed, id)
    {
    }
  }

  lemma ResolvableIsReady(db: Db, owner: Owner, c: Uuid, verdicts: map<Uuid, Verdict>, confirmed: bool, now: Time)
    requires Sound(db) && Judged(db, owner, c, verdicts) && AllResolvable(db, owner, confirmed, verdicts, now)
    ensures AllVerdictsReady(db, owner, confirmed, verdicts)
  {
    forall id | id in verdicts ensures VerdictReady(db, owner, confirmed, verdicts[id], id) {
      assert ResolvableAt(db, owner, confirmed, verdicts[id], id, now) && OpenMember(db.live, c, id);
      StoredIsHonest(db, id);
    }
  }

  lemma ResolvableByKey(db: Db, body: Body, owner: Owner, now: Time)
    requires body.ResolveConflict? && owner.branch in db.live.branches
    ensures Resolvable(db, body, owner, now) <==>
            && body.conflict in db.live.conflicts && db.live.conflicts[body.conflict].owner == owner
            && db.live.conflicts[body.conflict].Open()
            && StoredMemberIds(db.live.members, body.conflict) == VerdictOf(body.verdicts).Keys
            && AllResolvable(db, owner, body.userConfirmed, VerdictOf(body.verdicts), now)
  {
  }

  lemma WhenJudged(db: Db, body: Body, owner: Owner)
    requires Sound(db) && body.ResolveConflict? && WellFormed(body)
    requires body.conflict in db.live.conflicts && db.live.conflicts[body.conflict].owner == owner
             && db.live.conflicts[body.conflict].Open()
    requires StoredMemberIds(db.live.members, body.conflict) == VerdictOf(body.verdicts).Keys
    ensures Judged(db, owner, body.conflict, VerdictOf(body.verdicts)) && |VerdictOf(body.verdicts)| >= 2
  {
    LogIsSound(db);
    VerdictKeys(body.verdicts);
    VerdictValues(body.verdicts);
    StoredMembers(db.live.members, body.conflict);
    forall id | id in VerdictOf(body.verdicts)
      ensures (body.conflict, id) in db.live.members && VerdictOf(body.verdicts)[id] in body.verdicts
    {
      assert id in VerdictOf(body.verdicts).Keys;
    }
  }

  lemma ResolveAccepts(db: Db, principal: Principal, command: Command, ids: Identities, now: Time)
    requires Sound(db) && Admitted(db, principal, command, ids) && command.body.ResolveConflict?
    ensures var owner, proposed := Gate(db, principal, command).value, Proposed(db, principal, command, ids, now);
            && (proposed.Some? && Fold(db.live, proposed.value).Some? <==> Resolvable(db, command.body, owner, now))
            && (proposed.Some? ==> EndpointsLocal(db.live, proposed.value))
            && (proposed.Some? ==>
                  && Judged(db, owner, command.body.conflict, VerdictOf(command.body.verdicts))
                  && VerdictOf(command.body.verdicts).Keys <= db.live.memories.Keys
                  && proposed.value.payload == ResolvingPayload(db, command.body, now))
  {
    var owner, body := Gate(db, principal, command).value, command.body;
    var verdicts := VerdictOf(body.verdicts);
    ResolvePreparesExactly(db, body, owner, now);
    ResolvableByKey(db, body, owner, now);
    if PrepareResolve(db, body, owner, now).Ok? {
      WhenJudged(db, body, owner);
      ResolvePreparesThis(db, body, owner, now);
      ProposedIsEnveloped(db, principal, command, ids, now);
      var e := Proposed(db, principal, command, ids, now).value;
      RowsAreShaped(db, verdicts.Keys);
      JudgedRows(db, owner, e, body.conflict, verdicts, body.userConfirmed, Ascending(verdicts.Keys));
      ResolvingFolds(db, body, owner, e, verdicts);
    }
    ResolvablePrepares(db, body, owner, now);
  }

  lemma ResolvablePrepares(db: Db, body: Body, owner: Owner, now: Time)
    requires Sound(db) && body.ResolveConflict? && WellFormed(body)
    ensures Resolvable(db, body, owner, now) ==> PrepareResolve(db, body, owner, now).Ok?
  {
    if Resolvable(db, body, owner, now) {
      ResolvableByKey(db, body, owner, now);
      WhenJudged(db, body, owner);
      ResolvableIsReady(db, owner, body.conflict, VerdictOf(body.verdicts), body.userConfirmed, now);
      ResolvePreparesExactly(db, body, owner, now);
    }
  }

  lemma ResolvedOn(p: Projection, e: Event, ids: seq<Uuid>, target: map<Uuid, Status>, now: Time)
    requires MembersSound(p) && e.payload.Resolved? && Fold(p, e).Some?
    requires Sorted(ids) && forall id :: id in ids ==> id in p.memories && id in target
    requires e.payload.affected == Moved(ids, p.memories, target, now)
    ensures var q, c := Fold(p, e).value, e.payload.conflict;
            && q.conflicts == p.conflicts[c.id := c] && !c.Open() && q.members.Keys == p.members.Keys
            && q.memories.Keys == p.memories.Keys
            && (forall id :: id in p.memories && id !in ids ==> q.memories[id] == p.memories[id])
            && (forall id :: id in ids ==> q.memories[id] == Restated(p.memories[id], target[id], now))
  {
    ResolvedTables(p, e);
    MovedProperties(ids, p.memories, target, now);
    MovedWritten(p, e, ids, target, now);
  }

  lemma ResolvingCarried(db: Db, relay: bool, body: Body, owner: Owner, now: Time, e: Event)
    requires Sound(db) && body.ResolveConflict? && Resolvable(db, body, owner, now)
    requires var keys := VerdictOf(body.verdicts).Keys;
             keys <= db.live.memories.Keys && forall id :: id in keys ==> (body.conflict, id) in db.live.members
    requires e.payload == ResolvingPayload(db, body, now)
    ensures ImagesCarried(relay, e.payload) <==> BelowTop(db.live.memories, VerdictOf(body.verdicts).Keys)
  {
    var verdicts := VerdictOf(body.verdicts);
    forall id | id in verdicts ensures db.live.memories[id].id == id && !IsSealed(db.live.memories[id]) {
      StoredIsHonest(db, id);
    }
    MovesCarried(relay, e.payload, Ascending(verdicts.Keys), verdicts.Keys, db.live.memories, StatusesOf(verdicts),
      now);
  }

  /** Resolving succeeds exactly on a resolvable conflict with no member of the highest sensitivity. The conflict is
      then closed with the same members, each of them in the status its verdict names one revision on, and no other
      memory has changed. */
  lemma ResolveSucceedsExactly(db: Db, principal: Principal, command: Command, ids: Identities, now: Time)
    requires Sound(db) && Admitted(db, principal, command, ids) && command.body.ResolveConflict?
    ensures var (response, next) := Attempt(db, principal, command, ids, now);
            var owner, c, verdicts := Gate(db, principal, command).value, command.body.conflict,
                VerdictOf(command.body.verdicts);
            && (response.Success? <==>
                 Resolvable(db, command.body, owner, now) && BelowTop(db.live.memories, verdicts.Keys))
            && (response.Success? ==>
                  && c in next.live.conflicts && next.live.conflicts == db.live.conflicts[c := next.live.conflicts[c]]
                  && !next.live.conflicts[c].Open() && next.live.members.Keys == db.live.members.Keys
                  && next.live.memories.Keys == db.live.memories.Keys
                  && (forall id :: id in db.live.memories && id !in verdicts ==>
                       next.live.memories[id] == db.live.memories[id])
                  && (forall id :: id in verdicts ==>
                        id in db.live.memories && next.live.memories[id]
                          == Restated(db.live.memories[id], verdicts[id].status, now)))
  {
    AdmittedSucceeds(db, principal, command, ids, now);
    ResolveAccepts(db, principal, command, ids, now);
    var proposed := Proposed(db, principal, command, ids, now);
    if proposed.Some? && Fold(db.live, proposed.value).Some? {
      LogIsSound(db);
      ResolvingCarried(db, OverRelay(db.directory, principal), command.body, Gate(db, principal, command).value, now,
        proposed.value);
      ResolvingEffect(db, command.body, now, proposed.value);
    }
  }

  lemma ResolvingEffect(db: Db, body: Body, now: Time, e: Event)
    requires MembersSound(db.live) && body.ResolveConflict? && body.conflict in db.live.conflicts
    requires var keys := VerdictOf(body.verdicts).Keys;
             keys <= db.live.memories.Keys && forall id :: id in keys ==> (body.conflict, id) in db.live.members
    requires e.payload == ResolvingPayload(db, body, now) && Fold(db.live, e).Some?
    ensures var q, verdicts := Fold(db.live, e).value, VerdictOf(body.verdicts);
            && q.conflicts == db.live.conflicts[body.conflict := e.payload.conflict] && !e.payload.conflict.Open()
            && q.members.Keys == db.live.members.Keys && q.memories.Keys == db.live.memories.Keys
            && (forall id :: id in db.live.memories && id !in verdicts ==> q.memories[id] == db.live.memories[id])
            && (forall id :: id in verdicts ==>
                  id in db.live.memories && q.memories[id] == Restated(db.live.memories[id], verdicts[id].status, now))
  {
    var verdicts := VerdictOf(body.verdicts);
    var ids := Ascending(verdicts.Keys);
    ResolvedOn(db.live, e, ids, StatusesOf(verdicts), now);
    assert forall id :: id in ids <==> id in verdicts;
  }
}
