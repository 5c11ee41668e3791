/** Properties of every log the reducer accepts, and of the logs the command processors write.

    The reducer by itself counts revisions. Three further rules are added by the command
    processors when they build an event (`Disciplined`); with them disputes, terminal
    statuses and deadlines behave as one machine over whole logs.
 */
module FoldInvariants {
  import opened Domain
  import opened Folding

  // ---------------------------------------------------------------- revisions count events

  /** How many events of a log write memory `id`. */
  function Touches(log: seq<Event>, id: Uuid): nat
    decreases |log|
  {
    if log == [] then 0
    else Touches(log[..|log| - 1], id) + (if id in Touched(log[|log| - 1].payload) then 1 else 0)
  }

  /** Rebuilding a log gives each memory the revision that counts the events that wrote it. */
  lemma {:induction false} RevisionCountsEvents(branches: map<Uuid, Branch>, log: seq<Event>, id: Uuid)
    requires Rebuild(branches, log).Some?
    ensures var p := Rebuild(branches, log).value;
            && p.sequence == |log|
            && p.branches == branches
            && (id in p.memories <==> Touches(log, id) > 0)
            && (id in p.memories ==> p.memories[id].revision == Touches(log, id) && p.memories[id].id == id)
    decreases |log|
  {
    if log != [] {
      var init := log[..|log| - 1];
      RevisionCountsEvents(branches, init, id);
      var p := Rebuild(branches, init).value;
      var e := log[|log| - 1];
      FoldMemories(p, e);
      if id in Touched(e.payload) {
        var m :| m in AfterImages(e.payload) && m.id == id;
        assert MemoryStep(p.memories, e, m);
      }
    }
  }

  /** The last event of an accepted log was folded over what the rest rebuilds to. */
  lemma LastStep(branches: map<Uuid, Branch>, log: seq<Event>)
    requires log != [] && Rebuild(branches, log).Some?
    ensures Rebuild(branches, log[..|log| - 1]).Some?
    ensures Fold(Rebuild(branches, log[..|log| - 1]).value, log[|log| - 1]) == Rebuild(branches, log)
  {
  }

  /** A prefix of an accepted log is accepted. */
  lemma {:induction false} PrefixRebuilds(branches: map<Uuid, Branch>, log: seq<Event>, n: nat)
    requires n <= |log|
    requires Rebuild(branches, log).Some?
    ensures Rebuild(branches, log[..n]).Some?
    decreases |log| - n
  {
    if n == |log| {
      assert log[..n] == log;
    } else {
      PrefixRebuilds(branches, log, n + 1);
      assert log[..n + 1][..n] == log[..n];
    }
  }

  /** The revision an event's after-image of `id` replaces. */
  function PreviousRevision(payload: Payload, id: Uuid): int {
    match payload
    case Created(_, _) => 0
    case Transition(previous, _) => previous
    case Lifecycle(previous, _, _, _) => previous
    case Tombstone(previous, _, _) => previous
    case Linked(_) => 0
    case Opened(_, _, affected) => PreviousIn(affected, id)
    case Resolved(_, _, affected) => PreviousIn(affected, id)
  }

  function PreviousIn(affected: seq<Affected>, id: Uuid): int
    decreases |affected|
  {
    if affected == [] then 0
    else if affected[0].memory.id == id then affected[0].previous
    else PreviousIn(affected[1..], id)
  }

  lemma {:induction false} PreviousInIsStored(memories: map<Uuid, Memory>, e: Event, affected: seq<Affected>, id: Uuid)
    requires ApplyAffected(memories, e, affected).Some?
    requires id in AffectedIds(affected)
    ensures id in memories && PreviousIn(affected, id) == memories[id].revision
    decreases |affected|
  {
    ApplyAffectedStep(memories, e, affected);
    var a := affected[0];
    if a.memory.id == id {
      assert a in affected;
    } else {
      assert affected == [a] + affected[1..];
      assert id in AffectedIds(affected[1..]);
      PreviousInIsStored(memories[a.memory.id := a.memory], e, affected[1..], id);
    }
  }

  /** An accepted event names, for each memory it writes, the number of events that wrote it before. */
  lemma PreviousCountsEvents(branches: map<Uuid, Branch>, log: seq<Event>, i: nat, id: Uuid)
    requires Rebuild(branches, log).Some?
    requires i < |log| && id in Touched(log[i].payload)
    ensures PreviousRevision(log[i].payload, id) == Touches(log[..i], id)
  {
    EventWasFolded(branches, log, i);
    RevisionCountsEvents(branches, log[..i], id);
    PreviousIsStored(Rebuild(branches, log[..i]).value, log[i], id);
  }

  /** Every event of an accepted log was folded over what the events before it rebuild to. */
  lemma EventWasFolded(branches: map<Uuid, Branch>, log: seq<Event>, i: nat)
    requires Rebuild(branches, log).Some? && i < |log|
    ensures Rebuild(branches, log[..i]).Some? && Fold(Rebuild(branches, log[..i]).value, log[i]).Some?
  {
    PrefixAndNext(log, i);
    FoldedAfter(branches, log, log[..i], log[i]);
  }

  lemma PrefixAndNext(log: seq<Event>, i: nat)
    requires i < |log|
    ensures log[..i] + [log[i]] <= log
  {
  }

  lemma {:induction false} FoldedAfter(branches: map<Uuid, Branch>, log: seq<Event>, before: seq<Event>, e: Event)
    requires Rebuild(branches, log).Some? && before + [e] <= log
    ensures Rebuild(branches, before).Some? && Fold(Rebuild(branches, before).value, e).Some?
    decreases |log|
  {
    var init := log[..|log| - 1];
    LastStep(branches, log);
    if |before| == |init| {
      assert before == init && e == log[|log| - 1];
    } else {
      FoldedAfter(branches, init, before, e);
    }
  }

  lemma PreviousIsStored(p: Projection, e: Event, id: Uuid)
    requires Fold(p, e).Some? && id in Touched(e.payload)
    ensures PreviousRevision(e.payload, id) == if id in p.memories then p.memories[id].revision else 0
  {
    match e.payload {
      case Opened(_, _, affected) =>
        AffectedImages(affected);
        PreviousInIsStored(p.memories, e, affected, id);
      case Resolved(_, _, affected) =>
        AffectedImages(affected);
        PreviousInIsStored(p.memories, e, affected, id);
      case _ =>
    }
  }

  lemma {:induction false} TouchesGrow(log: seq<Event>, i: nat, j: nat, id: Uuid)
    requires i < j <= |log| && id in Touched(log[i].payload)
    ensures Touches(log[..i], id) < Touches(log[..j], id)
    decreases j
  {
    assert log[..j][..j - 1] == log[..j - 1];
    if j > i + 1 {
      TouchesGrow(log, i, j - 1, id);
    }
  }

  /** No lost update: two events of one accepted log never replace the same revision of a memory. */
  lemma NoLostUpdate(branches: map<Uuid, Branch>, log: seq<Event>, i: nat, j: nat, id: Uuid)
    requires Rebuild(branches, log).Some?
    requires i < j < |log|
    requires id in Touched(log[i].payload) && id in Touched(log[j].payload)
    ensures PreviousRevision(log[i].payload, id) < PreviousRevision(log[j].payload, id)
  {
    PreviousCountsEvents(branches, log, i, id);
    PreviousCountsEvents(branches, log, j, id);
    TouchesGrow(log, i, j, id);
  }

  // ---------------------------------------------------------------- what the command processors add

  /** Rules the processors apply on top of the reducer: a revision keeps the status, and a disputed
      memory is neither retired nor tombstoned. */
  ghost predicate Disciplined(memories: map<Uuid, Memory>, e: Event) {
    forall m :: m in AfterImages(e.payload) && m.id in memories ==>
      && (e.operation == Revised ==> m.status == memories[m.id].status)
      && (e.operation == RetiredEvent || e.operation == TombstonedEvent ==> memories[m.id].status != Disputed)
  }

  /** A log in which every event is disciplined where it was appended. */
  ghost predicate DisciplinedLog(branches: map<Uuid, Branch>, log: seq<Event>)
    decreases |log|
  {
    log == [] ||
    (var init := log[..|log| - 1];
     && DisciplinedLog(branches, init)
     && Rebuild(branches, init).Some?
     && Disciplined(Rebuild(branches, init).value.memories, log[|log| - 1]))
  }

  // ---------------------------------------------------------------- evidence

  /** Every row of evidence is stored under its id and names a stored memory of the same owner that is not forgotten. */
  ghost predicate EvidenceSound(p: Projection) {
    forall k :: k in p.evidence ==>
      && p.evidence[k].id == k && p.evidence[k].memory in p.memories
      && p.memories[p.evidence[k].memory].owner == p.evidence[k].owner
      && p.memories[p.evidence[k].memory].status != Tombstoned
  }

  /** One event keeps every row of evidence, and what it adds is about the memory it writes. */
  lemma FoldEvidence(p: Projection, q: Projection, e: Event)
    requires Fold(p, e) == Some(q)
    ensures q.evidence == PutEvidence(p.evidence, NewEvidence(e.payload)) && EvidenceAllowed(p.evidence, e)
  {
  }

  lemma RowsKept(table: map<Uuid, Evidence>, e: Event)
    requires EvidenceAllowed(table, e)
    ensures forall k :: k in table ==>
            k in PutEvidence(table, NewEvidence(e.payload)) && PutEvidence(table, NewEvidence(e.payload))[k] == table[k]
    ensures forall k :: k in PutEvidence(table, NewEvidence(e.payload)) && k !in table ==>
              var x := PutEvidence(table, NewEvidence(e.payload))[k];
              x.id == k && x.owner == e.owner && AfterImages(e.payload) == [e.payload.memory]
                && x.memory == e.payload.memory.id
  {
    PutEvidenceKeys(table, NewEvidence(e.payload));
  }

  /** A memory that is written with evidence, or had some, is not turned into a tombstone. */
  lemma EvidencedStays(p: Projection, q: Projection, e: Event, k: Uuid)
    requires EvidenceSound(p) && Fold(p, e) == Some(q) && k in p.evidence
    ensures var id := p.evidence[k].memory;
            id in q.memories && q.memories[id].owner == p.evidence[k].owner && q.memories[id].status != Tombstoned
  {
    FoldMemories(p, e);
    FoldEvidence(p, q, e);
    var id := p.evidence[k].memory;
    if id in Touched(e.payload) {
      var m :| m in AfterImages(e.payload) && m.id == id;
      ImageOfEvidenced(p.memories, p.evidence, e, m, k);
    }
  }

  lemma ImageOfEvidenced(memories: map<Uuid, Memory>, table: map<Uuid, Evidence>, e: Event, m: Memory, k: Uuid)
    requires ValidEnvelope(e) && EvidenceAllowed(table, e) && MemoryStep(memories, e, m)
    requires m in AfterImages(e.payload) && k in table && table[k].memory == m.id && m.id in memories
    requires memories[m.id].owner == table[k].owner && memories[m.id].status != Tombstoned
    ensures m.owner == table[k].owner && m.status != Tombstoned
  {
  }

  lemma NewRowsFit(p: Projection, q: Projection, e: Event)
    requires Fold(p, e) == Some(q) && NewEvidence(e.payload) != []
    ensures var m := e.payload.memory;
            AfterImages(e.payload) == [m] && m.id in q.memories && q.memories[m.id].owner == e.owner
              && q.memories[m.id].status != Tombstoned
  {
    FoldMemories(p, e);
    FoldIsPayload(p, q, e);
    assert MemoryStep(p.memories, e, e.payload.memory);
  }

  lemma FoldKeepsEvidence(p: Projection, q: Projection, e: Event)
    requires EvidenceSound(p) && Fold(p, e) == Some(q)
    ensures EvidenceSound(q)
  {
    FoldEvidence(p, q, e);
    RowsKept(p.evidence, e);
    if NewEvidence(e.payload) != [] { NewRowsFit(p, q, e); }
    forall k | k in q.evidence
      ensures q.evidence[k].id == k && q.evidence[k].memory in q.memories
      ensures q.memories[q.evidence[k].memory].owner == q.evidence[k].owner
              && q.memories[q.evidence[k].memory].status != Tombstoned
    {
      if k in p.evidence { EvidencedStays(p, q, e, k); }
    }
  }

  /** Over every accepted log the evidence table is sound: no memory with evidence is forgotten. */
  lemma {:induction false} EvidenceIsSound(branches: map<Uuid, Branch>, log: seq<Event>)
    requires Rebuild(branches, log).Some?
    ensures EvidenceSound(Rebuild(branches, log).value)
    decreases |log|
  {
    if log != [] {
      LastStep(branches, log);
      EvidenceIsSound(branches, log[..|log| - 1]);
      FoldKeepsEvidence(Rebuild(branches, log[..|log| - 1]).value, Rebuild(branches, log).value, log[|log| - 1]);
    }
  }

  // ---------------------------------------------------------------- disputes

  ghost predicate OpenMember(p: Projection, c: Uuid, id: Uuid) {
    (c, id) in p.members && c in p.conflicts && p.conflicts[c].Open()
  }

  /** Membership rows point at stored conflicts and memories, and every conflict is stored under its id. */
  ghost predicate MembersSound(p: Projection) {
    && (forall k :: k in p.members ==> k.0 in p.conflicts && k.1 in p.memories)
    && (forall c :: c in p.conflicts ==> p.conflicts[c].id == c)
    && (forall id :: id in p.memories ==> p.memories[id].id == id)
  }

  /** A memory is disputed exactly when it belongs to an open conflict, and then to one only. */
  ghost predicate DisputesSound(p: Projection) {
    && MembersSound(p)
    && (forall c, id :: OpenMember(p, c, id) ==> p.memories[id].status == Disputed)
    && (forall id :: id in p.memories && p.memories[id].status == Disputed ==> exists c :: OpenMember(p, c, id))
    && (forall c, d, id :: OpenMember(p, c, id) && OpenMember(p, d, id) ==> c == d)
  }

  lemma {:induction false} PutMembersKeys(table: map<(Uuid, Uuid), Member>, members: seq<Member>, c: Uuid)
    requires forall m :: m in members ==> m.conflict == c
    ensures var q := PutMembers(table, members);
            && (forall k :: k in q <==> k in table || (k.0 == c && k.1 in MemberIds(members)))
            && (forall k :: k in table && !(k.0 == c && k.1 in MemberIds(members)) ==> q[k] == table[k])
    decreases |members|
  {
    if members != [] {
      var m := members[0];
      assert members == [m] + members[1..];
      assert MemberIds(members) == {m.memory} + MemberIds(members[1..]);
      PutMembersKeys(table[(m.conflict, m.memory) := m], members[1..], c);
    }
  }

  /** Opening a conflict over undisputed memories keeps disputes sound. */
  lemma DisputesAfterOpening(p: Projection, q: Projection, c: Uuid, ids: set<Uuid>)
    requires DisputesSound(p) && MembersSound(q)
    requires c !in p.conflicts && c in q.conflicts && q.conflicts[c].Open()
    requires forall k :: k != c ==>
             (k in q.conflicts <==> k in p.conflicts) && (k in p.conflicts ==> q.conflicts[k] == p.conflicts[k])
    requires forall k :: k in q.members <==> k in p.members || (k.0 == c && k.1 in ids)
    requires q.memories.Keys == p.memories.Keys && ids <= p.memories.Keys
    requires forall id :: id in ids ==> q.memories[id].status == Disputed && p.memories[id].status != Disputed
    requires forall id :: id in p.memories && id !in ids ==> q.memories[id] == p.memories[id]
    ensures DisputesSound(q)
  {
    forall k, id | OpenMember(q, k, id)
      ensures q.memories[id].status == Disputed
      ensures k == c ==> id in ids
      ensures k != c ==> OpenMember(p, k, id) && id !in ids
    {
      if k != c { assert OpenMember(p, k, id); }
    }
    forall id | id in q.memories && q.memories[id].status == Disputed ensures exists k :: OpenMember(q, k, id) {
      if id in ids {
        assert OpenMember(q, c, id);
      } else {
        var k :| OpenMember(p, k, id);
        assert OpenMember(q, k, id);
      }
    }
  }

  /** Statuses of the memories a conflict event writes. */
  lemma AffectedStatuses(memories: map<Uuid, Memory>, e: Event, affected: seq<Affected>)
    requires ApplyAffected(memories, e, affected).Some?
    requires e.operation == ConflictOpened || e.operation == ConflictResolved
    requires forall id :: id in memories ==> memories[id].id == id
    ensures var q, ids := ApplyAffected(memories, e, affected).value, AffectedIds(affected);
            && q.Keys == memories.Keys && ids <= memories.Keys
            && (forall id :: id in memories && id !in ids ==> q[id] == memories[id])
            && (forall id :: id in ids ==> (q[id].status == Disputed <==> e.operation == ConflictOpened))
            && (forall id :: id in ids ==> (memories[id].status == Disputed <==> e.operation == ConflictResolved))
            && (forall id :: id in q ==> q[id].id == id)
  {
    ApplyAffectedStep(memories, e, affected);
    var q := ApplyAffected(memories, e, affected).value;
    forall id | id in AffectedIds(affected)
      ensures id in memories && q[id].id == id
      ensures q[id].status == Disputed <==> e.operation == ConflictOpened
      ensures memories[id].status == Disputed <==> e.operation == ConflictResolved
    {
      var a :| a in affected && a.memory.id == id;
      assert MemoryStep(memories, e, a.memory);
    }
  }

  lemma OpenedRows(p: Projection, e: Event, c: Conflict, members: seq<Member>, affected: seq<Affected>)
    requires MembersSound(p) && e.operation == ConflictOpened && MembersShape(c, members)
    requires FoldOpened(p, e, c, members, affected).Some?
    ensures var q, ids := FoldOpened(p, e, c, members, affected).value, AffectedIds(affected);
            && MembersSound(q)
            && c.id !in p.conflicts && c.Open() && q.conflicts == p.conflicts[c.id := c]
            && (forall k :: k in q.members <==> k in p.members || (k.0 == c.id && k.1 in ids))
            && q.memories.Keys == p.memories.Keys && ids <= p.memories.Keys
            && (forall id :: id in ids ==> q.memories[id].status == Disputed && p.memories[id].status != Disputed)
            && (forall id :: id in p.memories && id !in ids ==> q.memories[id] == p.memories[id])
  {
    AffectedStatuses(p.memories, e, affected);
    PutMembersKeys(p.members, members, c.id);
    assert AffectedIds(affected) == MemberIds(members);
  }

  /** What an accepted opening does to the three tables. */
  lemma OpenedTables(p: Projection, e: Event)
    requires MembersSound(p) && e.payload.Opened? && Fold(p, e).Some?
    ensures var q, c, ids := Fold(p, e).value, e.payload.conflict, AffectedIds(e.payload.affected);
            && MembersSound(q)
            && c.id !in p.conflicts && c.Open() && q.conflicts == p.conflicts[c.id := c]
            && (forall k :: k in q.members <==> k in p.members || (k.0 == c.id && k.1 in ids))
            && q.memories.Keys == p.memories.Keys && ids <= p.memories.Keys
            && (forall id :: id in ids ==> q.memories[id].status == Disputed && p.memories[id].status != Disputed)
            && (forall id :: id in p.memories && id !in ids ==> q.memories[id] == p.memories[id])
  {
    var c, members, affected := e.payload.conflict, e.payload.members, e.payload.affected;
    assert MembersShape(c, members) && FoldOpened(p, e, c, members, affected).Some?;
    var q := FoldOpened(p, e, c, members, affected).value;
    OpenedRows(p, e, c, members, affected);
    var f := Fold(p, e).value;
    assert f.memories == q.memories && f.conflicts == q.conflicts && f.members == q.members;
  }

  lemma OpenedKeepsDisputes(p: Projection, e: Event)
    requires DisputesSound(p) && e.payload.Opened? && Fold(p, e).Some?
    ensures DisputesSound(Fold(p, e).value)
  {
    OpenedTables(p, e);
    DisputesAfterOpening(p, Fold(p, e).value, e.payload.conflict.id, AffectedIds(e.payload.affected));
  }

  /** Settling every member of one open conflict keeps disputes sound. */
  lemma DisputesAfterResolving(p: Projection, q: Projection, c: Uuid, ids: set<Uuid>)
    requires DisputesSound(p) && MembersSound(q)
    requires c in p.conflicts && p.conflicts[c].Open() && c in q.conflicts && !q.conflicts[c].Open()
    requires forall k :: k != c ==>
             (k in q.conflicts <==> k in p.conflicts) && (k in p.conflicts ==> q.conflicts[k] == p.conflicts[k])
    requires q.members.Keys == p.members.Keys
    requires forall id :: id in ids <==> (c, id) in p.members
    requires q.memories.Keys == p.memories.Keys && ids <= p.memories.Keys
    requires forall id :: id in ids ==> q.memories[id].status != Disputed
    requires forall id :: id in p.memories && id !in ids ==> q.memories[id] == p.memories[id]
    ensures DisputesSound(q)
  {
    forall k, id | OpenMember(q, k, id)
      ensures OpenMember(p, k, id) && q.memories[id].status == Disputed
    {
      assert OpenMember(p, k, id);
      assert OpenMember(p, c, id) <==> id in ids;
    }
    forall id | id in q.memories && q.memories[id].status == Disputed ensures exists k :: OpenMember(q, k, id) {
      var k :| OpenMember(p, k, id);
      assert OpenMember(q, k, id);
    }
  }

  lemma ResolvedMemberRows(table: map<(Uuid, Uuid), Member>, members: seq<Member>, c: Uuid)
    requires forall m :: m in members ==> m.conflict == c
    requires StoredMemberIds(table, c) == MemberIds(members)
    ensures PutMembers(table, members).Keys == table.Keys
    ensures forall id :: id in MemberIds(members) <==> (c, id) in table
  {
    PutMembersKeys(table, members, c);
    StoredMembers(table, c);
  }

  lemma ResolvedRows(p: Projection, e: Event, c: Conflict, members: seq<Member>, affected: seq<Affected>)
    requires MembersSound(p) && e.operation == ConflictResolved && MembersShape(c, members)
    requires FoldResolved(p, e, c, members, affected).Some?
    ensures var q, ids := FoldResolved(p, e, c, members, affected).value, AffectedIds(affected);
            && MembersSound(q)
            && c.id in p.conflicts && p.conflicts[c.id].Open() && !c.Open() && q.conflicts == p.conflicts[c.id := c]
            && q.members.Keys == p.members.Keys
            && (forall id :: id in ids <==> (c.id, id) in p.members)
            && q.memories.Keys == p.memories.Keys && ids <= p.memories.Keys
            && (forall id :: id in ids ==> q.memories[id].status != Disputed)
            && (forall id :: id in p.memories && id !in ids ==> q.memories[id] == p.memories[id])
  {
    AffectedStatuses(p.memories, e, affected);
    ResolvedMemberRows(p.members, members, c.id);
  }

  /** What an accepted resolution does to the three tables. */
  lemma ResolvedTables(p: Projection, e: Event)
    requires MembersSound(p) && e.payload.Resolved? && Fold(p, e).Some?
    ensures var q, c, ids := Fold(p, e).value, e.payload.conflict, AffectedIds(e.payload.affected);
            && MembersSound(q)
            && c.id in p.conflicts && p.conflicts[c.id].Open() && !c.Open() && q.conflicts == p.conflicts[c.id := c]
            && q.members.Keys == p.members.Keys
            && (forall id :: id in ids <==> (c.id, id) in p.members)
            && q.memories.Keys == p.memories.Keys && ids <= p.memories.Keys
            && (forall id :: id in ids ==> q.memories[id].status != Disputed)
            && (forall id :: id in p.memories && id !in ids ==> q.memories[id] == p.memories[id])
  {
    var c, members, affected := e.payload.conflict, e.payload.members, e.payload.affected;
    assert MembersShape(c, members) && FoldResolved(p, e, c, members, affected).Some?;
    var q := FoldResolved(p, e, c, members, affected).value;
    ResolvedRows(p, e, c, members, affected);
    var f := Fold(p, e).value;
    assert f.memories == q.memories && f.conflicts == q.conflicts && f.members == q.members;
  }

  lemma ResolvedKeepsDisputes(p: Projection, e: Event)
    requires DisputesSound(p) && e.payload.Resolved? && Fold(p, e).Some?
    ensures DisputesSound(Fold(p, e).value)
  {
    ResolvedTables(p, e);
    DisputesAfterResolving(p, Fold(p, e).value, e.payload.conflict.id, AffectedIds(e.payload.affected));
  }

  lemma StoredMembers(table: map<(Uuid, Uuid), Member>, c: Uuid)
    ensures forall id :: id in StoredMemberIds(table, c) <==> (c, id) in table
  {
    forall id | (c, id) in table ensures id in StoredMemberIds(table, c) {
      var k := (c, id);
      assert k in table && k.0 == c && k.1 == id;
    }
  }

  /** Disputes depend only on the conflict tables and on which memories are disputed. */
  lemma DisputesUnmoved(p: Projection, q: Projection)
    requires DisputesSound(p)
    requires q.members == p.members && q.conflicts == p.conflicts
    requires p.memories.Keys <= q.memories.Keys
    requires forall id :: id in q.memories ==> q.memories[id].id == id
    requires forall id :: id in q.memories ==>
               (q.memories[id].status == Disputed <==> id in p.memories && p.memories[id].status == Disputed)
    ensures DisputesSound(q)
  {
    forall c, id ensures OpenMember(q, c, id) <==> OpenMember(p, c, id) {}
  }

  /** Outside conflict events, a disciplined event neither starts nor ends a dispute. */
  lemma SingleKeepsDisputed(p: Projection, e: Event, id: Uuid)
    requires Fold(p, e).Some? && Disciplined(p.memories, e) && !e.payload.Opened? && !e.payload.Resolved?
    requires forall k :: k in p.memories ==> p.memories[k].id == k
    requires id in Fold(p, e).value.memories
    ensures Fold(p, e).value.memories[id].id == id
    ensures Fold(p, e).value.memories[id].status == Disputed <==> id in p.memories && p.memories[id].status == Disputed
  {
    FoldMemories(p, e);
    if id in Touched(e.payload) {
      var m :| m in AfterImages(e.payload) && m.id == id;
      assert MemoryStep(p.memories, e, m);
    }
  }

  lemma SingleTables(p: Projection, e: Event)
    requires Fold(p, e).Some? && !e.payload.Opened? && !e.payload.Resolved?
    ensures var q := Fold(p, e).value;
            q.members == p.members && q.conflicts == p.conflicts && p.memories.Keys <= q.memories.Keys
  {
    FoldIsPayload(p, Fold(p, e).value, e);
    SinglePayloadTables(p, e);
  }

  lemma SinglePayloadTables(p: Projection, e: Event)
    requires ValidEnvelope(e) && FoldPayload(p, e).Some? && !e.payload.Opened? && !e.payload.Resolved?
    ensures var q := FoldPayload(p, e).value;
            q.members == p.members && q.conflicts == p.conflicts && p.memories.Keys <= q.memories.Keys
  {
    if Single(e.payload) { SingleMemories(p, e); }
  }

  lemma SingleKeepsDisputes(p: Projection, e: Event)
    requires DisputesSound(p) && Fold(p, e).Some? && Disciplined(p.memories, e)
    requires !e.payload.Opened? && !e.payload.Resolved?
    ensures DisputesSound(Fold(p, e).value)
  {
    var q := Fold(p, e).value;
    SingleTables(p, e);
    forall id | id in q.memories
      ensures q.memories[id].id == id
      ensures q.memories[id].status == Disputed <==> id in p.memories && p.memories[id].status == Disputed
    {
      SingleKeepsDisputed(p, e, id);
    }
    DisputesUnmoved(p, q);
  }

  lemma FoldKeepsDisputes(p: Projection, e: Event)
    requires DisputesSound(p) && Fold(p, e).Some? && Disciplined(p.memories, e)
    ensures DisputesSound(Fold(p, e).value)
  {
    if e.payload.Opened? { OpenedKeepsDisputes(p, e); }
    else if e.payload.Resolved? { ResolvedKeepsDisputes(p, e); }
    else { SingleKeepsDisputes(p, e); }
  }

  /** Over every disciplined log, a memory is disputed exactly when one open conflict names it. */
  lemma {:induction false} DisputesFollowConflicts(branches: map<Uuid, Branch>, log: seq<Event>)
    requires Rebuild(branches, log).Some? && DisciplinedLog(branches, log)
    ensures DisputesSound(Rebuild(branches, log).value)
    decreases |log|
  {
    if log != [] {
      DisputesFollowConflicts(branches, log[..|log| - 1]);
      FoldKeepsDisputes(Rebuild(branches, log[..|log| - 1]).value, log[|log| - 1]);
    }
  }

  /** Outside a resolution, a disciplined event leaves a disputed memory disputed. */
  lemma OtherEventsKeepDisputed(p: Projection, e: Event, id: Uuid)
    requires Fold(p, e).Some? && Disciplined(p.memories, e) && !e.payload.Resolved?
    requires id in p.memories && p.memories[id].status == Disputed
    ensures id in Fold(p, e).value.memories && Fold(p, e).value.memories[id].status == Disputed
  {
    FoldMemories(p, e);
    if id in Touched(e.payload) {
      var m :| m in AfterImages(e.payload) && m.id == id;
      assert MemoryStep(p.memories, e, m);
    }
  }

  /** A disputed memory stops being disputed only by the resolution of the open conflict that names it. */
  lemma DisputeEndsByResolution(p: Projection, e: Event, id: Uuid)
    requires DisputesSound(p) && Fold(p, e).Some? && Disciplined(p.memories, e)
    requires id in p.memories && p.memories[id].status == Disputed
    ensures id in Fold(p, e).value.memories
    ensures Fold(p, e).value.memories[id].status != Disputed <==>
            e.payload.Resolved? && OpenMember(p, e.payload.conflict.id, id)
  {
    if e.payload.Resolved? {
      ResolvedTables(p, e);
    } else {
      OtherEventsKeepDisputed(p, e, id);
    }
  }

  // ---------------------------------------------------------------- statuses only move forward

  /** Position of a status in a memory's life; only a tombstone is last. */
  function Stage(s: Status): nat {
    match s
    case Candidate => 0
    case Active => 1
    case Disputed => 1
    case Superseded => 2
    case Retired => 2
    case Tombstoned => 3
  }

  /** No move back: a settled status changes only into a tombstone, a tombstone is never written again, and nothing
      becomes a candidate. */
  predicate Onward(before: Memory, after: Memory) {
    && Stage(before.status) <= Stage(after.status)
    && (Stage(before.status) == 2 ==> after == before || after.status == Tombstoned)
    && (before.status == Tombstoned ==> after == before)
    && (before.status != Candidate ==> after.status != Candidate)
  }

  lemma ImageIsOnward(memories: map<Uuid, Memory>, e: Event, m: Memory)
    requires m in AfterImages(e.payload) && MemoryStep(memories, e, m) && Disciplined(memories, e) && m.id in memories
    ensures Onward(memories[m.id], m)
  {
  }

  /** One disciplined event never moves a memory back. */
  lemma StatusOnlyAdvances(p: Projection, e: Event, id: Uuid)
    requires Fold(p, e).Some? && Disciplined(p.memories, e)
    requires id in p.memories
    ensures id in Fold(p, e).value.memories && Onward(p.memories[id], Fold(p, e).value.memories[id])
  {
    FoldMemories(p, e);
    if id in Touched(e.payload) {
      var m :| m in AfterImages(e.payload) && m.id == id;
      ImageIsOnward(p.memories, e, m);
    }
  }

  /** `id` is promoted or expired by event `e`. */
  predicate LeavesCandidacy(e: Event, id: Uuid) {
    (e.operation == CandidatePromoted || e.operation == CandidateExpired) && id in Touched(e.payload)
  }

  lemma LifecycleNeedsCandidate(p: Projection, e: Event, id: Uuid)
    requires Fold(p, e).Some? && LeavesCandidacy(e, id)
    ensures id in p.memories && p.memories[id].status == Candidate
    ensures id in Fold(p, e).value.memories && Fold(p, e).value.memories[id].status != Candidate
  {
    FoldMemories(p, e);
    var m :| m in AfterImages(e.payload) && m.id == id;
    assert MemoryStep(p.memories, e, m);
  }

  lemma {:induction false} DisciplinedPrefix(branches: map<Uuid, Branch>, log: seq<Event>, n: nat)
    requires n <= |log| && DisciplinedLog(branches, log)
    ensures DisciplinedLog(branches, log[..n])
    decreases |log| - n
  {
    if n == |log| {
      assert log[..n] == log;
    } else {
      DisciplinedPrefix(branches, log, n + 1);
      assert log[..n + 1][..n] == log[..n];
    }
  }

  predicate NoCandidate(memories: map<Uuid, Memory>, id: Uuid) {
    id in memories && memories[id].status != Candidate
  }

  lemma StaysNoCandidate(p: Projection, q: Projection, e: Event, id: Uuid)
    requires Fold(p, e) == Some(q) && Disciplined(p.memories, e)
    requires NoCandidate(p.memories, id) || LeavesCandidacy(e, id)
    ensures NoCandidate(q.memories, id)
  {
    if NoCandidate(p.memories, id) { StatusOnlyAdvances(p, e, id); } else { LifecycleNeedsCandidate(p, e, id); }
  }

  predicate SettledIn(log: seq<Event>, id: Uuid) {
    exists i :: 0 <= i < |log| && LeavesCandidacy(log[i], id)
  }

  lemma SettledBeforeOrNow(log: seq<Event>, id: Uuid)
    requires SettledIn(log, id)
    ensures log != [] && (SettledIn(log[..|log| - 1], id) || LeavesCandidacy(log[|log| - 1], id))
  {
    var i :| 0 <= i < |log| && LeavesCandidacy(log[i], id);
    if i < |log| - 1 { assert log[..|log| - 1][i] == log[i]; }
  }

  /** Over every disciplined log, a memory that some event promoted or expired is no candidate. */
  lemma {:induction false} SettledStays(branches: map<Uuid, Branch>, log: seq<Event>, id: Uuid)
    requires Rebuild(branches, log).Some? && DisciplinedLog(branches, log) && SettledIn(log, id)
    ensures NoCandidate(Rebuild(branches, log).value.memories, id)
    decreases |log|
  {
    SettledBeforeOrNow(log, id);
    var init, e := log[..|log| - 1], log[|log| - 1];
    LastStep(branches, log);
    if SettledIn(init, id) { SettledStays(branches, init, id); }
    StaysNoCandidate(Rebuild(branches, init).value, Rebuild(branches, log).value, e, id);
  }

  /** Along a disciplined log a memory is promoted or expired at most once. */
  lemma AtMostOneLifecycleEvent(branches: map<Uuid, Branch>, log: seq<Event>, i: nat, j: nat, id: Uuid)
    requires Rebuild(branches, log).Some? && DisciplinedLog(branches, log)
    requires i < j < |log| && LeavesCandidacy(log[i], id)
    ensures !LeavesCandidacy(log[j], id)
  {
    EventWasFolded(branches, log, j);
    DisciplinedPrefix(branches, log, j);
    assert SettledIn(log[..j], id) by { assert log[..j][i] == log[i]; }
    SettledStays(branches, log[..j], id);
    if LeavesCandidacy(log[j], id) {
      LifecycleNeedsCandidate(Rebuild(branches, log[..j]).value, log[j], id);
    }
  }

  // ---------------------------------------------------------------- live fingerprints

  /** The partial unique index: two different live memories of one branch and subject never carry the same
      fingerprint. */
  predicate LiveUnique(memories: map<Uuid, Memory>) {
    forall a, b :: a in memories && b in memories && a != b ==> !SameLiveClaim(memories[a], memories[b])
  }

  predicate SameLiveClaim(a: Memory, b: Memory) {
    && Live(a.status) && Live(b.status)
    && a.owner == b.owner && a.subject == b.subject
    && a.fingerprint.Some? && a.fingerprint == b.fingerprint
  }

  /** Stored fingerprints are the claims of their memories; sealed memories and tombstones have none. */
  ghost predicate FingerprintsHonest(memories: map<Uuid, Memory>) {
    forall id :: id in memories ==>
      var m := memories[id];
      && m.id == id
      && WellShaped(m)
      && (!IsSealed(m) && m.status != Tombstoned ==> m.fingerprint == Some(ClaimOf(m)))
  }

  /** A write that cannot clash: it leaves the live set, or keeps the live claim it already had, or is the
      only write of its event and no other live memory has its claim. */
  ghost predicate SafeWrite(before: map<Uuid, Memory>, images: seq<Memory>, m: Memory) {
    || !Live(m.status)
    || (m.id in before && Live(before[m.id].status) && m.fingerprint == before[m.id].fingerprint
        && m.owner == before[m.id].owner && m.subject == before[m.id].subject)
    || (|images| == 1 && forall id :: id in before && id != m.id ==> !SameLiveClaim(before[id], m))
  }

  lemma NoClash(before: map<Uuid, Memory>, images: seq<Memory>, m: Memory, other: Memory)
    requires LiveUnique(before) && SafeWrite(before, images, m)
    requires other.id in before && before[other.id] == other && other.id != m.id
    ensures !SameLiveClaim(m, other)
  {
    assert m.id in before ==> !SameLiveClaim(before[m.id], before[other.id]);
  }

  /** Safe writes keep live fingerprints unique. */
  lemma UniqueAfterWrites(before: map<Uuid, Memory>, e: Event, after: map<Uuid, Memory>)
    requires LiveUnique(before) && MemoriesFollow(before, e, after)
    requires forall id :: id in before ==> before[id].id == id
    requires forall m :: m in AfterImages(e.payload) ==> SafeWrite(before, AfterImages(e.payload), m)
    ensures LiveUnique(after)
  {
    var images := AfterImages(e.payload);
    forall a, b | a in after && b in after && a != b ensures !SameLiveClaim(after[a], after[b]) {
      if a in Touched(e.payload) && b in Touched(e.payload) {
        var m :| m in images && m.id == a;
        var n :| n in images && n.id == b;
        assert SafeWrite(before, images, m) && SafeWrite(before, images, n);
        assert |images| != 1;
        assert a in before && b in before ==> !SameLiveClaim(before[a], before[b]);
      } else if a in Touched(e.payload) {
        var m :| m in images && m.id == a;
        NoClash(before, images, m, after[b]);
      } else if b in Touched(e.payload) {
        var n :| n in images && n.id == b;
        NoClash(before, images, n, after[a]);
      }
    }
  }
}
