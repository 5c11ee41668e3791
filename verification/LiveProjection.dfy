/** Live commands fold each event over the few rows it names and write back only those rows.
    This module defines that incremental path and shows that it computes exactly the fold over
    the whole projection.
 */
module LiveProjection {
  import opened Domain
  import opened Folding
  import opened FoldInvariants

  predicate SameLineage(a: Owner, b: Owner) {
    a.tenant == b.tenant && a.lineage == b.lineage
  }

  /** Memory rows the reducer may read for an event. */
  function Targets(payload: Payload): set<Uuid> {
    match payload
    case Created(m, _) => {m.id}
    case Transition(_, m) => {m.id}
    case Lifecycle(_, m, _, _) => {m.id}
    case Tombstone(_, m, _) => {m.id}
    case Linked(l) => {l.source, l.target}
    case Opened(_, members, affected) => AffectedIds(affected) + MemberIds(members)
    case Resolved(_, members, affected) => AffectedIds(affected) + MemberIds(members)
  }

  function ConflictTarget(payload: Payload): Option<Uuid> {
    match payload
    case Opened(c, _, _) => Some(c.id)
    case Resolved(c, _, _) => Some(c.id)
    case _ => None
  }

  /** Evidence rows loaded for an event: all those of a memory about to be forgotten, otherwise only rows under the
      identifiers the event wants to use. */
  predicate EvidenceWanted(payload: Payload, x: Evidence) {
    if payload.Tombstone? then x.memory == payload.memory.id
    else exists y :: y in NewEvidence(payload) && y.id == x.id
  }

  /** The minimal projection loaded for one event: its target rows within the event's tenant and lineage. */
  function LoadMinimal(p: Projection, e: Event): Projection
    requires e.owner.branch in p.branches
  {
    var conflict := ConflictTarget(e.payload);
    Projection(
      p.sequence,
      map id | id in Targets(e.payload) && id in p.memories && SameLineage(p.memories[id].owner, e.owner) ::
        p.memories[id],
      map id | id in p.evidence && EvidenceWanted(e.payload, p.evidence[id])
        && SameLineage(p.evidence[id].owner, e.owner) :: p.evidence[id],
      map id | id in p.links && e.payload.Linked? && id == e.payload.link.id
        && SameLineage(p.links[id].owner, e.owner) :: p.links[id],
      map id | id in p.conflicts && conflict == Some(id) && SameLineage(p.conflicts[id].owner, e.owner) ::
        p.conflicts[id],
      map k | k in p.members && conflict == Some(k.0) && k.0 in p.conflicts
        && SameLineage(p.conflicts[k.0].owner, e.owner) :: p.members[k],
      map[e.owner.branch := p.branches[e.owner.branch]],
      map id | id in p.eventScopes && e.causation == Some(id) && SameLineage(p.eventScopes[id], e.owner) ::
        p.eventScopes[id])
  }

  predicate EvidenceFree(table: map<Uuid, Evidence>, items: seq<Evidence>) {
    forall x :: x in items ==> x.id !in table
  }

  /** Primary keys and unique keys the writes of an event need to be free. */
  predicate InsertsFree(p: Projection, e: Event) {
    && e.id !in p.eventScopes
    && (match e.payload
        case Created(m, evidence) => m.id !in p.memories && EvidenceFree(p.evidence, evidence)
        case Lifecycle(_, _, _, evidence) => EvidenceFree(p.evidence, evidence)
        case Linked(l) => l.id !in p.links
        case Opened(c, members, _) =>
          c.id !in p.conflicts && forall m :: m in members ==> (m.conflict, m.memory) !in p.members
        case _ => true)
  }

  predicate LiveAccepts(p: Projection, e: Event) {
    && e.owner.branch in p.branches
    && InsertsFree(p, e)
    && Fold(LoadMinimal(p, e), e).Some?
  }

  /** Rows written back: the targets whose folded state differs from the loaded one. */
  function StagedMemories(rows: map<Uuid, Memory>, before: map<Uuid, Memory>, after: map<Uuid, Memory>,
      targets: set<Uuid>): map<Uuid, Memory> {
    map id | id in rows.Keys + (targets * after.Keys) ::
      if id in targets && id in after && !(id in before && before[id] == after[id]) then after[id]
      else if id in rows then rows[id]
      else after[id]
  }

  /** The live tables after staging one accepted event. */
  function Staged(p: Projection, e: Event): Projection
    requires LiveAccepts(p, e)
  {
    var before := LoadMinimal(p, e);
    var after := Fold(before, e).value;
    Projection(
      e.sequence,
      StagedMemories(p.memories, before.memories, after.memories, Targets(e.payload)),
      PutEvidence(p.evidence, NewEvidence(e.payload)),
      if e.payload.Linked? then p.links[e.payload.link.id := e.payload.link] else p.links,
      if e.payload.Opened? || e.payload.Resolved? then p.conflicts[e.payload.conflict.id := e.payload.conflict]
        else p.conflicts,
      if e.payload.Opened? || e.payload.Resolved? then PutMembers(p.members, e.payload.members) else p.members,
      p.branches,
      p.eventScopes[e.id := e.owner])
  }

  /** Link endpoints lie in the event's own tenant and lineage. The reducer alone does not ask for this;
      the row filter of the live path does. */
  predicate EndpointsLocal(p: Projection, e: Event) {
    e.payload.Linked? ==>
      && (e.payload.link.source in p.memories ==> SameLineage(p.memories[e.payload.link.source].owner, e.owner))
      && (e.payload.link.target in p.memories ==> SameLineage(p.memories[e.payload.link.target].owner, e.owner))
  }

  // ---------------------------------------------------------------- refinement

  /** Applying conflict transitions to the loaded rows succeeds exactly when it does on the whole table. */
  lemma {:induction false} AffectedOnRows(rows: map<Uuid, Memory>, table: map<Uuid, Memory>, e: Event,
      affected: seq<Affected>)
    requires forall id :: id in rows ==> id in table && rows[id] == table[id]
    requires forall a :: a in affected && a.memory.id in table && table[a.memory.id].owner == e.owner ==>
             a.memory.id in rows
    ensures ApplyAffected(rows, e, affected).Some? <==> ApplyAffected(table, e, affected).Some?
    decreases |affected|
  {
    if affected != [] {
      var a := affected[0];
      assert a in affected;
      if a.memory.id in rows && a.memory.owner == e.owner {
        AffectedOnRows(rows[a.memory.id := a.memory], table[a.memory.id := a.memory], e, affected[1..]);
      }
    }
  }

  /** Same verdict on the loaded rows and on the whole projection, payload by payload. */
  lemma SinglePayloadAgrees(p: Projection, e: Event)
    requires e.owner.branch in p.branches && ValidEnvelope(e)
    requires e.payload.Created? || e.payload.Transition? || e.payload.Lifecycle? || e.payload.Tombstone?
    requires InsertsFree(p, e)
    ensures FoldPayload(LoadMinimal(p, e), e).Some? <==> FoldPayload(p, e).Some?
    ensures FoldPayload(p, e).Some? ==>
              var m := e.payload.memory;
              && FoldPayload(p, e).value == p.(memories := p.memories[m.id := m])
              && FoldPayload(LoadMinimal(p, e), e).value.memories == LoadMinimal(p, e).memories[m.id := m]
  {
    var m := e.payload.memory;
    var rows := LoadMinimal(p, e).memories;
    assert m.id in rows ==> m.id in p.memories && rows[m.id] == p.memories[m.id];
    assert m.id in p.memories && p.memories[m.id].owner == e.owner ==> m.id in rows;
  }

  lemma LinkPayloadAgrees(p: Projection, e: Event)
    requires e.owner.branch in p.branches && ValidEnvelope(e) && e.payload.Linked?
    requires InsertsFree(p, e)
    ensures FoldPayload(LoadMinimal(p, e), e).Some? <==> FoldPayload(p, e).Some? && EndpointsLocal(p, e)
    ensures FoldPayload(LoadMinimal(p, e), e).Some? ==>
              FoldPayload(LoadMinimal(p, e), e).value.memories == LoadMinimal(p, e).memories
  {
    var l := e.payload.link;
    var rows := LoadMinimal(p, e).memories;
    assert l.source in rows <==> l.source in p.memories && SameLineage(p.memories[l.source].owner, e.owner);
    assert l.target in rows <==> l.target in p.memories && SameLineage(p.memories[l.target].owner, e.owner);
  }

  lemma ConflictRowsAgree(p: Projection, e: Event, affected: seq<Affected>)
    requires e.owner.branch in p.branches
    requires AffectedIds(affected) <= Targets(e.payload)
    ensures ApplyAffected(LoadMinimal(p, e).memories, e, affected).Some? <==>
            ApplyAffected(p.memories, e, affected).Some?
  {
    AffectedOnRows(LoadMinimal(p, e).memories, p.memories, e, affected);
  }

  lemma OpenPayloadAgrees(p: Projection, e: Event)
    requires e.owner.branch in p.branches && ValidEnvelope(e) && e.payload.Opened?
    requires InsertsFree(p, e)
    ensures FoldPayload(LoadMinimal(p, e), e).Some? <==> FoldPayload(p, e).Some?
    ensures FoldPayload(p, e).Some? ==>
              && ApplyAffected(p.memories, e, e.payload.affected).Some?
              && ApplyAffected(LoadMinimal(p, e).memories, e, e.payload.affected)
                   == Some(FoldPayload(LoadMinimal(p, e), e).value.memories)
  {
    ConflictRowsAgree(p, e, e.payload.affected);
  }

  lemma StoredMembersLoaded(p: Projection, e: Event)
    requires e.owner.branch in p.branches && e.payload.Resolved?
    requires e.payload.conflict.id in p.conflicts && SameLineage(p.conflicts[e.payload.conflict.id].owner, e.owner)
    ensures var c := e.payload.conflict.id;
            && StoredMemberIds(LoadMinimal(p, e).members, c) == StoredMemberIds(p.members, c)
            && (forall k :: k in LoadMinimal(p, e).members <==> k in p.members && k.0 == c)
            && (forall k :: k in LoadMinimal(p, e).members ==> LoadMinimal(p, e).members[k] == p.members[k])
  {
    var c := e.payload.conflict.id;
    var rows := LoadMinimal(p, e).members;
    assert forall k :: k in rows <==> k in p.members && k.0 == c;
    forall id ensures id in StoredMemberIds(rows, c) <==> id in StoredMemberIds(p.members, c) {
      StoredMembers(rows, c);
      StoredMembers(p.members, c);
      var k := (c, id);
      assert k in rows <==> k in p.members;
    }
  }

  lemma ResolvePayloadAgrees(p: Projection, e: Event)
    requires e.owner.branch in p.branches && ValidEnvelope(e) && e.payload.Resolved?
    requires MembersShape(e.payload.conflict, e.payload.members)
    ensures FoldPayload(LoadMinimal(p, e), e).Some? <==> FoldPayload(p, e).Some?
    ensures FoldPayload(p, e).Some? ==>
              && ApplyAffected(p.memories, e, e.payload.affected).Some?
              && ApplyAffected(LoadMinimal(p, e).memories, e, e.payload.affected)
                   == Some(FoldPayload(LoadMinimal(p, e), e).value.memories)
  {
    var c := e.payload.conflict.id;
    ConflictRowsAgree(p, e, e.payload.affected);
    if c in p.conflicts && SameLineage(p.conflicts[c].owner, e.owner) {
      StoredMembersLoaded(p, e);
    }
  }

  /** The live path accepts an event exactly when the reducer accepts it over the whole projection
      (and, for a link, when both endpoints are local). */
  lemma LiveAcceptsExactly(p: Projection, e: Event)
    requires MembersSound(p) && EvidenceSound(p)
    requires e.sequence == p.sequence + 1
    ensures LiveAccepts(p, e) <==> Fold(p, e).Some? && EndpointsLocal(p, e)
  {
    if e.owner.branch in p.branches && ValidEnvelope(e) && ValidPayload(e.payload) {
      FoldNeedsFreeKeys(p, e);
      if InsertsFree(p, e) {
        PayloadAgrees(p, e);
        AdmissibleAgrees(p, e);
        if FoldPayload(p, e).Some? { EvidenceAgrees(p, e); }
      }
    }
  }

  /** The loaded rows of evidence decide what all rows would. */
  lemma EvidenceAgrees(p: Projection, e: Event)
    requires EvidenceSound(p) && e.owner.branch in p.branches && InsertsFree(p, e)
    requires ValidEnvelope(e) && FoldPayload(p, e).Some?
    ensures EvidenceAllowed(LoadMinimal(p, e).evidence, e) <==> EvidenceAllowed(p.evidence, e)
  {
    var loaded := LoadMinimal(p, e).evidence;
    assert forall k :: k in loaded ==> k in p.evidence && loaded[k] == p.evidence[k];
    if e.payload.Tombstone? {
      var m := e.payload.memory;
      assert m.id in p.memories && p.memories[m.id].owner == e.owner;
      forall k | k in p.evidence && p.evidence[k].memory == m.id ensures k in loaded {}
    }
  }

  lemma FoldNeedsFreeKeys(p: Projection, e: Event)
    requires MembersSound(p)
    ensures Fold(p, e).Some? ==> InsertsFree(p, e)
  {
  }

  lemma AdmissibleAgrees(p: Projection, e: Event)
    requires e.owner.branch in p.branches && e.id !in p.eventScopes
    ensures Admissible(LoadMinimal(p, e), e) <==> Admissible(p, e)
  {
  }

  lemma PayloadAgrees(p: Projection, e: Event)
    requires e.owner.branch in p.branches && ValidEnvelope(e) && ValidPayload(e.payload)
    requires InsertsFree(p, e)
    ensures FoldPayload(LoadMinimal(p, e), e).Some? <==> FoldPayload(p, e).Some? && EndpointsLocal(p, e)
  {
    match e.payload {
      case Linked(_) => LinkPayloadAgrees(p, e);
      case Opened(_, _, _) => OpenPayloadAgrees(p, e);
      case Resolved(_, _, _) => ResolvePayloadAgrees(p, e);
      case _ => SinglePayloadAgrees(p, e);
    }
  }

  /** Writing back the changed rows of a fold over loaded rows gives the fold over the whole table. */
  lemma StagedRowsFollow(table: map<Uuid, Memory>, rows: map<Uuid, Memory>, folded: map<Uuid, Memory>, full: map<Uuid,
      Memory>, targets: set<Uuid>, written: set<Uuid>)
    requires forall id :: id in rows ==> id in targets && id in table && rows[id] == table[id]
    requires written <= targets
    requires folded.Keys == rows.Keys + written && full.Keys == table.Keys + written
    requires forall id :: id in rows && id !in written ==> folded[id] == rows[id]
    requires forall id :: id in table && id !in written ==> full[id] == table[id]
    requires forall id :: id in written ==> folded[id] == full[id]
    ensures StagedMemories(table, rows, folded, targets) == full
  {
    var staged := StagedMemories(table, rows, folded, targets);
    assert staged.Keys == full.Keys;
    forall id | id in full ensures staged[id] == full[id] {
      if id in written {
        assert id in folded;
      }
    }
  }

  lemma StagedMemoriesFollow(p: Projection, e: Event)
    requires LiveAccepts(p, e) && Fold(p, e).Some?
    ensures StagedMemories(p.memories, LoadMinimal(p, e).memories, Fold(LoadMinimal(p, e), e).value.memories,
            Targets(e.payload))
            == Fold(p, e).value.memories
  {
    var rows := LoadMinimal(p, e);
    FoldMemories(rows, e);
    FoldMemories(p, e);
    TouchedAreTargets(e.payload);
    var folded, full := Fold(rows, e).value.memories, Fold(p, e).value.memories;
    forall id | id in Touched(e.payload) ensures folded[id] == full[id] {
      var m :| m in AfterImages(e.payload) && m.id == id;
      assert folded[id] == m && full[id] == m;
    }
    StagedRowsFollow(p.memories, rows.memories, folded, full, Targets(e.payload), Touched(e.payload));
  }

  lemma TouchedAreTargets(payload: Payload)
    ensures Touched(payload) <= Targets(payload)
  {
    match payload {
      case Opened(_, _, affected) => AffectedImages(affected);
      case Resolved(_, _, affected) => AffectedImages(affected);
      case _ =>
    }
  }

  /** Staging an accepted event into the live tables is folding it over the whole projection. */
  lemma LiveRefinesFold(p: Projection, e: Event)
    requires MembersSound(p) && EvidenceSound(p)
    requires e.sequence == p.sequence + 1
    requires LiveAccepts(p, e)
    ensures Fold(p, e) == Some(Staged(p, e))
  {
    LiveAcceptsExactly(p, e);
    StagedMemoriesFollow(p, e);
    OtherTablesFollow(p, e);
  }

  lemma LinkTablesFollow(p: Projection, e: Event)
    requires Fold(p, e).Some? && e.payload.Linked?
    ensures var q := Fold(p, e).value;
            q.links == p.links[e.payload.link.id := e.payload.link] && q.conflicts == p.conflicts
              && q.members == p.members
  {
  }

  lemma OpenTablesFollow(p: Projection, e: Event)
    requires Fold(p, e).Some? && e.payload.Opened?
    ensures var q := Fold(p, e).value;
            && q.links == p.links && q.conflicts == p.conflicts[e.payload.conflict.id := e.payload.conflict]
            && q.members == PutMembers(p.members, e.payload.members)
  {
  }

  lemma ResolveTablesFollow(p: Projection, e: Event)
    requires Fold(p, e).Some? && e.payload.Resolved?
    ensures var q := Fold(p, e).value;
            && q.links == p.links && q.conflicts == p.conflicts[e.payload.conflict.id := e.payload.conflict]
            && q.members == PutMembers(p.members, e.payload.members)
  {
  }

  lemma SingleTablesFollow(p: Projection, e: Event)
    requires Fold(p, e).Some? && !e.payload.Linked? && !e.payload.Opened? && !e.payload.Resolved?
    ensures var q := Fold(p, e).value; q.links == p.links && q.conflicts == p.conflicts && q.members == p.members
  {
    FoldIsPayload(p, Fold(p, e).value, e);
    SingleMemories(p, e);
  }

  lemma FoldHeader(p: Projection, e: Event)
    requires Fold(p, e).Some?
    ensures var q := Fold(p, e).value;
            && q.sequence == e.sequence && q.eventScopes == p.eventScopes[e.id := e.owner]
            && q.evidence == PutEvidence(p.evidence, NewEvidence(e.payload))
  {
  }

  /** The fold outside the memory table, read off the payload. */
  lemma OtherTablesFollow(p: Projection, e: Event)
    requires LiveAccepts(p, e) && Fold(p, e).Some?
    ensures var q, s := Fold(p, e).value, Staged(p, e);
            && q.sequence == s.sequence && q.evidence == s.evidence && q.links == s.links && q.conflicts == s.conflicts
            && q.members == s.members && q.branches == s.branches && q.eventScopes == s.eventScopes
  {
    FoldHeader(p, e);
    FoldMemories(p, e);
    match e.payload {
      case Linked(_) => LinkTablesFollow(p, e);
      case Opened(_, _, _) => OpenTablesFollow(p, e);
      case Resolved(_, _, _) => ResolveTablesFollow(p, e);
      case _ => SingleTablesFollow(p, e);
    }
  }
}
