/** The canonical reducer: one accepted event applied to a projection, and the rebuild
    of a projection from a whole event log. A refused event is `None`.
 */
module Folding {
  import opened Domain

  // ---------------------------------------------------------------- envelope and payload contracts

  /** Operation, payload and target fields agree. */
  predicate ValidEnvelope(e: Event) {
    match e.operation
    case Observed => e.payload.Created? && e.memoryId.Some? && e.expectedRevision.None?
    case Remembered => e.payload.Created? && e.memoryId.Some? && e.expectedRevision.None?
    case CandidatePromoted => e.payload.Lifecycle? && e.memoryId.Some? && e.expectedRevision.Some?
    case CandidateExpired => e.payload.Lifecycle? && e.memoryId.Some? && e.expectedRevision.Some?
    case Revised => e.payload.Transition? && e.memoryId.Some? && e.expectedRevision.Some?
    case RetiredEvent => e.payload.Transition? && e.memoryId.Some? && e.expectedRevision.Some?
    case TombstonedEvent => e.payload.Tombstone? && e.memoryId.Some? && e.expectedRevision.Some?
    case LinkedEvent => e.payload.Linked? && e.memoryId.None? && e.expectedRevision.None?
    case ConflictOpened => e.payload.Opened? && e.memoryId.None? && e.expectedRevision.None?
    case ConflictResolved => e.payload.Resolved? && e.memoryId.None? && e.expectedRevision.None?
  }

  predicate UniqueMembers(members: seq<Member>) {
    forall i, j :: 0 <= i < j < |members| ==> members[i].memory != members[j].memory
  }

  function MemberIds(members: seq<Member>): set<Uuid> {
    set m | m in members :: m.memory
  }

  predicate MembersShape(c: Conflict, members: seq<Member>) {
    && |members| >= 2
    && UniqueMembers(members)
    && forall m :: m in members ==> m.conflict == c.id
  }

  const MAX_EVIDENCE := 32

  predicate DistinctEvidence(items: seq<Evidence>) {
    forall i, j :: 0 <= i < j < |items| ==> items[i].id != items[j].id
  }

  /** Every after-image is well shaped, and first-version payloads carry no expiry deadline. */
  predicate ValidPayload(payload: Payload) {
    && (forall m :: m in AfterImages(payload) ==> WellShaped(m))
    && (match payload
        case Created(m, evidence) => IsSealed(m) ==> evidence == []
        case Transition(_, m) => m.expiresAt.None?
        case Lifecycle(_, m, _, evidence) =>
          !IsSealed(m) && (m.status == Candidate ==> m.expiresAt.Some?) && |evidence| <= MAX_EVIDENCE
            && DistinctEvidence(evidence)
        case Tombstone(_, m, _) => m.expiresAt.None?
        case Linked(l) => l.source != l.target
        case Opened(c, members, affected) =>
          && MembersShape(c, members)
          && (forall a :: a in affected ==> a.memory.expiresAt.None?)
        case Resolved(c, members, affected) =>
          && MembersShape(c, members)
          && (forall a :: a in affected ==> a.memory.expiresAt.None?))
  }

  // ---------------------------------------------------------------- single-memory checks

  /** The revision, identity, sealing and time checks of one after-image against the stored memory. */
  predicate RevisionFollows(e: Event, current: Memory, previous: nat, after: Memory) {
    && current.revision == previous
    && after.revision == previous + 1
    && after.id == current.id
    && after.owner == current.owner
    && after.subject == current.subject
    && after.createdAt == current.createdAt
    && (IsSealed(current) || IsSealed(after) ==>
          && IsSealed(current) && IsSealed(after)
          && e.operation == TombstonedEvent
          && after.keyId == current.keyId
          && after.envelope == current.envelope)
    && after.updatedAt == e.createdAt
  }

  /** Status moves each operation admits. */
  predicate StatusMove(op: Operation, before: Status, after: Status) {
    match op
    case Revised =>
      || (before == Candidate && (after == Candidate || after == Active || after == Disputed))
      || (before == Active && (after == Active || after == Disputed))
      || (before == Disputed && (after == Disputed || after == Active))
    case CandidatePromoted => before == Candidate && after == Active
    case CandidateExpired => before == Candidate && after == Retired
    case RetiredEvent => Live(before) && after == Retired
    case TombstonedEvent => before != Tombstoned && after == Tombstoned
    case ConflictOpened => (before == Candidate || before == Active) && after == Disputed
    case ConflictResolved => before == Disputed && (after == Active || after == Superseded || after == Retired)
    case Observed => false
    case Remembered => false
    case LinkedEvent => false
  }

  /** Initial statuses a create event may carry. */
  predicate InitialStatus(op: Operation, s: Status) {
    (op == Observed && s == Candidate) || (op == Remembered && (s == Candidate || s == Active))
  }

  predicate HardForgetProtected(current: Memory, after: Memory) {
    && current.protection == EnvelopeEncrypted
    && after.protection == EnvelopeEncrypted
    && after.keyId == current.keyId
  }

  /** A transition event replaces one stored memory. */
  predicate Replaces(memories: map<Uuid, Memory>, e: Event, previous: nat, after: Memory) {
    && after.owner == e.owner
    && e.memoryId == Some(after.id)
    && e.expectedRevision == Some(previous)
    && after.id in memories
    && RevisionFollows(e, memories[after.id], previous, after)
    && StatusMove(e.operation, memories[after.id].status, after.status)
  }

  predicate Creates(memories: map<Uuid, Memory>, e: Event, m: Memory) {
    && m.owner == e.owner
    && e.memoryId == Some(m.id)
    && m.id !in memories
    && m.revision == 1
    && m.createdAt == e.createdAt && m.updatedAt == e.createdAt
    && InitialStatus(e.operation, m.status)
  }

  // ---------------------------------------------------------------- evidence

  /** New rows of the event's memory, each under a free identifier. */
  predicate Attaches(table: map<Uuid, Evidence>, e: Event, memory: Uuid, items: seq<Evidence>) {
    && DistinctEvidence(items)
    && forall x :: x in items ==>
         x.owner == e.owner && x.memory == memory && x.createdAt == e.createdAt && x.id !in table
  }

  function PutEvidence(table: map<Uuid, Evidence>, items: seq<Evidence>): map<Uuid, Evidence>
    decreases |items|
  {
    if items == [] then table else PutEvidence(table, items[..|items| - 1])[items[|items| - 1].id := items[|items| - 1]]
  }

  /** No row of evidence names the memory. */
  predicate Sanitized(table: map<Uuid, Evidence>, memory: Uuid) {
    forall k :: k in table ==> table[k].memory != memory
  }

  /** What an event may do with the evidence table: creations and promotions add rows of their memory, an expiry adds
      none, and a memory is only forgotten when no row of evidence is left for it. */
  predicate EvidenceAllowed(table: map<Uuid, Evidence>, e: Event) {
    match e.payload
    case Created(m, evidence) => Attaches(table, e, m.id, evidence)
    case Lifecycle(_, m, _, evidence) => (e.operation == CandidateExpired ==> evidence == [])
      && Attaches(table, e, m.id, evidence)
    case Tombstone(_, m, _) => Sanitized(table, m.id)
    case _ => true
  }

  /** The loop that adds the rows one by one and stops at the first that does not fit. */
  method AttachEvidence(table: map<Uuid, Evidence>, e: Event, memory: Uuid, items: seq<Evidence>)
      returns (r: Option<map<Uuid, Evidence>>)
    ensures r == if Attaches(table, e, memory, items) then Some(PutEvidence(table, items)) else None
  {
    var longer := table;
    for i := 0 to |items|
      invariant Attaches(table, e, memory, items[..i]) && longer == PutEvidence(table, items[..i])
    {
      AttachesOneMore(table, e, memory, items, i);
      assert items[..i + 1][..i] == items[..i];
      if items[i].owner != e.owner || items[i].memory != memory || items[i].createdAt != e.createdAt
        || items[i].id in longer {
        return None;
      }
      longer := longer[items[i].id := items[i]];
    }
    assert items[..|items|] == items;
    return Some(longer);
  }

  lemma AttachesOneMore(table: map<Uuid, Evidence>, e: Event, memory: Uuid, items: seq<Evidence>, i: nat)
    requires i < |items| && Attaches(table, e, memory, items[..i])
    ensures var fits := items[i].owner == e.owner && items[i].memory == memory && items[i].createdAt == e.createdAt
                        && items[i].id !in PutEvidence(table, items[..i]);
            && (fits ==> Attaches(table, e, memory, items[..i + 1]))
            && (!fits ==> !Attaches(table, e, memory, items))
  {
    PutEvidenceKeys(table, items[..i]);
    assert items[i] in items && forall k :: 0 <= k < i ==> items[..i][k] == items[k];
    assert items[..i + 1] == items[..i] + [items[i]];
  }

  lemma {:induction false} PutEvidenceKeys(table: map<Uuid, Evidence>, items: seq<Evidence>)
    ensures forall k :: k in PutEvidence(table, items) <==>
            k in table || exists i :: 0 <= i < |items| && items[i].id == k
    ensures forall k :: k in PutEvidence(table, items) ==>
              (k in table && PutEvidence(table, items)[k] == table[k])
                || (PutEvidence(table, items)[k] in items && PutEvidence(table, items)[k].id == k)
    decreases |items|
  {
    if items != [] {
      var init := items[..|items| - 1];
      PutEvidenceKeys(table, init);
      assert forall i :: 0 <= i < |init| ==> items[i] == init[i];
      assert items[|items| - 1] in items;
    }
  }

  // ---------------------------------------------------------------- conflict transitions

  /** Applies affected memories in order; a memory named twice is refused. */
  function ApplyAffected(memories: map<Uuid, Memory>, e: Event, affected: seq<Affected>): Option<map<Uuid, Memory>>
    decreases |affected|
  {
    if affected == [] then Some(memories)
    else
      var a := affected[0];
      if
        && a.memory.owner == e.owner
        && a.memory.id in memories
        && (forall b :: b in affected[1..] ==> b.memory.id != a.memory.id)
        && RevisionFollows(e, memories[a.memory.id], a.previous, a.memory)
        && StatusMove(e.operation, memories[a.memory.id].status, a.memory.status)
      then ApplyAffected(memories[a.memory.id := a.memory], e, affected[1..])
      else None
  }

  function AffectedIds(affected: seq<Affected>): set<Uuid> {
    set a | a in affected :: a.memory.id
  }

  function PutMembers(table: map<(Uuid, Uuid), Member>, members: seq<Member>): map<(Uuid, Uuid), Member>
    decreases |members|
  {
    if members == [] then table
    else PutMembers(table[(members[0].conflict, members[0].memory) := members[0]], members[1..])
  }

  /** Memories recorded as members of one conflict. */
  function StoredMemberIds(table: map<(Uuid, Uuid), Member>, conflict: Uuid): set<Uuid> {
    set k | k in table && k.0 == conflict :: k.1
  }

  function FoldOpened(p: Projection, e: Event, c: Conflict, members: seq<Member>,
      affected: seq<Affected>): Option<Projection> {
    if c.owner != e.owner || c.id in p.conflicts || !c.Open() || c.openedAt != e.createdAt then None
    else
      match ApplyAffected(p.memories, e, affected)
      case None => None
      case Some(memories) =>
        if
          || (exists m :: m in members && m.joinedAt != e.createdAt)
          || AffectedIds(affected) != MemberIds(members)
          || (exists a :: a in affected && a.memory.subject != c.subject)
          || (exists m :: m in members && (m.conflict, m.memory) in p.members)
        then None
        else Some(p.(memories := memories,
                     conflicts := p.conflicts[c.id := c],
                     members := PutMembers(p.members, members)))
  }

  /** Fields a resolution may not change. */
  predicate SameConflict(a: Conflict, b: Conflict) {
    a.id == b.id && a.owner == b.owner && a.subject == b.subject && a.reason == b.reason && a.openedAt == b.openedAt
  }

  function FoldResolved(p: Projection, e: Event, c: Conflict, members: seq<Member>,
      affected: seq<Affected>): Option<Projection> {
    if
      || c.owner != e.owner || c.id !in p.conflicts || !p.conflicts[c.id].Open() || c.Open()
      || c.resolution.value.at != e.createdAt
      || !SameConflict(p.conflicts[c.id], c)
      || StoredMemberIds(p.members, c.id) != MemberIds(members)
      || (exists m :: m in members &&
            ((m.conflict, m.memory) !in p.members || p.members[(m.conflict, m.memory)].joinedAt != m.joinedAt))
    then None
    else
      match ApplyAffected(p.memories, e, affected)
      case None => None
      case Some(memories) =>
        if AffectedIds(affected) != MemberIds(members) then None
        else Some(p.(memories := memories,
                     conflicts := p.conflicts[c.id := c],
                     members := PutMembers(p.members, members)))
  }

  function FoldLinked(p: Projection, e: Event, l: Link): Option<Projection> {
    if
      && l.owner == e.owner && l.id !in p.links && l.active && l.createdAt == e.createdAt
      && l.source in p.memories && l.target in p.memories
    then Some(p.(links := p.links[l.id := l]))
    else None
  }

  // ---------------------------------------------------------------- one event, whole log

  function FoldPayload(p: Projection, e: Event): Option<Projection>
    requires ValidEnvelope(e)
  {
    match e.payload
    case Created(m, _) =>
      if Creates(p.memories, e, m) then Some(p.(memories := p.memories[m.id := m])) else None
    case Transition(previous, m) =>
      if Replaces(p.memories, e, previous, m) then Some(p.(memories := p.memories[m.id := m])) else None
    case Lifecycle(previous, m, _, _) =>
      if Replaces(p.memories, e, previous, m) && m.expiresAt.None?
      then Some(p.(memories := p.memories[m.id := m])) else None
    case Tombstone(previous, m, hard) =>
      if Replaces(p.memories, e, previous, m) && (hard ==> HardForgetProtected(p.memories[m.id], m))
      then Some(p.(memories := p.memories[m.id := m])) else None
    case Linked(l) => FoldLinked(p, e, l)
    case Opened(c, members, affected) => FoldOpened(p, e, c, members, affected)
    case Resolved(c, members, affected) => FoldResolved(p, e, c, members, affected)
  }

  predicate WithinCeiling(ceiling: Visibility, payload: Payload) {
    forall m :: m in AfterImages(payload) ==> Rank(m.visibility) <= Rank(ceiling)
  }

  /** Branch and causation checks shared by every operation. */
  predicate Admissible(p: Projection, e: Event) {
    && ValidEnvelope(e)
    && ValidPayload(e.payload)
    && e.id !in p.eventScopes
    && e.owner.branch in p.branches
    && p.branches[e.owner.branch].owner == e.owner
    && WithinCeiling(p.branches[e.owner.branch].ceiling, e.payload)
    && (e.causation.Some? ==>
          && e.causation.value in p.eventScopes
          && p.eventScopes[e.causation.value].tenant == e.owner.tenant
          && p.eventScopes[e.causation.value].lineage == e.owner.lineage)
  }

  function Fold(p: Projection, e: Event): Option<Projection> {
    if e.sequence != p.sequence + 1 || !Admissible(p, e) || !EvidenceAllowed(p.evidence, e) then None
    else
      match FoldPayload(p, e)
      case None => None
      case Some(q) =>
        Some(q.(sequence := e.sequence, evidence := PutEvidence(p.evidence, NewEvidence(e.payload)),
                eventScopes := p.eventScopes[e.id := e.owner]))
  }

  function Empty(branches: map<Uuid, Branch>): Projection {
    Projection(0, map[], map[], map[], map[], map[], branches, map[])
  }

  /** The projection rebuilt from a log. */
  function Rebuild(branches: map<Uuid, Branch>, log: seq<Event>): Option<Projection>
    decreases |log|
  {
    if log == [] then Some(Empty(branches))
    else
      match Rebuild(branches, log[..|log| - 1])
      case None => None
      case Some(p) => Fold(p, log[|log| - 1])
  }

  // ---------------------------------------------------------------- what a fold does to memories

  /** Relation between one memory before and after an accepted event that carries `after`. */
  ghost predicate MemoryStep(before: map<Uuid, Memory>, e: Event, after: Memory) {
    if after.id in before then
      && after.owner == e.owner
      && RevisionFollows(e, before[after.id], before[after.id].revision, after)
      && StatusMove(e.operation, before[after.id].status, after.status)
    else
      && after.revision == 1
      && InitialStatus(e.operation, after.status)
      && after.owner == e.owner
  }

  /** Exactly the carried after-images are written, each by a legal step; nothing else moves. */
  ghost predicate MemoriesFollow(before: map<Uuid, Memory>, e: Event, after: map<Uuid, Memory>) {
    && after.Keys == before.Keys + Touched(e.payload)
    && (forall id :: id in before && id !in Touched(e.payload) ==> after[id] == before[id])
    && (forall m :: m in AfterImages(e.payload) ==> m.id in after && after[m.id] == m && MemoryStep(before, e, m))
  }

  lemma {:induction false} ApplyAffectedStep(memories: map<Uuid, Memory>, e: Event, affected: seq<Affected>)
    requires ApplyAffected(memories, e, affected).Some?
    ensures var q := ApplyAffected(memories, e, affected).value;
            && q.Keys == memories.Keys
            && (forall a :: a in affected ==> a.memory.id in memories)
            && (forall id :: id in memories && id !in AffectedIds(affected) ==> q[id] == memories[id])
            && (forall a :: a in affected ==>
                  && q[a.memory.id] == a.memory
                  && a.previous == memories[a.memory.id].revision
                  && MemoryStep(memories, e, a.memory))
    decreases |affected|
  {
    if affected != [] {
      var a := affected[0];
      var next := memories[a.memory.id := a.memory];
      ApplyAffectedStep(next, e, affected[1..]);
      assert affected == [a] + affected[1..];
      assert forall b :: b in affected ==> b == a || b in affected[1..];
      assert a.memory.id !in AffectedIds(affected[1..]);
      var q := ApplyAffected(memories, e, affected).value;
      forall b | b in affected[1..]
        ensures q[b.memory.id] == b.memory && b.previous == memories[b.memory.id].revision
                && MemoryStep(memories, e, b.memory)
      {
        assert b.memory.id != a.memory.id;
        assert next[b.memory.id] == memories[b.memory.id];
      }
    }
  }

  lemma AffectedImages(affected: seq<Affected>)
    ensures var images := seq(|affected|, i requires 0 <= i < |affected| => affected[i].memory);
            && (forall m :: m in images <==> exists a :: a in affected && a.memory == m)
            && (set m | m in images :: m.id) == AffectedIds(affected)
  {
    var images := seq(|affected|, i requires 0 <= i < |affected| => affected[i].memory);
    forall a | a in affected ensures a.memory in images {
      var i :| 0 <= i < |affected| && affected[i] == a;
      assert images[i] == a.memory;
    }
    forall m | m in images ensures exists a :: a in affected && a.memory == m {
      var i :| 0 <= i < |images| && images[i] == m;
      assert affected[i] in affected;
    }
    forall id | id in AffectedIds(affected) ensures id in (set m | m in images :: m.id) {
      var a :| a in affected && a.memory.id == id;
      assert a.memory in images;
    }
  }

  lemma SingleFollows(before: map<Uuid, Memory>, e: Event, m: Memory)
    requires AfterImages(e.payload) == [m] && MemoryStep(before, e, m)
    ensures MemoriesFollow(before, e, before[m.id := m])
  {
    assert Touched(e.payload) == {m.id};
  }

  lemma AffectedFollow(before: map<Uuid, Memory>, e: Event, affected: seq<Affected>)
    requires ApplyAffected(before, e, affected).Some?
    requires AfterImages(e.payload) == seq(|affected|, i requires 0 <= i < |affected| => affected[i].memory)
    ensures MemoriesFollow(before, e, ApplyAffected(before, e, affected).value)
  {
    ApplyAffectedStep(before, e, affected);
    AffectedImages(affected);
  }

  /** The payload decides every table but the evidence. */
  lemma FoldIsPayload(p: Projection, q: Projection, e: Event)
    requires Fold(p, e) == Some(q)
    ensures ValidEnvelope(e) && FoldPayload(p, e).Some?
    ensures q == FoldPayload(p, e).value.(
                   sequence := p.sequence + 1, evidence := PutEvidence(p.evidence, NewEvidence(e.payload)),
                   eventScopes := p.eventScopes[e.id := e.owner])
  {
  }

  /** Payloads that write one memory. */
  predicate Single(payload: Payload) {
    payload.Created? || payload.Transition? || payload.Lifecycle? || payload.Tombstone?
  }

  lemma SingleMemories(p: Projection, e: Event)
    requires ValidEnvelope(e) && FoldPayload(p, e).Some? && Single(e.payload)
    ensures MemoryStep(p.memories, e, e.payload.memory)
    ensures FoldPayload(p, e).value == p.(memories := p.memories[e.payload.memory.id := e.payload.memory])
  {
  }

  lemma PayloadMemories(p: Projection, e: Event)
    requires ValidEnvelope(e) && FoldPayload(p, e).Some?
    ensures MemoriesFollow(p.memories, e, FoldPayload(p, e).value.memories)
    ensures FoldPayload(p, e).value.branches == p.branches
  {
    if Single(e.payload) {
      SingleMemories(p, e);
      SingleFollows(p.memories, e, e.payload.memory);
    } else if !e.payload.Linked? {
      ConflictMemories(p, e);
    }
  }

  lemma ConflictMemories(p: Projection, e: Event)
    requires ValidEnvelope(e) && FoldPayload(p, e).Some? && (e.payload.Opened? || e.payload.Resolved?)
    ensures MemoriesFollow(p.memories, e, FoldPayload(p, e).value.memories)
    ensures FoldPayload(p, e).value.branches == p.branches
  {
    AffectedFollow(p.memories, e, e.payload.affected);
  }

  /** Every accepted event writes exactly its after-images, each by a legal step. */
  lemma FoldMemories(p: Projection, e: Event)
    requires Fold(p, e).Some?
    ensures MemoriesFollow(p.memories, e, Fold(p, e).value.memories)
    ensures Fold(p, e).value.sequence == p.sequence + 1
    ensures Fold(p, e).value.branches == p.branches
  {
    FoldIsPayload(p, Fold(p, e).value, e);
    PayloadMemories(p, e);
  }
}
