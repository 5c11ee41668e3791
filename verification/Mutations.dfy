/** The mutation command processor: authorization, idempotency receipts, payload preparation and
    outbox staging, as a function from one database state to the next. A refused command is a
    response together with the unchanged state.
 */
module Mutations {
  import opened Domain
  import opened Folding
  import opened FoldInvariants
  import opened LiveProjection

  // ---------------------------------------------------------------- callers and commands

  datatype TransportKind = DirectPrivate | SecureTunnel | Relay | GithubIngress | InternalService | ArchiveRestore

  datatype Principal = Principal(tenant: Uuid, actor: Uuid, client: Uuid, binding: Uuid, scopes: set<string>,
      ingress: Option<Uuid>)

  datatype MemoryInput = MemoryInput(
    subject: Uuid, scope: ScopeKind, visibility: Visibility, category: Category, ontology: Ontology,
    statement: string, reason: string, limits: seq<string>, attributes: Attributes)

  /** A patch: absent fields stay as they are. Subject, scope, origin session and status cannot be patched; a bound of
      the validity interval can be patched away. */
  datatype Changes = Changes(
    category: Option<Category>, ontology: Option<Ontology>, visibility: Option<Visibility>,
    statement: Option<string>, reason: Option<string>, limits: Option<seq<string>>, sensitivity: Option<nat>,
      imported: Option<bool>,
    validFrom: Option<Option<Time>>, validTo: Option<Option<Time>>, metadata: Option<nat>, rest: Option<nat>)

  datatype Expectation = Expectation(memory: Uuid, revision: nat)

  datatype Verdict = Verdict(memory: Uuid, revision: nat, disposition: string, status: Status)

  datatype Body =
    | Observe(input: MemoryInput)
    | Remember(input: MemoryInput)
    | Revise(memory: Uuid, expected: nat, changes: Changes)
    | LinkTo(source: Uuid, sourceExpected: nat, target: Uuid, targetExpected: nat, kind: nat, metadata: nat)
    | OpenConflict(subject: Uuid, members: seq<Expectation>, conflictReason: string, metadata: nat)
    | ResolveConflict(conflict: Uuid, verdicts: seq<Verdict>, resolutionKind: string, rationale: string,
      userConfirmed: bool)
    | Retire(memory: Uuid, expected: nat)
    | Forget(memory: Uuid, expected: nat, hard: bool)

  datatype Command = Command(idempotencyKey: string, session: Option<Uuid>, persona: Uuid, branch: Uuid, reason: string,
      causation: Option<Uuid>, body: Body)

  const MAX_CONFLICT_MEMBERS := 32
  const PREALLOCATED_JOBS := 34

  /** What the command types guarantee by construction. */
  predicate WellFormed(body: Body) {
    match body
    case OpenConflict(_, members, _, _) =>
      && 2 <= |members| <= MAX_CONFLICT_MEMBERS
      && forall i, j :: 0 <= i < j < |members| ==> members[i].memory != members[j].memory
    case ResolveConflict(_, verdicts, _, _, _) =>
      && 2 <= |verdicts| <= MAX_CONFLICT_MEMBERS
      && (forall i, j :: 0 <= i < j < |verdicts| ==> verdicts[i].memory != verdicts[j].memory)
      && forall v :: v in verdicts ==> v.status == Active || v.status == Superseded || v.status == Retired
    case LinkTo(source, _, target, _, _, _) => source != target
    case Observe(input) => input.statement != "" && input.reason != "" && input.visibility != PublicSeed
    case Remember(input) => input.statement != "" && input.reason != "" && input.visibility != PublicSeed
    case _ => true
  }

  /** The bound canonical material a command hash covers: not the key, not the session. */
  datatype Digest =
    | CommandDigest(tenant: Uuid, lineage: Uuid, actor: Uuid, client: Uuid, persona: Uuid, branch: Uuid,
      causation: Option<Uuid>, reason: string, body: Body)
    | NominationDigest(material: nat)

  function DigestOf(principal: Principal, lineage: Uuid, command: Command): Digest {
    CommandDigest(principal.tenant, lineage, principal.actor, principal.client, command.persona, command.branch,
      command.causation, command.reason, command.body)
  }

  // ---------------------------------------------------------------- responses

  datatype Failure =
    | InvalidInput
    | Forbidden
    | NotFound
    | StaleRevision(memory: Uuid, expected: nat, current: nat)
    | IdempotencyKeyReused
    | ConflictStateChanged
    | HardForgetUnavailable
    | SerializationExhausted
    | DependencyUnavailable

  datatype Outcome<T> = Ok(value: T) | Err(error: Failure)

  datatype ForgetState = LogicallyForgotten | PurgePending

  datatype Receipted = Receipted(
    operation: Operation, receipt: Uuid, event: Option<Uuid>, memory: Option<Uuid>, revision: Option<nat>,
    conflict: Option<Uuid>, forget: Option<ForgetState>, replay: bool)

  // ---------------------------------------------------------------- database

  /** `usable`: actor, client and installation are not revoked and the binding has not expired. `attached`: a relay
      binding has its installation, and an installation that is named exists. */
  datatype Binding = Binding(
    tenant: Uuid, actor: Uuid, client: Uuid, kind: TransportKind, operations: set<Operation>, usable: bool,
      attached: bool)

  /** `closed`: the persona is retired or the lineage or the branch is sealed. */
  datatype BranchRow = BranchRow(owner: Owner, persona: Uuid, closed: bool)

  datatype SubjectRow = SubjectRow(tenant: Uuid, lineage: Uuid, scope: ScopeKind, originSession: Option<Uuid>)

  datatype SessionRow = SessionRow(actor: Uuid, client: Uuid, owner: Owner, binding: Uuid)

  datatype Directory = Directory(
    bindings: map<Uuid, Binding>, branches: map<Uuid, BranchRow>, subjects: map<Uuid, SubjectRow>, sessions: map<Uuid,
      SessionRow>)

  datatype Receipt = Receipt(id: Uuid, tenant: Uuid, client: Uuid, key: string, digest: Digest, result: Receipted)

  datatype JobKind = EmbedMemory | CheckDuplicates | ExportBatch | PurgePayload | ExpireCandidate

  datatype JobSpec = JobSpec(kind: JobKind, aggregate: Uuid, revision: Option<nat>, event: Uuid)

  datatype Job = Job(id: Uuid, tenant: Uuid, spec: JobSpec)

  datatype KeyState = KeyActive | DestructionRequested | KeyDestroyed | DestructionFailed

  datatype ContentKey = ContentKey(tenant: Uuid, lineage: Uuid, memory: Uuid, state: KeyState,
      requestedAt: Option<Time>, destroyedAt: Option<Time>, receipt: Option<nat>)

  /** A row of the selection-decision ledger. */
  datatype Decision = Decision(id: Uuid, tenant: Uuid, memory: Option<Uuid>, event: Option<Uuid>, outcome: string)

  datatype Db = Db(
    directory: Directory,
    live: Projection,
    events: seq<Event>,
    receipts: seq<Receipt>,
    jobs: seq<Job>,
    keys: map<Uuid, ContentKey>,
    decisions: seq<Decision>)

  // ---------------------------------------------------------------- authorization

  const LEGACY_SCOPE := "memory.write.legacy_v1"

  function RequiredScope(body: Body): string {
    match body
    case Observe(_) => "memory.write.observe"
    case Remember(_) => "memory.write.remember"
    case Revise(_, _, _) => "memory.write.revise"
    case LinkTo(_, _, _, _, _, _) => "memory.write.link"
    case OpenConflict(_, _, _, _) => "memory.write.conflict.open"
    case ResolveConflict(_, _, _, _, _) => "memory.write.conflict.resolve"
    case Retire(_, _) => "memory.write.retire"
    case Forget(_, _, _) => "memory.write.forget"
  }

  predicate ContentCommand(body: Body) {
    body.Observe? || body.Remember? || body.Revise?
  }

  predicate PrincipalAuthorized(principal: Principal, body: Body) {
    if ContentCommand(body) then
      RequiredScope(body) in principal.scopes && LEGACY_SCOPE in principal.scopes && principal.ingress.None?
    else
      RequiredScope(body) in principal.scopes || "memory:write" in principal.scopes
  }

  function EventOperation(body: Body): Operation {
    match body
    case Observe(_) => Observed
    case Remember(_) => Remembered
    case Revise(_, _, _) => Revised
    case LinkTo(_, _, _, _, _, _) => LinkedEvent
    case OpenConflict(_, _, _, _) => ConflictOpened
    case ResolveConflict(_, _, _, _, _) => ConflictResolved
    case Retire(_, _) => RetiredEvent
    case Forget(_, _, _) => TombstonedEvent
  }

  predicate BindingMatches(directory: Directory, principal: Principal) {
    && principal.binding in directory.bindings
    && var b := directory.bindings[principal.binding];
       b.tenant == principal.tenant && b.actor == principal.actor && b.client == principal.client
  }

  /** Checks made before the receipt lookup; the owner of the addressed branch when they pass. */
  function Gate(db: Db, principal: Principal, command: Command): Outcome<Owner> {
    if !PrincipalAuthorized(principal, command.body) then Err(Forbidden)
    else if
      && ContentCommand(command.body)
      && !(BindingMatches(db.directory, principal)
           && (db.directory.bindings[principal.binding].kind == DirectPrivate
               || db.directory.bindings[principal.binding].kind == InternalService))
    then Err(Forbidden)
    else if
      || command.branch !in db.directory.branches
      || db.directory.branches[command.branch].owner.tenant != principal.tenant
      || db.directory.branches[command.branch].persona != command.persona
    then Err(NotFound)
    else
      var owner := db.directory.branches[command.branch].owner;
      if
        && command.session.Some?
        && !(command.session.value in db.directory.sessions
             && db.directory.sessions[command.session.value]
                  == SessionRow(principal.actor, principal.client, owner, principal.binding))
      then Err(NotFound)
      else if
        && command.causation.Some?
        && !(command.causation.value in db.live.eventScopes
             && SameLineage(db.live.eventScopes[command.causation.value], owner))
      then Err(NotFound)
      else Ok(owner)
  }

  // ---------------------------------------------------------------- receipts

  predicate Keyed(r: Receipt, principal: Principal, key: string) {
    r.tenant == principal.tenant && r.client == principal.client && r.key == key
  }

  function FindReceipt(receipts: seq<Receipt>, principal: Principal, key: string): Option<Receipt>
    decreases |receipts|
  {
    if receipts == [] then None
    else if Keyed(receipts[0], principal, key) then Some(receipts[0])
    else FindReceipt(receipts[1..], principal, key)
  }

  // ---------------------------------------------------------------- loading memories

  predicate Owned(memories: map<Uuid, Memory>, owner: Owner, id: Uuid) {
    id in memories && memories[id].owner == owner
  }

  /** A memory a lock key can be computed for: sealed, or still carrying its fingerprint. */
  predicate Lockable(m: Memory) {
    IsSealed(m) || m.fingerprint.Some?
  }

  /** Loads every named memory of the branch; a missing one or an unlockable one stops the command. */
  function LoadMemories(memories: map<Uuid, Memory>, owner: Owner, ids: set<Uuid>): (r: Outcome<map<Uuid, Memory>>)
    ensures r.Ok? <==> forall id :: id in ids ==> Owned(memories, owner, id) && Lockable(memories[id])
    ensures r.Ok? ==> r.value.Keys == ids && forall id :: id in ids ==> id in memories && r.value[id] == memories[id]
  {
    if exists id :: id in ids && !Owned(memories, owner, id) then Err(NotFound)
    else if exists id :: id in ids && !Lockable(memories[id]) then Err(InvalidInput)
    else Ok(map id | id in ids :: memories[id])
  }

  function CheckRevision(m: Memory, expected: nat): Option<Failure> {
    if m.revision != expected then Some(StaleRevision(m.id, expected, m.revision)) else None
  }

  // ---------------------------------------------------------------- sorted identifiers

  lemma FindLeast(s: set<Uuid>) returns (x: Uuid)
    requires s != {}
    ensures x in s && forall y :: y in s ==> x <= y
    decreases |s|
  {
    x :| x in s;
    var rest := s - {x};
    if rest != {} {
      var least := FindLeast(rest);
      assert forall y :: y in s ==> y == x || y in rest;
      if least < x { x := least; }
    } else {
      assert forall y :: y in s ==> y == x;
    }
  }

  /** The identifiers of a set, from the smallest up. */
  predicate AscendingOf(s: set<Uuid>, r: seq<Uuid>) {
    && |r| == |s|
    && (forall x :: x in r ==> x in s) && (forall x :: x in s ==> x in r)
    && (forall i, j :: 0 <= i < j < |r| ==> r[i] < r[j])
  }

  lemma AscendingFront(s: set<Uuid>, x: Uuid, rest: seq<Uuid>)
    requires x in s && (forall y :: y in s ==> x <= y) && AscendingOf(s - {x}, rest)
    ensures AscendingOf(s, [x] + rest)
  {
    assert s == (s - {x}) + {x};
    forall i | 0 <= i < |rest| ensures x < rest[i] { assert rest[i] in rest; }
  }

  lemma FindAscending(s: set<Uuid>) returns (r: seq<Uuid>)
    ensures AscendingOf(s, r)
    decreases |s|
  {
    if s == {} {
      r := [];
    } else {
      var x := FindLeast(s);
      var rest := FindAscending(s - {x});
      AscendingFront(s, x, rest);
      r := [x] + rest;
    }
  }

  lemma FrontIsLeast(s: set<Uuid>, r: seq<Uuid>)
    requires AscendingOf(s, r) && r != []
    ensures r[0] in s && (forall y :: y in s ==> r[0] <= y) && AscendingOf(s - {r[0]}, r[1..])
  {
    assert r[0] in r && r == [r[0]] + r[1..];
    forall y | y in s ensures r[0] <= y {
      var i :| 0 <= i < |r| && r[i] == y;
    }
    forall y | y in r[1..] ensures y in r && y != r[0] {
      var i :| 0 <= i < |r[1..]| && r[1..][i] == y;
      assert r[i + 1] == y;
    }
  }

  lemma {:induction false} AscendingIsUnique(s: set<Uuid>, a: seq<Uuid>, b: seq<Uuid>)
    requires AscendingOf(s, a) && AscendingOf(s, b)
    ensures a == b
    decreases |a|
  {
    if a != [] {
      FrontIsLeast(s, a);
      FrontIsLeast(s, b);
      AscendingIsUnique(s - {a[0]}, a[1..], b[1..]);
      assert a == [a[0]] + a[1..] && b == [b[0]] + b[1..];
    }
  }

  lemma OneAscending(s: set<Uuid>)
    ensures exists r :: AscendingOf(s, r)
    ensures forall a, b :: AscendingOf(s, a) && AscendingOf(s, b) ==> a == b
  {
    var r := FindAscending(s);
    forall a, b | AscendingOf(s, a) && AscendingOf(s, b) ensures a == b { AscendingIsUnique(s, a, b); }
  }

  function Ascending(s: set<Uuid>): (r: seq<Uuid>)
    ensures AscendingOf(s, r)
  {
    OneAscending(s);
    var r :| AscendingOf(s, r);
    r
  }

  // ---------------------------------------------------------------- preparing payloads

  datatype Prepared = Prepared(
    payload: Payload, memoryId: Option<Uuid>, expected: Option<nat>,
    resultMemory: Option<Uuid>, resultRevision: Option<nat>, conflict: Option<Uuid>)

  function NewMemory(input: MemoryInput, owner: Owner, id: Uuid, status: Status, now: Time): Memory {
    var claim := Claim(input.statement, input.category, input.ontology, input.scope, set l | l in input.limits);
    Memory(id, owner, input.subject, 1, status, input.scope, input.visibility, input.category, input.ontology,
           Some(input.statement), Some(input.reason), input.limits, input.attributes, None, Plaintext, None, None, now,
             now, None, Some(claim))
  }

  predicate SubjectKnown(directory: Directory, owner: Owner, input: MemoryInput) {
    && input.subject in directory.subjects
    && directory.subjects[input.subject].tenant == owner.tenant
    && directory.subjects[input.subject].lineage == owner.lineage
    && directory.subjects[input.subject].scope == input.scope
  }

  predicate SessionAnchored(directory: Directory, session: Option<Uuid>, input: MemoryInput)
    requires input.subject in directory.subjects
  {
    input.scope == EpisodicScope || input.scope == SceneLocalScope ==>
      && session.Some?
      && input.attributes.origin == session
      && directory.subjects[input.subject].originSession == session
  }

  /** Some other live memory of the same branch and subject already states the claim of `m`. */
  predicate Duplicated(memories: map<Uuid, Memory>, m: Memory) {
    exists id :: id in memories && id != m.id && SameLiveClaim(memories[id], m)
  }

  function PrepareCreate(db: Db, command: Command, input: MemoryInput, status: Status, owner: Owner, aggregate: Uuid,
      now: Time): Outcome<Prepared> {
    if !SubjectKnown(db.directory, owner, input) then Err(NotFound)
    else if !SessionAnchored(db.directory, command.session, input) then Err(InvalidInput)
    else
      var m := NewMemory(input, owner, aggregate, status, now);
      if exists id :: id in db.live.memories && SameLiveClaim(db.live.memories[id], m) then Err(InvalidInput)
      else Ok(Prepared(Created(m, []), Some(aggregate), None, Some(aggregate), Some(1), None))
  }

  function Pick<T>(change: Option<T>, current: T): T {
    if change.Some? then change.value else current
  }

  function Patched(a: Attributes, changes: Changes): Attributes {
    a.(sensitivity := Pick(changes.sensitivity, a.sensitivity), imported := Pick(changes.imported, a.imported),
       validFrom := Pick(changes.validFrom, a.validFrom), validTo := Pick(changes.validTo, a.validTo),
       metadata := Pick(changes.metadata, a.metadata), rest := Pick(changes.rest, a.rest))
  }

  /** The patched memory at its next revision. The first-version after-image has no deadline, publication
      approval is withdrawn, and the fingerprint is recomputed. */
  function RevisedMemory(m: Memory, changes: Changes, now: Time): Memory {
    var patched := m.(
      category := Pick(changes.category, m.category),
      ontology := Pick(changes.ontology, m.ontology),
      visibility := Pick(changes.visibility, m.visibility),
      statement := if changes.statement.Some? then changes.statement else m.statement,
      reason := if changes.reason.Some? then changes.reason else m.reason,
      limits := Pick(changes.limits, m.limits),
      attributes := Patched(m.attributes, changes),
      revision := m.revision + 1,
      updatedAt := now,
      approvedBy := None,
      expiresAt := None);
    patched.(fingerprint := Some(ClaimOf(patched)))
  }

  function PrepareRevise(db: Db, id: Uuid, expected: nat, changes: Changes, owner: Owner,
      now: Time): Outcome<Prepared> {
    match LoadMemories(db.live.memories, owner, {id})
    case Err(error) => Err(error)
    case Ok(loaded) =>
      var current := loaded[id];
      var after := RevisedMemory(current, changes, now);
      if after.statement.None? then Err(InvalidInput)
      else if CheckRevision(current, expected).Some? then Err(CheckRevision(current, expected).value)
      else if Duplicated(db.live.memories, after.(status := Active)) then Err(InvalidInput)
      else Ok(Prepared(Transition(current.revision, after), Some(id), Some(current.revision), Some(id),
        Some(after.revision), None))
  }

  /** A memory moved to another status by a first-version event. */
  function Restated(m: Memory, status: Status, now: Time): Memory {
    m.(revision := m.revision + 1, updatedAt := now, status := status, expiresAt := None)
  }

  predicate DuplicateLink(links: map<Uuid, Link>, owner: Owner, source: Uuid, target: Uuid, kind: nat) {
    exists id :: id in links && links[id].owner == owner && links[id].source == source
                 && links[id].target == target && links[id].kind == kind && links[id].active
  }

  function PrepareLink(db: Db, body: Body, owner: Owner, aggregate: Uuid, now: Time): Outcome<Prepared>
    requires body.LinkTo?
  {
    match LoadMemories(db.live.memories, owner, {body.source, body.target})
    case Err(error) => Err(error)
    case Ok(loaded) =>
      if CheckRevision(loaded[body.source], body.sourceExpected).Some?
        then Err(CheckRevision(loaded[body.source], body.sourceExpected).value)
      else if CheckRevision(loaded[body.target], body.targetExpected).Some?
        then Err(CheckRevision(loaded[body.target], body.targetExpected).value)
      else if DuplicateLink(db.live.links, owner, body.source, body.target, body.kind) then Err(InvalidInput)
      else Ok(Prepared(Linked(Link(aggregate, owner, body.source, body.target, body.kind, true, now, body.metadata)),
        None, None, None, None, None))
  }

  /** The first identifier, in order, whose stored revision is not the expected one. */
  function FirstStale(ids: seq<Uuid>, memories: map<Uuid, Memory>, expected: map<Uuid, nat>): Option<Failure>
    requires forall id :: id in ids ==> id in memories && id in expected
    decreases |ids|
  {
    if ids == [] then None
    else if CheckRevision(memories[ids[0]], expected[ids[0]]).Some?
      then CheckRevision(memories[ids[0]], expected[ids[0]])
    else FirstStale(ids[1..], memories, expected)
  }

  function Expected(members: seq<Expectation>): map<Uuid, nat>
    decreases |members|
  {
    if members == [] then map[]
      else Expected(members[..|members| - 1])[members[|members| - 1].memory := members[|members| - 1].revision]
  }

  function VerdictOf(verdicts: seq<Verdict>): map<Uuid, Verdict>
    decreases |verdicts|
  {
    if verdicts == [] then map[]
      else VerdictOf(verdicts[..|verdicts| - 1])[verdicts[|verdicts| - 1].memory := verdicts[|verdicts| - 1]]
  }

  lemma {:induction false} ExpectedKeys(members: seq<Expectation>)
    ensures Expected(members).Keys == set e | e in members :: e.memory
    ensures |Expected(members)| <= |members|
    decreases |members|
  {
    if members != [] {
      var init, last := members[..|members| - 1], members[|members| - 1];
      ExpectedKeys(init);
      assert members == init + [last];
    }
  }

  lemma {:induction false} VerdictKeys(verdicts: seq<Verdict>)
    ensures VerdictOf(verdicts).Keys == set v | v in verdicts :: v.memory
    ensures forall id :: id in VerdictOf(verdicts) ==>
            VerdictOf(verdicts)[id] in verdicts && VerdictOf(verdicts)[id].memory == id
    ensures |VerdictOf(verdicts)| <= |verdicts|
    decreases |verdicts|
  {
    if verdicts != [] {
      var init, last := verdicts[..|verdicts| - 1], verdicts[|verdicts| - 1];
      VerdictKeys(init);
      assert verdicts == init + [last];
    }
  }

  function DisputedImages(ids: seq<Uuid>, memories: map<Uuid, Memory>, now: Time): seq<Affected>
    requires forall id :: id in ids ==> id in memories
  {
    seq(|ids|, i requires 0 <= i < |ids| => Affected(memories[ids[i]].revision,
      Restated(memories[ids[i]], Disputed, now)))
  }

  function JoiningMembers(ids: seq<Uuid>, conflict: Uuid, now: Time): seq<Member> {
    seq(|ids|, i requires 0 <= i < |ids| => Member(conflict, ids[i], "disputed", now))
  }

  function OpenWith(body: Body, owner: Owner, aggregate: Uuid, now: Time, expected: map<Uuid, nat>, loaded: map<Uuid,
      Memory>): Outcome<Prepared>
    requires body.OpenConflict? && loaded.Keys == expected.Keys
  {
    var ids := Ascending(expected.Keys);
    if exists id :: id in loaded && loaded[id].subject != body.subject then Err(InvalidInput)
    else if FirstStale(ids, loaded, expected).Some? then Err(FirstStale(ids, loaded, expected).value)
    else
      var conflict := Conflict(aggregate, owner, body.subject, body.conflictReason, now, body.metadata, None);
      Ok(Prepared(Opened(conflict, JoiningMembers(ids, aggregate, now), DisputedImages(ids, loaded, now)), None, None,
        None, None, Some(aggregate)))
  }

  function PrepareOpen(db: Db, body: Body, owner: Owner, aggregate: Uuid, now: Time): Outcome<Prepared>
    requires body.OpenConflict?
  {
    var expected := Expected(body.members);
    match LoadMemories(db.live.memories, owner, expected.Keys)
    case Err(error) => Err(error)
    case Ok(loaded) => OpenWith(body, owner, aggregate, now, expected, loaded)
  }

  function SettledImages(ids: seq<Uuid>, memories: map<Uuid, Memory>, verdicts: map<Uuid, Verdict>,
      now: Time): seq<Affected>
    requires forall id :: id in ids ==> id in memories && id in verdicts
  {
    seq(|ids|, i requires 0 <= i < |ids| => Affected(memories[ids[i]].revision,
      Restated(memories[ids[i]], verdicts[ids[i]].status, now)))
  }

  function SettledMembers(ids: seq<Uuid>, conflict: Uuid, verdicts: map<Uuid, Verdict>, stored: map<(Uuid, Uuid),
      Member>): seq<Member>
    requires forall id :: id in ids ==> id in verdicts && (conflict, id) in stored
  {
    seq(|ids|, i requires 0 <= i < |ids| => Member(conflict, ids[i], verdicts[ids[i]].disposition,
      stored[(conflict, ids[i])].joinedAt))
  }

  predicate NeedsConfirmation(m: Memory) {
    m.scope == PersonaScope || m.scope == RelationshipScope
  }

  function RevisionsOf(verdicts: map<Uuid, Verdict>): map<Uuid, nat> {
    map id | id in verdicts :: verdicts[id].revision
  }

  function ResolveWith(live: Projection, body: Body, owner: Owner, now: Time, verdicts: map<Uuid, Verdict>,
      loaded: map<Uuid, Memory>): Outcome<Prepared>
    requires body.ResolveConflict? && loaded.Keys == verdicts.Keys
  {
    var stored := StoredMemberIds(live.members, body.conflict);
    if !body.userConfirmed && (exists id :: id in loaded && NeedsConfirmation(loaded[id])) then Err(InvalidInput)
    else if body.conflict !in live.conflicts || live.conflicts[body.conflict].owner != owner then Err(NotFound)
    else if !live.conflicts[body.conflict].Open() || stored != verdicts.Keys then Err(ConflictStateChanged)
    else
      var ids := Ascending(stored);
      var expected := RevisionsOf(verdicts);
      if FirstStale(ids, loaded, expected).Some? then Err(FirstStale(ids, loaded, expected).value)
      else
        StoredMembers(live.members, body.conflict);
        var conflict := live.conflicts[body.conflict].(resolution := Some(Resolution(body.resolutionKind,
            body.rationale, now)));
        Ok(Prepared(
             Resolved(conflict, SettledMembers(ids, body.conflict, verdicts, live.members),
               SettledImages(ids, loaded, verdicts, now)),
             None, None, None, None, Some(body.conflict)))
  }

  function PrepareResolve(db: Db, body: Body, owner: Owner, now: Time): Outcome<Prepared>
    requires body.ResolveConflict?
  {
    var verdicts := VerdictOf(body.verdicts);
    match LoadMemories(db.live.memories, owner, verdicts.Keys)
    case Err(error) => Err(error)
    case Ok(loaded) => ResolveWith(db.live, body, owner, now, verdicts, loaded)
  }

  function PrepareRetire(db: Db, id: Uuid, expected: nat, owner: Owner, now: Time): Outcome<Prepared> {
    match LoadMemories(db.live.memories, owner, {id})
    case Err(error) => Err(error)
    case Ok(loaded) =>
      var current := loaded[id];
      if CheckRevision(current, expected).Some? then Err(CheckRevision(current, expected).value)
      else if current.status == Disputed then Err(ConflictStateChanged)
      else
        var after := Restated(current, Retired, now);
        Ok(Prepared(Transition(current.revision, after), Some(id), Some(current.revision), Some(id),
          Some(after.revision), None))
  }

  /** The tombstone of a memory: every content field erased. A sealed after-image keeps its deadline field. */
  function TombstoneOf(m: Memory, now: Time): Memory {
    m.(revision := m.revision + 1, updatedAt := now, status := Tombstoned, statement := None, reason := None,
       limits := [], fingerprint := None, attributes := m.attributes.(metadata := 0),
       expiresAt := if IsSealed(m) then m.expiresAt else None)
  }

  predicate KeyUsable(keys: map<Uuid, ContentKey>, m: Memory) {
    && m.protection == EnvelopeEncrypted && m.keyId.Some? && m.keyId.value in keys
    && var k := keys[m.keyId.value];
       k.tenant == m.owner.tenant && k.lineage == m.owner.lineage && k.memory == m.id && k.state == KeyActive
  }

  function PrepareForget(db: Db, id: Uuid, expected: nat, hard: bool, owner: Owner, now: Time): Outcome<Prepared> {
    match LoadMemories(db.live.memories, owner, {id})
    case Err(error) => Err(error)
    case Ok(loaded) =>
      var current := loaded[id];
      if CheckRevision(current, expected).Some? then Err(CheckRevision(current, expected).value)
      else if current.status == Disputed then Err(ConflictStateChanged)
      else if hard && !KeyUsable(db.keys, current) then Err(HardForgetUnavailable)
      else
        var after := TombstoneOf(current, now);
        Ok(Prepared(Tombstone(current.revision, after, hard), Some(id), Some(current.revision), Some(id),
          Some(after.revision), None))
  }

  function Prepare(db: Db, command: Command, owner: Owner, aggregate: Uuid, now: Time): Outcome<Prepared> {
    match command.body
    case Observe(input) => PrepareCreate(db, command, input, Candidate, owner, aggregate, now)
    case Remember(input) => PrepareCreate(db, command, input, Active, owner, aggregate, now)
    case Revise(id, expected, changes) => PrepareRevise(db, id, expected, changes, owner, now)
    case LinkTo(_, _, _, _, _, _) => PrepareLink(db, command.body, owner, aggregate, now)
    case OpenConflict(_, _, _, _) => PrepareOpen(db, command.body, owner, aggregate, now)
    case ResolveConflict(_, _, _, _, _) => PrepareResolve(db, command.body, owner, now)
    case Retire(id, expected) => PrepareRetire(db, id, expected, owner, now)
    case Forget(id, expected, hard) => PrepareForget(db, id, expected, hard, owner, now)
  }

  // ---------------------------------------------------------------- appending and staging

  /** Transport rules of the event store. */
  function TransportVerdict(directory: Directory, principal: Principal, operation: Operation): Option<Failure> {
    if !BindingMatches(directory, principal) then Some(NotFound)
    else
      var b := directory.bindings[principal.binding];
      if !b.usable then Some(Forbidden)
      else if !b.attached then Some(DependencyUnavailable)
      else if operation !in b.operations then Some(Forbidden)
      else if b.kind == GithubIngress then
        if operation != Observed && operation != Remembered then Some(Forbidden) else Some(InvalidInput)
      else if principal.ingress.Some? then Some(InvalidInput)
      else None
  }

  predicate OverRelay(directory: Directory, principal: Principal) {
    principal.binding in directory.bindings && directory.bindings[principal.binding].kind == Relay
  }

  /** Content of the highest sensitivity is written sealed and never over the relay. */
  predicate Carried(relay: bool, m: Memory) {
    m.attributes.sensitivity == MAX_SENSITIVITY ==> IsSealed(m) && !relay
  }

  predicate ImagesCarried(relay: bool, payload: Payload) {
    forall m :: m in AfterImages(payload) ==> Carried(relay, m)
  }

  predicate KeyTaken(events: seq<Event>, tenant: Uuid, client: Uuid, key: string) {
    exists e :: e in events && e.owner.tenant == tenant && e.client == client && e.idempotencyKey == key
  }

  /** Appends one event and stages its after-images, or says why the transaction rolls back. */
  function Append(db: Db, e: Event): Outcome<Db> {
    if !ValidEnvelope(e) || !ValidPayload(e.payload) then Err(InvalidInput)
    else if e.id in db.live.eventScopes || KeyTaken(db.events, e.owner.tenant, e.client, e.idempotencyKey)
      then Err(DependencyUnavailable)
    else if e.owner.branch !in db.live.branches || Fold(LoadMinimal(db.live, e), e).None? then Err(InvalidInput)
    else if !InsertsFree(db.live, e) then Err(DependencyUnavailable)
    else if !LiveUnique(Staged(db.live, e).memories) then Err(DependencyUnavailable)
    else Ok(db.(live := Staged(db.live, e), events := db.events + [e]))
  }

  // ---------------------------------------------------------------- outbox

  /** Stable insertion by identifier. */
  function InsertImage(sorted: seq<Memory>, m: Memory): seq<Memory>
    decreases |sorted|
  {
    if sorted == [] || sorted[|sorted| - 1].id <= m.id then sorted + [m]
    else InsertImage(sorted[..|sorted| - 1], m) + [sorted[|sorted| - 1]]
  }

  function SortById(images: seq<Memory>): seq<Memory>
    decreases |images|
  {
    if images == [] then [] else InsertImage(SortById(images[..|images| - 1]), images[|images| - 1])
  }

  predicate ChangesFingerprint(body: Body) {
    body.Revise? && (body.changes.statement.Some? || body.changes.category.Some? || body.changes.ontology.Some?
      || body.changes.limits.Some?)
  }

  predicate ChecksDuplicates(body: Body) {
    body.Observe? || body.Remember? || ChangesFingerprint(body)
  }

  function ImageJobs(body: Body, event: Uuid, images: seq<Memory>): seq<JobSpec>
    decreases |images|
  {
    if images == [] then []
    else
      var m := images[|images| - 1];
      ImageJobs(body, event, images[..|images| - 1])
      + [JobSpec(EmbedMemory, m.id, Some(m.revision), event)]
      + if ChecksDuplicates(body) then [JobSpec(CheckDuplicates, m.id, Some(m.revision), event)] else []
  }

  predicate HardForget(body: Body) {
    body.Forget? && body.hard
  }

  /** The jobs of one commit: per after-image, then the export, then the purge of a hard forget. */
  function ScheduledJobs(body: Body, event: Event, memory: Option<Uuid>, revision: Option<nat>): seq<JobSpec> {
    ImageJobs(body, event.id, SortById(AfterImages(event.payload)))
    + [JobSpec(ExportBatch, event.id, None, event.id)]
    + if HardForget(body) && memory.Some? then [JobSpec(PurgePayload, memory.value, revision, event.id)] else []
  }

  function Enqueued(specs: seq<JobSpec>, ids: seq<Uuid>, tenant: Uuid): seq<Job>
    requires |specs| <= |ids|
  {
    seq(|specs|, i requires 0 <= i < |specs| => Job(ids[i], tenant, specs[i]))
  }

  // ---------------------------------------------------------------- one attempt

  /** Identities allocated before the retry loop, so that every attempt of one call uses the same ones. */
  datatype Identities = Identities(event: Uuid, receipt: Uuid, aggregate: Uuid, jobs: seq<Uuid>)

  datatype Response = Success(result: Receipted) | Failed(error: Failure)

  function EventOf(db: Db, principal: Principal, command: Command, owner: Owner, prepared: Prepared, id: Uuid,
      now: Time): Event {
    Event(|db.events| + 1, id, owner, principal.actor, principal.client, EventOperation(command.body),
          prepared.memoryId, prepared.expected, command.causation, command.idempotencyKey, prepared.payload, now)
  }

  function ResultOf(command: Command, ids: Identities, prepared: Prepared): Receipted {
    Receipted(EventOperation(command.body), ids.receipt, Some(ids.event), prepared.resultMemory,
      prepared.resultRevision, prepared.conflict,
              if command.body.Forget? then Some(if command.body.hard then PurgePending else LogicallyForgotten)
                else None,
              false)
  }

  /** Hard forget asks for the destruction of the memory's active key. */
  function RequestDestruction(keys: map<Uuid, ContentKey>, owner: Owner, memory: Uuid, now: Time): map<Uuid,
      ContentKey> {
    map k | k in keys ::
      if keys[k].tenant == owner.tenant && keys[k].lineage == owner.lineage && keys[k].memory == memory
        && keys[k].state == KeyActive
      then keys[k].(state := DestructionRequested, requestedAt := Some(now))
      else keys[k]
  }

  function ReceiptOf(principal: Principal, command: Command, owner: Owner, prepared: Prepared,
      ids: Identities): Receipt {
    Receipt(ids.receipt, principal.tenant, principal.client, command.idempotencyKey,
            DigestOf(principal, owner.lineage, command), ResultOf(command, ids, prepared))
  }

  /** What is stored beside the event: its jobs, the request to destroy a key and the receipt. */
  function Recorded(db: Db, principal: Principal, command: Command, owner: Owner, prepared: Prepared, ids: Identities,
      specs: seq<JobSpec>, now: Time): Db
    requires |specs| <= |ids.jobs|
  {
    var keys :=
      if HardForget(command.body) && prepared.resultMemory.Some?
      then RequestDestruction(db.keys, owner, prepared.resultMemory.value, now) else db.keys;
    db.(jobs := db.jobs + Enqueued(specs, ids.jobs, principal.tenant), keys := keys,
        receipts := db.receipts + [ReceiptOf(principal, command, owner, prepared, ids)])
  }

  /** The commit of a prepared command. */
  function Commit(db: Db, principal: Principal, command: Command, owner: Owner, prepared: Prepared, ids: Identities,
      now: Time): Outcome<Db> {
    var e := EventOf(db, principal, command, owner, prepared, ids.event, now);
    if !ValidEnvelope(e) || !ValidPayload(e.payload) then Err(InvalidInput)
    else if TransportVerdict(db.directory, principal, e.operation).Some?
      then Err(TransportVerdict(db.directory, principal, e.operation).value)
    else if !ImagesCarried(OverRelay(db.directory, principal), e.payload) then Err(InvalidInput)
    else
      match Append(db, e)
      case Err(error) => Err(error)
      case Ok(appended) =>
        var specs := ScheduledJobs(command.body, e, prepared.resultMemory, prepared.resultRevision);
        if |specs| > |ids.jobs| then Err(InvalidInput)
        else
          Ok(Recorded(appended, principal, command, owner, prepared, ids, specs, now))
  }

  /** One attempt of a command: the response and the database it leaves. */
  function Attempt(db: Db, principal: Principal, command: Command, ids: Identities, now: Time): (Response, Db) {
    match Gate(db, principal, command)
    case Err(error) => (Failed(error), db)
    case Ok(owner) =>
      match FindReceipt(db.receipts, principal, command.idempotencyKey)
      case Some(receipt) =>
        if receipt.digest != DigestOf(principal, owner.lineage, command) then (Failed(IdempotencyKeyReused), db)
        else (Success(receipt.result.(replay := true)), db)
      case None =>
        if db.directory.branches[command.branch].closed then (Failed(Forbidden), db)
        else
          match Prepare(db, command, owner, ids.aggregate, now)
          case Err(error) => (Failed(error), db)
          case Ok(prepared) =>
            match Commit(db, principal, command, owner, prepared, ids, now)
            case Err(error) => (Failed(error), db)
            case Ok(next) => (Success(ResultOf(command, ids, prepared)), next)
  }
}
