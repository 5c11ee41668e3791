/** The memory domain: after-images, events and the projection they fold into.

    An identifier is a number (only equality and order matter), an instant is an
    integer, and the fingerprint of a claim is the claim itself: the only thing any
    caller does with the SHA-256 digest is compare it.
 */
module Domain {

  type Uuid = nat
  type Time = int

  datatype Option<+T> = None | Some(value: T)

  datatype Status = Candidate | Active | Disputed | Superseded | Retired | Tombstoned

  datatype Visibility = PrivateRoot | Restricted | Shareable | PublicSeed

  datatype ScopeKind = GlobalScope | PersonaScope | RelationshipScope | ProjectScope | EpisodicScope | SceneLocalScope

  datatype Category =
    | StableFact | UserPreference | AssistantPattern | BoundaryOrPermission | Convention | RelationshipPattern
    | EmergentTendency | EpisodicAnchor | ProjectDecision | ProjectState | Procedure | OpenQuestion
    | Interpretation | ExternalFact

  datatype Ontology =
    | UserFact | TechnicalFact | SelfDescription | ObservedBehavior | InteractionConvention | RoleplayedScene
    | Hypothesis | Uncertain

  datatype Protection = Plaintext | EnvelopeEncrypted | CryptographicallyErased

  /** Tenant, lineage and branch: what every canonical row belongs to. */
  datatype Owner = Owner(tenant: Uuid, lineage: Uuid, branch: Uuid)

  /** What an exact fingerprint binds: everything that makes two memories the same claim. */
  datatype Claim = Claim(statement: string, category: Category, ontology: Ontology, scope: ScopeKind,
      limits: set<string>)

  /** `imported`: the authority class is that of imported legacy memory. `rest` stands for the fields that are carried
      and never read. */
  datatype Attributes = Attributes(
    sensitivity: nat, origin: Option<Uuid>, imported: bool, validFrom: Option<Time>, validTo: Option<Time>,
      metadata: nat, rest: nat)

  /** A complete memory after-image. */
  datatype Memory = Memory(
    id: Uuid,
    owner: Owner,
    subject: Uuid,
    revision: nat,
    status: Status,
    scope: ScopeKind,
    visibility: Visibility,
    category: Category,
    ontology: Ontology,
    statement: Option<string>,
    reason: Option<string>,
    limits: seq<string>,
    attributes: Attributes,
    approvedBy: Option<Uuid>,
    protection: Protection,
    keyId: Option<Uuid>,
    envelope: Option<nat>,
    createdAt: Time,
    updatedAt: Time,
    expiresAt: Option<Time>,
    fingerprint: Option<Claim>)

  datatype Link = Link(id: Uuid, owner: Owner, source: Uuid, target: Uuid, kind: nat, active: bool, createdAt: Time,
      metadata: nat)

  datatype Resolution = Resolution(kind: string, rationale: string, at: Time)

  /** A conflict is open exactly when it carries no resolution. */
  datatype Conflict = Conflict(id: Uuid, owner: Owner, subject: Uuid, reason: string, openedAt: Time, metadata: nat,
      resolution: Option<Resolution>)
  {
    predicate Open() { resolution.None? }
  }

  datatype Member = Member(conflict: Uuid, memory: Uuid, disposition: string, joinedAt: Time)

  datatype EvidenceKind = UserConfirmation | AssistantObservation | ImportManifest | OtherEvidence

  /** A row of evidence for a memory. Rows are active as long as they are stored. */
  datatype Evidence = Evidence(id: Uuid, owner: Owner, memory: Uuid, key: string, kind: EvidenceKind, trusted: bool,
      createdAt: Time)

  datatype Affected = Affected(previous: nat, memory: Memory)

  datatype Operation =
    | Observed | Remembered | CandidatePromoted | CandidateExpired | Revised
    | RetiredEvent | TombstonedEvent | LinkedEvent | ConflictOpened | ConflictResolved

  datatype Payload =
    | Created(memory: Memory, evidence: seq<Evidence>)
    | Transition(previous: nat, memory: Memory)
    | Lifecycle(previous: nat, memory: Memory, decision: Uuid, evidence: seq<Evidence>)
    | Tombstone(previous: nat, memory: Memory, hard: bool)
    | Linked(link: Link)
    | Opened(conflict: Conflict, members: seq<Member>, affected: seq<Affected>)
    | Resolved(conflict: Conflict, members: seq<Member>, affected: seq<Affected>)

  datatype Event = Event(
    sequence: nat,
    id: Uuid,
    owner: Owner,
    actor: Uuid,
    client: Uuid,
    operation: Operation,
    memoryId: Option<Uuid>,
    expectedRevision: Option<nat>,
    causation: Option<Uuid>,
    idempotencyKey: string,
    payload: Payload,
    createdAt: Time)

  datatype Branch = Branch(owner: Owner, ceiling: Visibility)

  datatype Projection = Projection(
    sequence: nat,
    memories: map<Uuid, Memory>,
    evidence: map<Uuid, Evidence>,
    links: map<Uuid, Link>,
    conflicts: map<Uuid, Conflict>,
    members: map<(Uuid, Uuid), Member>,
    branches: map<Uuid, Branch>,
    eventScopes: map<Uuid, Owner>)

  /** Statuses covered by the live-fingerprint unique index. */
  predicate Live(s: Status) {
    s == Candidate || s == Active || s == Disputed
  }

  predicate IsSealed(m: Memory) {
    m.protection != Plaintext
  }

  /** The claim of a memory that still has its statement. */
  function ClaimOf(m: Memory): Claim {
    Claim(if m.statement.Some? then m.statement.value else "", m.category, m.ontology, m.scope, set l | l in m.limits)
  }

  /** Memory after-images carried by a payload, in payload order. */
  function AfterImages(payload: Payload): seq<Memory> {
    match payload
    case Created(m, _) => [m]
    case Transition(_, m) => [m]
    case Lifecycle(_, m, _, _) => [m]
    case Tombstone(_, m, _) => [m]
    case Linked(_) => []
    case Opened(_, _, affected) => seq(|affected|, i requires 0 <= i < |affected| => affected[i].memory)
    case Resolved(_, _, affected) => seq(|affected|, i requires 0 <= i < |affected| => affected[i].memory)
  }

  /** Evidence rows carried by a payload. */
  function NewEvidence(payload: Payload): seq<Evidence> {
    match payload
    case Created(_, evidence) => evidence
    case Lifecycle(_, _, _, evidence) => evidence
    case _ => []
  }

  /** The memory identifiers an event writes. */
  function Touched(payload: Payload): set<Uuid> {
    set m | m in AfterImages(payload) :: m.id
  }

  function Rank(v: Visibility): nat {
    match v
    case PrivateRoot => 0
    case Restricted => 1
    case Shareable => 2
    case PublicSeed => 3
  }

  /** The closed matrix of categories and ontological statuses. */
  predicate Compatible(category: Category, o: Ontology) {
    match category
    case StableFact => o == UserFact || o == TechnicalFact
    case UserPreference => o == UserFact || o == Uncertain
    case AssistantPattern => o == SelfDescription || o == ObservedBehavior || o == Hypothesis || o == Uncertain
    case BoundaryOrPermission => o == UserFact || o == InteractionConvention || o == Uncertain
    case Convention => o == InteractionConvention || o == UserFact || o == Uncertain
    case RelationshipPattern => o == ObservedBehavior || o == InteractionConvention || o == Hypothesis || o == Uncertain
    case EmergentTendency => o == SelfDescription || o == ObservedBehavior || o == Hypothesis || o == Uncertain
    case EpisodicAnchor => o != Hypothesis
    case ProjectDecision => o == TechnicalFact || o == Uncertain
    case ProjectState => o == TechnicalFact || o == Uncertain
    case Procedure => o == TechnicalFact || o == InteractionConvention || o == Uncertain
    case OpenQuestion => o == Hypothesis || o == Uncertain
    case Interpretation => o == Hypothesis || o == Uncertain
    case ExternalFact => o == TechnicalFact || o == Hypothesis || o == Uncertain
  }

  const MAX_SENSITIVITY := 4
  const MAX_LIMITS := 32

  /** The structural rules on what a memory of a scope and a visibility may be. */
  predicate ContentRules(scope: ScopeKind, visibility: Visibility, category: Category, ontology: Ontology,
      a: Attributes) {
    && Compatible(category, ontology)
    && a.sensitivity <= MAX_SENSITIVITY
    && (a.validFrom.Some? && a.validTo.Some? ==> a.validFrom.value <= a.validTo.value)
    && (scope == GlobalScope ==> ontology != RoleplayedScene)
    && (scope == EpisodicScope ==> a.origin.Some? || a.imported)
    && (scope == SceneLocalScope ==> a.origin.Some? && visibility != Shareable && visibility != PublicSeed)
    && (visibility == PublicSeed ==> a.sensitivity == 0)
    && (visibility == Shareable ==> a.sensitivity <= 1)
  }

  predicate DistinctLimits(limits: seq<string>) {
    |limits| <= MAX_LIMITS && forall i, j :: 0 <= i < j < |limits| ==> limits[i] != limits[j]
  }

  predicate Coherent(m: Memory) {
    ContentRules(m.scope, m.visibility, m.category, m.ontology, m.attributes) && DistinctLimits(m.limits)
  }

  /** Shape every accepted plaintext after-image has. */
  predicate PlaintextShape(m: Memory) {
    && (m.status == Tombstoned ==> m.statement.None? && m.reason.None? && m.limits == [] && m.fingerprint.None?)
    && (m.status != Tombstoned ==>
         m.statement.Some? && m.statement.value != "" && m.reason.Some? && m.reason.value != "")
    && (m.visibility == PublicSeed ==> m.status == Active && m.approvedBy.Some?)
    && m.keyId.None? && m.envelope.None?
    && (m.expiresAt.Some? ==> m.status == Candidate && m.expiresAt.value > m.createdAt)
  }

  /** Shape every accepted sealed after-image has. */
  predicate SealedShape(m: Memory) {
    && m.statement.None? && m.reason.None? && m.limits == [] && m.fingerprint.None?
    && m.visibility != PublicSeed
    && m.keyId.Some? && m.envelope.Some? && m.attributes.metadata == 0
    && (m.protection == CryptographicallyErased ==> m.status == Tombstoned)
    && (m.expiresAt.Some? <==> m.status == Candidate)
    && (m.expiresAt.Some? ==> m.expiresAt.value > m.createdAt)
  }

  predicate WellShaped(m: Memory) {
    && m.revision >= 1
    && m.updatedAt >= m.createdAt
    && Coherent(m)
    && if IsSealed(m) then SealedShape(m) else PlaintextShape(m)
  }
}
