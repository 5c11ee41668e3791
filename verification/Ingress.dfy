/** Ingress rows guarded by triggers: each row step is checked as it runs, reciprocity between events and
    items is checked at commit, and a transaction is all or nothing.
 */
module Ingress {
  import opened Domain

  // ---------------------------------------------------------------- rows

  datatype IngressState = Discovered | Validated | Accepted | Duplicate | Conflicted | Rejected | Quarantined

  datatype Item = Item(
    id: Uuid, tenant: Uuid, binding: Uuid, installation: Uuid, actor: Uuid, client: Uuid, provider: string,
    repository: string, branchName: string, path: string, objectId: string, commitId: string, blobId: string,
      discoveredAt: Time,
    key: Option<string>, payloadDigest: Option<nat>, state: IngressState, validatedAt: Option<Time>,
      processedAt: Option<Time>,
    resultEvent: Option<Uuid>, resultMemory: Option<Uuid>, error: Option<string>, diagnostic: Option<string>)

  datatype EventRow = EventRow(
    id: Uuid, tenant: Uuid, ingress: Option<Uuid>, memory: Option<Uuid>, binding: Uuid, actor: Uuid, client: Uuid,
      key: string, operation: Operation)

  datatype BindingRow = BindingRow(
    tenant: Uuid, actor: Uuid, client: Uuid, github: bool, installation: Option<Uuid>, operations: set<Operation>)

  datatype ReceiptRow = ReceiptRow(tenant: Uuid, client: Uuid, key: string, event: Option<Uuid>, memory: Option<Uuid>,
      decision: Option<Uuid>)

  datatype DecisionRow = DecisionRow(
    id: Uuid, tenant: Uuid, event: Option<Uuid>, memory: Option<Uuid>, actor: Uuid, client: Uuid, binding: Uuid,
    sourceKind: string, requested: string, outcome: string)

  /** `revoked`: bindings whose actor, client or installation is revoked or whose validity has ended.
      `history`: every version an item row has had since it was inserted. */
  datatype Tables = Tables(
    items: map<Uuid, Item>, events: map<Uuid, EventRow>, receipts: seq<ReceiptRow>, decisions: seq<DecisionRow>,
    bindings: map<Uuid, BindingRow>, revoked: set<Uuid>, history: map<Uuid, seq<Item>>)

  datatype RowStep =
    | InsertItem(item: Item)
    | UpdateItem(item: Item)
    | DeleteItem(id: Uuid)
    | InsertEvent(event: EventRow)
    | UpdateEvent(event: EventRow)
    | DeleteEvent(id: Uuid)
    | InsertReceipt(receipt: ReceiptRow)
    | InsertDecision(decision: DecisionRow)
    | InsertBinding(id: Uuid, binding: BindingRow)
    | Revoke(id: Uuid)

  /** A check put off to commit, with the row version that raised it. */
  datatype Check = EventReciprocal(event: EventRow) | ResultReciprocal(item: Item)

  // ---------------------------------------------------------------- immutable provenance

  datatype Field =
    | IdField | TenantField | BindingField | InstallationField | ActorField | ClientField | ProviderField
    | RepositoryField
    | BranchField | PathField | ObjectField | CommitField | BlobField | DiscoveredField

  datatype Value = Number(n: int) | Text(s: string)

  const PROVENANCE_FIELDS := [
    IdField, TenantField, BindingField, InstallationField, ActorField, ClientField, ProviderField, RepositoryField,
    BranchField, PathField, ObjectField, CommitField, BlobField, DiscoveredField]

  function FieldOf(item: Item, f: Field): Value {
    match f
    case IdField => Number(item.id)
    case TenantField => Number(item.tenant)
    case BindingField => Number(item.binding)
    case InstallationField => Number(item.installation)
    case ActorField => Number(item.actor)
    case ClientField => Number(item.client)
    case ProviderField => Text(item.provider)
    case RepositoryField => Text(item.repository)
    case BranchField => Text(item.branchName)
    case PathField => Text(item.path)
    case ObjectField => Text(item.objectId)
    case CommitField => Text(item.commitId)
    case BlobField => Text(item.blobId)
    case DiscoveredField => Number(item.discoveredAt)
  }

  predicate SameProvenance(a: Item, b: Item) {
    && a.id == b.id && a.tenant == b.tenant && a.binding == b.binding && a.installation == b.installation
    && a.actor == b.actor && a.client == b.client && a.provider == b.provider && a.repository == b.repository
    && a.branchName == b.branchName && a.path == b.path && a.objectId == b.objectId && a.commitId == b.commitId
    && a.blobId == b.blobId && a.discoveredAt == b.discoveredAt
  }

  /** The field-by-field trigger: it passes exactly when every listed field is unchanged. */
  method FieldsUnchanged(before: Item, after: Item, fields: seq<Field>) returns (same: bool)
    ensures same <==> forall f :: f in fields ==> FieldOf(before, f) == FieldOf(after, f)
  {
    for i := 0 to |fields|
      invariant forall f :: f in fields[..i] ==> FieldOf(before, f) == FieldOf(after, f)
    {
      assert fields[i] in fields;
      if FieldOf(before, fields[i]) != FieldOf(after, fields[i]) { return false; }
      assert fields[..i + 1] == fields[..i] + [fields[i]];
    }
    assert fields[..|fields|] == fields;
    return true;
  }

  lemma EveryFieldListed(f: Field)
    ensures f in PROVENANCE_FIELDS
  {
    match f {
      case IdField => assert PROVENANCE_FIELDS[0] == f;
      case TenantField => assert PROVENANCE_FIELDS[1] == f;
      case BindingField => assert PROVENANCE_FIELDS[2] == f;
      case InstallationField => assert PROVENANCE_FIELDS[3] == f;
      case ActorField => assert PROVENANCE_FIELDS[4] == f;
      case ClientField => assert PROVENANCE_FIELDS[5] == f;
      case ProviderField => assert PROVENANCE_FIELDS[6] == f;
      case RepositoryField => assert PROVENANCE_FIELDS[7] == f;
      case BranchField => assert PROVENANCE_FIELDS[8] == f;
      case PathField => assert PROVENANCE_FIELDS[9] == f;
      case ObjectField => assert PROVENANCE_FIELDS[10] == f;
      case CommitField => assert PROVENANCE_FIELDS[11] == f;
      case BlobField => assert PROVENANCE_FIELDS[12] == f;
      case DiscoveredField => assert PROVENANCE_FIELDS[13] == f;
    }
  }

  lemma FieldsDetermine(a: Item, b: Item)
    requires forall f :: FieldOf(a, f) == FieldOf(b, f)
    ensures SameProvenance(a, b)
  {
    assert FieldOf(a, IdField) == FieldOf(b, IdField) && FieldOf(a, TenantField) == FieldOf(b, TenantField);
    assert FieldOf(a, BindingField) == FieldOf(b, BindingField)
           && FieldOf(a, InstallationField) == FieldOf(b, InstallationField);
    assert FieldOf(a, ActorField) == FieldOf(b, ActorField) && FieldOf(a, ClientField) == FieldOf(b, ClientField);
    assert FieldOf(a, ProviderField) == FieldOf(b, ProviderField)
           && FieldOf(a, RepositoryField) == FieldOf(b, RepositoryField);
    assert FieldOf(a, BranchField) == FieldOf(b, BranchField) && FieldOf(a, PathField) == FieldOf(b, PathField);
    assert FieldOf(a, ObjectField) == FieldOf(b, ObjectField) && FieldOf(a, CommitField) == FieldOf(b, CommitField);
    assert FieldOf(a, BlobField) == FieldOf(b, BlobField) && FieldOf(a, DiscoveredField) == FieldOf(b, DiscoveredField);
  }

  /** The listed fields are the whole provenance of a row. */
  lemma ProvenanceFieldsCover(a: Item, b: Item)
    ensures (forall f :: f in PROVENANCE_FIELDS ==> FieldOf(a, f) == FieldOf(b, f)) <==> SameProvenance(a, b)
  {
    if forall f :: f in PROVENANCE_FIELDS ==> FieldOf(a, f) == FieldOf(b, f) {
      forall f ensures FieldOf(a, f) == FieldOf(b, f) { EveryFieldListed(f); }
      FieldsDetermine(a, b);
    }
  }

  // ---------------------------------------------------------------- row guards

  predicate ColumnsValid(item: Item) {
    && item.provider == "github"
    && (item.key.Some? ==> 1 <= |item.key.value| <= 255)
    && (item.processedAt.Some? ==> item.processedAt.value >= item.discoveredAt)
    && (item.validatedAt.Some? ==> item.validatedAt.value >= item.discoveredAt)
    && (item.diagnostic.Some? ==> |item.diagnostic.value| <= 512)
  }

  predicate BeginsDiscovered(item: Item) {
    && item.state == Discovered && item.key.None? && item.payloadDigest.None? && item.validatedAt.None?
    && item.processedAt.None?
    && item.resultEvent.None? && item.resultMemory.None? && item.error.None? && item.diagnostic.None?
  }

  predicate StateMove(before: IngressState, after: IngressState) {
    || (before == Discovered && (after == Validated || after == Quarantined))
    || (before == Validated && (after == Accepted || after == Duplicate || after == Conflicted || after == Rejected
         || after == Quarantined))
  }

  /** The semantic identity may be written only while validating, and only once. */
  predicate IdentityMove(before: Item, after: Item) {
    (after.key == before.key && after.payloadDigest == before.payloadDigest)
    || (&& before.state == Discovered && after.state == Validated
        && before.key.None? && before.payloadDigest.None? && after.key.Some? && after.payloadDigest.Some?)
  }

  predicate ProcessedAfterValidation(item: Item) {
    item.validatedAt.Some? && item.processedAt.Some? && item.processedAt.value >= item.validatedAt.value
  }

  predicate ResultShape(item: Item) {
    match item.state
    case Discovered => true
    case Validated =>
      item.validatedAt.Some? && item.processedAt.None? && item.resultEvent.None? && item.resultMemory.None?
      && item.error.None? && item.diagnostic.None?
    case Accepted => ProcessedAfterValidation(item) && item.resultEvent.Some? && item.resultMemory.Some?
      && item.error.None? && item.diagnostic.None?
    case Duplicate => ProcessedAfterValidation(item) && item.resultEvent.Some? && item.resultMemory.Some?
      && item.error.None? && item.diagnostic.None?
    case Conflicted => ProcessedAfterValidation(item) && item.resultEvent.None? && item.resultMemory.None?
      && item.error.Some?
    case Rejected =>
      item.processedAt.Some? && (item.validatedAt.Some? ==> item.processedAt.value >= item.validatedAt.value)
      && item.resultEvent.None? && item.resultMemory.None? && item.error.Some?
    case Quarantined =>
      item.processedAt.Some? && (item.validatedAt.Some? ==> item.processedAt.value >= item.validatedAt.value)
      && item.resultEvent.None? && item.resultMemory.None? && item.error.Some?
  }

  predicate MayUpdate(before: Item, after: Item) {
    && SameProvenance(before, after)
    && IdentityMove(before, after)
    && StateMove(before.state, after.state)
    && (after.state != Quarantined ==> after.key.Some? && after.payloadDigest.Some?)
    && ResultShape(after)
    && ColumnsValid(after)
  }

  predicate MayInsert(t: Tables, item: Item) {
    && item.id !in t.items
    && BeginsDiscovered(item) && ColumnsValid(item)
    && item.binding in t.bindings
    && (var b := t.bindings[item.binding]; b.tenant == item.tenant && b.actor == item.actor && b.client == item.client)
    && forall i :: i in t.items ==>
         !(t.items[i].provider == item.provider && t.items[i].repository == item.repository
           && t.items[i].objectId == item.objectId)
  }

  /** A row another row points at cannot be deleted. */
  predicate MayDelete(t: Tables, id: Uuid) {
    id in t.items && forall e :: e in t.events ==> t.events[e].ingress != Some(id)
  }

  predicate Creation(op: Operation) {
    op == Observed || op == Remembered
  }

  /** The provenance trigger on events. */
  predicate MayRecord(t: Tables, e: EventRow) {
    && e.id !in t.events
    && (forall k :: k in t.events ==>
         !(t.events[k].tenant == e.tenant && t.events[k].client == e.client && t.events[k].key == e.key))
    && e.binding in t.bindings && e.binding !in t.revoked
    && var b := t.bindings[e.binding];
       && b.tenant == e.tenant && b.actor == e.actor && b.client == e.client && e.operation in b.operations
       && if b.github then
            && b.installation.Some? && Creation(e.operation) && e.ingress.Some?
            && e.ingress.value in t.items
            && var item := t.items[e.ingress.value];
               && item.tenant == e.tenant && item.provider == "github" && item.binding == e.binding
               && item.actor == e.actor
               && item.client == e.client && item.installation == b.installation.value && item.key == Some(e.key)
               && item.state == Validated
          else e.ingress.None?
  }

  // ---------------------------------------------------------------- transactions

  /** One row step: the new tables and the checks it puts off, or a refusal that ends the transaction. */
  function Apply(t: Tables, step: RowStep): Option<(Tables, seq<Check>)> {
    match step
    case InsertItem(item) =>
      if MayInsert(t, item)
      then Some((t.(items := t.items[item.id := item], history := t.history[item.id := [item]]),
        [ResultReciprocal(item)]))
      else None
    case UpdateItem(item) =>
      if item.id in t.items && MayUpdate(t.items[item.id], item)
      then Some((t.(items := t.items[item.id := item], history := t.history[item.id := Versions(t, item.id) + [item]]),
        [ResultReciprocal(item)]))
      else None
    case DeleteItem(id) =>
      if MayDelete(t, id) then Some((t.(items := t.items - {id}, history := t.history - {id}), [])) else None
    case InsertEvent(e) =>
      if MayRecord(t, e) then Some((t.(events := t.events[e.id := e]), [EventReciprocal(e)])) else None
    case UpdateEvent(_) => None
    case DeleteEvent(_) => None
    case InsertReceipt(r) => Some((t.(receipts := t.receipts + [r]), []))
    case InsertDecision(d) => Some((t.(decisions := t.decisions + [d]), []))
    case InsertBinding(id, b) => if id in t.bindings then None else Some((t.(bindings := t.bindings[id := b]), []))
    case Revoke(id) => Some((t.(revoked := t.revoked + {id}), []))
  }

  function Versions(t: Tables, id: Uuid): seq<Item> {
    if id in t.history then t.history[id] else []
  }

  function RunSteps(t: Tables, steps: seq<RowStep>): Option<(Tables, seq<Check>)>
    decreases |steps|
  {
    if steps == [] then Some((t, []))
    else
      match RunSteps(t, steps[..|steps| - 1])
      case None => None
      case Some((mid, pending)) =>
        match Apply(mid, steps[|steps| - 1])
        case None => None
        case Some((after, raised)) => Some((after, pending + raised))
  }

  predicate BackedByEvent(t: Tables, item: Item) {
    item.resultEvent.Some? && item.resultEvent.value in t.events &&
    var e := t.events[item.resultEvent.value];
    && e.tenant == item.tenant && e.ingress == Some(item.id) && e.memory == item.resultMemory
    && e.binding == item.binding
    && e.actor == item.actor && e.client == item.client && Some(e.key) == item.key && Creation(e.operation)
  }

  predicate Promotes(item: Item, r: ReceiptRow, d: DecisionRow) {
    && d.tenant == r.tenant && Some(d.id) == r.decision
    && r.tenant == item.tenant && r.client == item.client && Some(r.key) == item.key
    && r.event.Some? && r.event == item.resultEvent && r.memory.Some? && r.memory == item.resultMemory
    && d.event == item.resultEvent && d.memory == item.resultMemory && d.actor == item.actor && d.client == item.client
    && d.binding == item.binding && d.sourceKind == "candidate_reassessment" && d.requested == "promote"
    && d.outcome == "promoted"
  }

  predicate BackedByPromotion(t: Tables, item: Item) {
    exists r, d :: r in t.receipts && d in t.decisions && Promotes(item, r, d)
  }

  predicate Backed(t: Tables, item: Item) {
    match item.state
    case Accepted => BackedByEvent(t, item) || BackedByPromotion(t, item)
    case Duplicate =>
      && item.resultEvent.Some? && item.resultEvent.value in t.events
      && var e := t.events[item.resultEvent.value];
         e.tenant == item.tenant && e.memory == item.resultMemory && Creation(e.operation)
    case _ => true
  }

  /** The result-event reference of an item is a stored event of its tenant. */
  predicate ResultStored(t: Tables, item: Item) {
    item.resultEvent.Some? ==>
      item.resultEvent.value in t.events && t.events[item.resultEvent.value].tenant == item.tenant
  }

  predicate PointsBack(t: Tables, e: EventRow) {
    e.ingress.Some? ==>
      && e.ingress.value in t.items
      && var item := t.items[e.ingress.value];
         item.tenant == e.tenant && item.state == Accepted && item.resultEvent == Some(e.id)
           && item.resultMemory == e.memory && e.memory.Some?
  }

  predicate Passes(t: Tables, check: Check) {
    match check
    case EventReciprocal(e) => PointsBack(t, e)
    case ResultReciprocal(item) => Backed(t, item) && ResultStored(t, item)
  }

  /** All or nothing: every step passes its guards and every deferred check holds at the end. */
  function Transact(t: Tables, steps: seq<RowStep>): Tables {
    match RunSteps(t, steps)
    case None => t
    case Some((after, pending)) => if forall c :: c in pending ==> Passes(after, c) then after else t
  }

  /** Every step passed its guards and every check put off holds at the end. */
  predicate Commits(t: Tables, steps: seq<RowStep>) {
    && RunSteps(t, steps).Some?
    && forall c :: c in RunSteps(t, steps).value.1 ==> Passes(RunSteps(t, steps).value.0, c)
  }

  function Run(t: Tables, transactions: seq<seq<RowStep>>): Tables
    decreases |transactions|
  {
    if transactions == [] then t else Transact(Run(t, transactions[..|transactions| - 1]),
      transactions[|transactions| - 1])
  }

  const EMPTY := Tables(map[], map[], [], [], map[], {}, map[])

  // ---------------------------------------------------------------- inside a transaction

  /** Events, receipts and decisions are only ever added. */
  ghost predicate Extends(before: Tables, after: Tables) {
    && (forall e :: e in before.events ==> e in after.events && after.events[e] == before.events[e])
    && (forall r :: r in before.receipts ==> r in after.receipts)
    && (forall d :: d in before.decisions ==> d in after.decisions)
  }

  ghost predicate Reciprocal(t: Tables) {
    && (forall e :: e in t.events ==> t.events[e].id == e && PointsBack(t, t.events[e]))
    && (forall i :: i in t.items ==> t.items[i].id == i && Backed(t, t.items[i]) && ResultStored(t, t.items[i]))
  }

  /** Every row of a running transaction is an old row that nothing has touched or has its check pending. */
  ghost predicate Accounted(before: Tables, t: Tables, pending: seq<Check>) {
    && Extends(before, t)
    && (forall e :: e in t.events ==>
         t.events[e].id == e && (EventReciprocal(t.events[e]) in pending || OldLink(before, t, e)))
    && (forall i :: i in t.items ==> t.items[i].id == i
                                     && (ResultReciprocal(t.items[i]) in pending
                                          || (i in before.items && before.items[i] == t.items[i])))
  }

  ghost predicate OldLink(before: Tables, t: Tables, e: Uuid)
    requires e in t.events
  {
    && e in before.events && t.events[e] == before.events[e]
    && (t.events[e].ingress.Some? ==>
          && t.events[e].ingress.value in t.items && t.events[e].ingress.value in before.items
          && t.items[t.events[e].ingress.value] == before.items[t.events[e].ingress.value])
  }

  lemma UpdateKeepsLink(before: Tables, t: Tables, item: Item, e: Uuid)
    requires Reciprocal(before) && e in t.events && OldLink(before, t, e)
    requires item.id in t.items && MayUpdate(t.items[item.id], item)
    ensures t.events[e].ingress != Some(item.id)
  {
    assert PointsBack(before, before.events[e]);
  }

  /** A step that changes no item keeps every old link. */
  lemma LinkSurvives(before: Tables, t: Tables, step: RowStep, e: Uuid)
    requires Reciprocal(before) && Apply(t, step).Some? && e in t.events && OldLink(before, t, e)
    ensures e in Apply(t, step).value.0.events && OldLink(before, Apply(t, step).value.0, e)
  {
    if step.UpdateItem? { UpdateKeepsLink(before, t, step.item, e); }
  }

  lemma ApplyExtends(t: Tables, step: RowStep)
    requires Apply(t, step).Some?
    ensures Extends(t, Apply(t, step).value.0)
  {
  }

  lemma ApplyKeepsAccounts(before: Tables, t: Tables, pending: seq<Check>, step: RowStep)
    requires Reciprocal(before) && Accounted(before, t, pending) && Apply(t, step).Some?
    ensures Accounted(before, Apply(t, step).value.0, pending + Apply(t, step).value.1)
  {
    var after, raised := Apply(t, step).value.0, Apply(t, step).value.1;
    ApplyExtends(t, step);
    forall e | e in after.events
      ensures after.events[e].id == e && (EventReciprocal(after.events[e]) in pending + raised
              || OldLink(before, after, e))
    {
      if e in t.events && OldLink(before, t, e) { LinkSurvives(before, t, step, e); }
    }
  }

  lemma {:induction false} RunStepsAccounts(before: Tables, steps: seq<RowStep>)
    requires Reciprocal(before) && RunSteps(before, steps).Some?
    ensures Accounted(before, RunSteps(before, steps).value.0, RunSteps(before, steps).value.1)
    decreases |steps|
  {
    if steps != [] {
      var init := steps[..|steps| - 1];
      RunStepsAccounts(before, init);
      var (mid, pending) := RunSteps(before, init).value;
      ApplyKeepsAccounts(before, mid, pending, steps[|steps| - 1]);
    }
  }

  // ---------------------------------------------------------------- committed states

  /** What backs an item goes on backing it. */
  lemma BackingPersists(before: Tables, after: Tables, item: Item)
    requires Extends(before, after) && Backed(before, item) && ResultStored(before, item)
    ensures Backed(after, item) && ResultStored(after, item)
  {
    if item.state == Accepted && BackedByPromotion(before, item) {
      var r, d :| r in before.receipts && d in before.decisions && Promotes(item, r, d);
      assert r in after.receipts && d in after.decisions;
    }
  }

  lemma CommitKeepsReciprocal(before: Tables, after: Tables, pending: seq<Check>)
    requires Reciprocal(before) && Accounted(before, after, pending)
    requires forall c :: c in pending ==> Passes(after, c)
    ensures Reciprocal(after)
  {
    forall e | e in after.events ensures after.events[e].id == e && PointsBack(after, after.events[e]) {
      if EventReciprocal(after.events[e]) in pending {
        assert Passes(after, EventReciprocal(after.events[e]));
      } else {
        assert PointsBack(before, before.events[e]);
      }
    }
    forall i | i in after.items
      ensures after.items[i].id == i && Backed(after, after.items[i]) && ResultStored(after, after.items[i]) {
      if ResultReciprocal(after.items[i]) in pending {
        assert Passes(after, ResultReciprocal(after.items[i]));
      } else {
        BackingPersists(before, after, after.items[i]);
      }
    }
  }

  lemma TransactKeepsReciprocal(t: Tables, steps: seq<RowStep>)
    requires Reciprocal(t)
    ensures Reciprocal(Transact(t, steps)) && Extends(t, Transact(t, steps))
  {
    if RunSteps(t, steps).Some? {
      RunStepsAccounts(t, steps);
      var (after, pending) := RunSteps(t, steps).value;
      if forall c :: c in pending ==> Passes(after, c) {
        CommitKeepsReciprocal(t, after, pending);
      }
    }
  }

  lemma {:induction false} RunsAreReciprocal(transactions: seq<seq<RowStep>>)
    ensures Reciprocal(Run(EMPTY, transactions))
    decreases |transactions|
  {
    if transactions != [] {
      RunsAreReciprocal(transactions[..|transactions| - 1]);
      TransactKeepsReciprocal(Run(EMPTY, transactions[..|transactions| - 1]), transactions[|transactions| - 1]);
    }
  }

  /** Exactly-once ingress: over every run of transactions two stored events never share an ingress id, and the
      item of an event is accepted and points back to it. */
  lemma OneEventPerItem(transactions: seq<seq<RowStep>>, e: Uuid, f: Uuid)
    requires var t := Run(EMPTY, transactions); e in t.events && f in t.events
    requires var t := Run(EMPTY, transactions); t.events[e].ingress.Some? && t.events[e].ingress == t.events[f].ingress
    ensures e == f && PointsBack(Run(EMPTY, transactions), Run(EMPTY, transactions).events[e])
  {
    RunsAreReciprocal(transactions);
    var t := Run(EMPTY, transactions);
    assert PointsBack(t, t.events[e]) && PointsBack(t, t.events[f]);
  }

  /** Over every run each accepted item is backed by its own creation event or by a promotion receipt. */
  lemma AcceptedIsBacked(transactions: seq<seq<RowStep>>, i: Uuid)
    requires var t := Run(EMPTY, transactions); i in t.items && t.items[i].state == Accepted
    ensures var t := Run(EMPTY, transactions); BackedByEvent(t, t.items[i]) || BackedByPromotion(t, t.items[i])
  {
    RunsAreReciprocal(transactions);
    var t := Run(EMPTY, transactions);
    assert Backed(t, t.items[i]);
  }

  // ---------------------------------------------------------------- an ingested item is never touched again

  lemma ApplyKeepsIngested(t: Tables, step: RowStep, e: Uuid)
    requires Apply(t, step).Some? && e in t.events && PointsBack(t, t.events[e]) && t.events[e].ingress.Some?
    requires forall i :: i in t.items ==> t.items[i].id == i
    ensures var after := Apply(t, step).value.0;
            var i := t.events[e].ingress.value;
            && e in after.events && after.events[e] == t.events[e]
            && i in after.items && after.items[i] == t.items[i]
            && (forall k :: k in after.items ==> after.items[k].id == k)
  {
    var i := t.events[e].ingress.value;
    assert t.items[i].state == Accepted;
    assert forall item :: !MayUpdate(t.items[i], item);
  }

  lemma {:induction false} StepsKeepIngested(t: Tables, steps: seq<RowStep>, e: Uuid)
    requires RunSteps(t, steps).Some? && e in t.events && PointsBack(t, t.events[e]) && t.events[e].ingress.Some?
    requires forall i :: i in t.items ==> t.items[i].id == i
    ensures var after := RunSteps(t, steps).value.0;
            var i := t.events[e].ingress.value;
            && e in after.events && after.events[e] == t.events[e]
            && i in after.items && after.items[i] == t.items[i]
            && (forall k :: k in after.items ==> after.items[k].id == k)
    decreases |steps|
  {
    if steps != [] {
      StepsKeepIngested(t, steps[..|steps| - 1], e);
      ApplyKeepsIngested(RunSteps(t, steps[..|steps| - 1]).value.0, steps[|steps| - 1], e);
    }
  }

  /** Once an event and its item are committed, no later transaction changes or removes either. */
  lemma {:induction false} IngestedForGood(earlier: seq<seq<RowStep>>, later: seq<seq<RowStep>>, e: Uuid)
    requires var t := Run(EMPTY, earlier); e in t.events && t.events[e].ingress.Some?
    ensures var t, end := Run(EMPTY, earlier), Run(Run(EMPTY, earlier), later);
            var i := t.events[e].ingress.value;
            && Reciprocal(t) && Reciprocal(end)
            && e in end.events && end.events[e] == t.events[e]
            && i in t.items && i in end.items && end.items[i] == t.items[i]
    decreases |later|
  {
    RunsAreReciprocal(earlier);
    var t := Run(EMPTY, earlier);
    assert PointsBack(t, t.events[e]);
    if later != [] {
      IngestedForGood(earlier, later[..|later| - 1], e);
      var mid := Run(t, later[..|later| - 1]);
      TransactKeepsReciprocal(mid, later[|later| - 1]);
      assert PointsBack(mid, mid.events[e]);
      if RunSteps(mid, later[|later| - 1]).Some? { StepsKeepIngested(mid, later[|later| - 1], e); }
    }
  }

  // ---------------------------------------------------------------- versions of an item

  /** How far an item has come; every update moves it on. */
  function Progress(s: IngressState): nat {
    match s
    case Discovered => 0
    case Validated => 1
    case _ => 2
  }

  predicate SameIdentity(a: Item, b: Item) {
    a.key == b.key && a.payloadDigest == b.payloadDigest
  }

  /** A legal life of a row: it starts discovered, every later version is a legal update of the one before. */
  ghost predicate Life(versions: seq<Item>, now: Item) {
    && versions != [] && BeginsDiscovered(versions[0]) && versions[|versions| - 1] == now
    && forall k :: 0 <= k < |versions| - 1 ==> MayUpdate(versions[k], versions[k + 1])
  }

  ghost predicate Lived(t: Tables) {
    forall i :: i in t.items ==> t.items[i].id == i && i in t.history && Life(t.history[i], t.items[i])
  }

  /** The k-th version is at least k moves in, so there are at most two updates. */
  lemma {:induction false} LifeAdvances(versions: seq<Item>, now: Item, k: nat)
    requires Life(versions, now) && k < |versions|
    ensures k <= Progress(versions[k].state) <= 2
    decreases k
  {
    if k > 0 {
      LifeAdvances(versions, now, k - 1);
      assert MayUpdate(versions[k - 1], versions[k - 1 + 1]);
    }
  }

  /** An item takes at most two updates, and its semantic identity is written by the first of them or never. */
  lemma LifeIsShort(versions: seq<Item>, now: Item)
    requires Life(versions, now)
    ensures |versions| <= 3
    ensures forall k :: 1 <= k < |versions| ==> SameIdentity(versions[k], now)
    ensures forall k :: 0 <= k < |versions| ==> SameProvenance(versions[k], now)
  {
    LifeAdvances(versions, now, |versions| - 1);
    if |versions| >= 2 { assert MayUpdate(versions[0], versions[0 + 1]); }
    if |versions| == 3 {
      LifeAdvances(versions, now, 1);
      assert MayUpdate(versions[1], versions[1 + 1]);
    }
  }

  lemma ApplyKeepsLives(t: Tables, step: RowStep)
    requires Lived(t) && Apply(t, step).Some?
    ensures Lived(Apply(t, step).value.0)
  {
    var after := Apply(t, step).value.0;
    if step.UpdateItem? {
      var versions := t.history[step.item.id];
      var longer := versions + [step.item];
      assert Life(versions, t.items[step.item.id]);
      forall k | 0 <= k < |longer| - 1 ensures MayUpdate(longer[k], longer[k + 1]) {
        if k < |versions| - 1 { assert MayUpdate(versions[k], versions[k + 1]); }
      }
      assert Life(longer, step.item);
    }
  }

  lemma {:induction false} StepsKeepLives(t: Tables, steps: seq<RowStep>)
    requires Lived(t) && RunSteps(t, steps).Some?
    ensures Lived(RunSteps(t, steps).value.0)
    decreases |steps|
  {
    if steps != [] {
      StepsKeepLives(t, steps[..|steps| - 1]);
      ApplyKeepsLives(RunSteps(t, steps[..|steps| - 1]).value.0, steps[|steps| - 1]);
    }
  }

  lemma {:induction false} RunsKeepLives(transactions: seq<seq<RowStep>>)
    ensures Lived(Run(EMPTY, transactions))
    decreases |transactions|
  {
    if transactions != [] {
      var t, steps := Run(EMPTY, transactions[..|transactions| - 1]), transactions[|transactions| - 1];
      RunsKeepLives(transactions[..|transactions| - 1]);
      if RunSteps(t, steps).Some? { StepsKeepLives(t, steps); }
    }
  }

  /** Over every run each stored item has had at most two updates, one write of its semantic identity and one
      provenance. */
  lemma ItemsLiveShort(transactions: seq<seq<RowStep>>, i: Uuid)
    requires i in Run(EMPTY, transactions).items
    ensures var t := Run(EMPTY, transactions);
            && i in t.history && |t.history[i]| <= 3
            && (forall k :: 1 <= k < |t.history[i]| ==> SameIdentity(t.history[i][k], t.items[i]))
            && (forall k :: 0 <= k < |t.history[i]| ==> SameProvenance(t.history[i][k], t.items[i]))
  {
    RunsKeepLives(transactions);
    var t := Run(EMPTY, transactions);
    LifeIsShort(t.history[i], t.items[i]);
  }

  // ---------------------------------------------------------------- the database at work

  /** Tables updated in place by transactions. */
  class Database {
    var tables: Tables

    constructor ()
      ensures tables == EMPTY
    {
      tables := EMPTY;
    }

    /** Runs the steps one by one, then the checks they put off; any failure restores the tables. */
    method Execute(steps: seq<RowStep>) returns (committed: bool)
      modifies this
      ensures tables == Transact(old(tables), steps)
      ensures committed <==> Commits(old(tables), steps)
      ensures !committed ==> tables == old(tables)
      ensures old(Reciprocal(tables)) ==> Reciprocal(tables) && Extends(old(tables), tables)
    {
      ghost var start := tables;
      var saved := tables;
      var pending: seq<Check> := [];
      for i := 0 to |steps|
        invariant RunSteps(start, steps[..i]) == Some((tables, pending))
      {
        var result := Apply(tables, steps[i]);
        assert steps[..i + 1][..i] == steps[..i];
        if result.None? {
          StopsShort(start, steps, i + 1);
          tables := saved;
          TransactIfReciprocal(start, steps);
          return false;
        }
        tables := result.value.0;
        pending := pending + result.value.1;
      }
      assert steps[..|steps|] == steps;
      for i := 0 to |pending|
        invariant RunSteps(start, steps) == Some((tables, pending))
        invariant forall k :: 0 <= k < i ==> Passes(tables, pending[k])
      {
        if !Passes(tables, pending[i]) {
          assert pending[i] in pending;
          tables := saved;
          TransactIfReciprocal(start, steps);
          return false;
        }
      }
      TransactIfReciprocal(start, steps);
      return true;
    }
  }

  lemma TransactIfReciprocal(t: Tables, steps: seq<RowStep>)
    ensures Reciprocal(t) ==> Reciprocal(Transact(t, steps)) && Extends(t, Transact(t, steps))
  {
    if Reciprocal(t) { TransactKeepsReciprocal(t, steps); }
  }

  /** A refused step refuses the whole list. */
  lemma {:induction false} StopsShort(t: Tables, steps: seq<RowStep>, n: nat)
    requires n <= |steps| && RunSteps(t, steps[..n]).None?
    ensures RunSteps(t, steps).None?
    decreases |steps| - n
  {
    if n == |steps| {
      assert steps[..n] == steps;
    } else {
      assert steps[..n + 1][..n] == steps[..n];
      StopsShort(t, steps, n + 1);
    }
  }
}
