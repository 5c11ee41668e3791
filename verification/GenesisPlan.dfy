/** From a planned import to staged rows: the planner's record accounting and graph validation, and the
    preparation that gives every planned record its row.
 */
module GenesisPlan {
  import opened Domain
  import opened GenesisGraph

  /** A candidate or an exclusion with the records it supersedes. */
  datatype Entry = Entry(id: Id, supersedes: seq<Id>)

  /** One validated source. A proposal carries one nomination of its own; a checkpoint nominates its candidates. */
  datatype Source = Source(path: string, proposal: bool, nominations: seq<Id>, candidates: seq<Entry>,
      exclusions: seq<Entry>)

  datatype Kind = CandidateKind | ExclusionKind

  datatype Planned =
    | NominationRecord(path: string, id: Id)
    | ExclusionRecord(path: string, id: Id)
    | SupersessionRecord(path: string, kind: Kind, edge: Edge)

  // ---------------------------------------------------------------- what a list of sources contains

  function Ids(entries: seq<Entry>): seq<Id> {
    seq(|entries|, i requires 0 <= i < |entries| => entries[i].id)
  }

  function EntryEdges(entry: Entry): seq<Edge> {
    seq(|entry.supersedes|, i requires 0 <= i < |entry.supersedes| => (entry.id, entry.supersedes[i]))
  }

  function Edges(entries: seq<Entry>): seq<Edge>
    decreases |entries|
  {
    if entries == [] then [] else Edges(entries[..|entries| - 1]) + EntryEdges(entries[|entries| - 1])
  }

  function AllNominations(sources: seq<Source>): seq<Id>
    decreases |sources|
  {
    if sources == [] then [] else AllNominations(sources[..|sources| - 1]) + sources[|sources| - 1].nominations
  }

  function AllExclusions(sources: seq<Source>): seq<Id>
    decreases |sources|
  {
    if sources == [] then [] else AllExclusions(sources[..|sources| - 1]) + Ids(sources[|sources| - 1].exclusions)
  }

  function AllCandidateEdges(sources: seq<Source>): seq<Edge>
    decreases |sources|
  {
    if sources == [] then [] else AllCandidateEdges(sources[..|sources| - 1]) + Edges(sources[|sources| - 1].candidates)
  }

  function AllExclusionEdges(sources: seq<Source>): seq<Edge>
    decreases |sources|
  {
    if sources == [] then [] else AllExclusionEdges(sources[..|sources| - 1]) + Edges(sources[|sources| - 1].exclusions)
  }

  // ---------------------------------------------------------------- the planner

  /** Nominations and candidates of one source match one to one; a proposal has exactly one nomination. */
  predicate Accountable(s: Source) {
    var candidates := set c | c in s.candidates :: c.id;
    if s.proposal then |s.nominations| == 1
    else |s.nominations| == |candidates| && (set id | id in s.nominations) == candidates
  }

  function EdgeRecords(path: string, kind: Kind, edges: seq<Edge>): seq<Planned> {
    seq(|edges|, i requires 0 <= i < |edges| => SupersessionRecord(path, kind, edges[i]))
  }

  function SourceRecords(s: Source): seq<Planned> {
    NominationRecords(s.path, s.nominations)
    + ExclusionRecords(s.path, s.exclusions)
    + EdgeRecords(s.path, CandidateKind, Edges(s.candidates))
    + EdgeRecords(s.path, ExclusionKind, Edges(s.exclusions))
  }

  function PlannedRecords(sources: seq<Source>): seq<Planned>
    decreases |sources|
  {
    if sources == [] then [] else PlannedRecords(sources[..|sources| - 1]) + SourceRecords(sources[|sources| - 1])
  }

  // ---------------------------------------------------------------- the manifest

  predicate Alphanumeric(c: char) {
    '0' <= c <= '9' || 'A' <= c <= 'Z' || 'a' <= c <= 'z'
  }

  /** Up to 256 characters: a letter or digit, then letters, digits and four marks. */
  predicate SafeId(id: Id) {
    && 1 <= |id| <= 256 && Alphanumeric(id[0])
    && forall i :: 1 <= i < |id| ==> Alphanumeric(id[i]) || id[i] in "_.:-"
  }

  /** The identifier of a supersession record is a digest, and always safe. */
  predicate SafeRecord(r: Planned) {
    match r
    case NominationRecord(_, id) => SafeId(id)
    case ExclusionRecord(_, id) => SafeId(id)
    case SupersessionRecord(_, _, _) => true
  }

  predicate NoRepeats<T(==)>(items: seq<T>) {
    forall i, j :: 0 <= i < j < |items| ==> items[i] != items[j]
  }

  function Paths(sources: seq<Source>): seq<string> {
    seq(|sources|, i requires 0 <= i < |sources| => sources[i].path)
  }

  /** What the manifest builder accepts: every path once, every record under a safe identifier, no record twice. */
  predicate Manifestable(sources: seq<Source>, records: seq<Planned>) {
    NoRepeats(Paths(sources)) && (forall r :: r in records ==> SafeRecord(r)) && NoRepeats(records)
  }

  method BuildManifest(sources: seq<Source>, records: seq<Planned>) returns (ok: bool)
    ensures ok <==> Manifestable(sources, records)
  {
    ok := NewItems(Paths(sources));
    if !ok { return; }
    for i := 0 to |records|
      invariant forall r :: r in records[..i] ==> SafeRecord(r)
    {
      if !SafeRecord(records[i]) {
        assert records[i] in records;
        return false;
      }
    }
    assert records[..|records|] == records;
    ok := NewItems(records);
  }

  /** Looks each item up among those already seen. */
  method NewItems<T(==)>(items: seq<T>) returns (ok: bool)
    ensures ok <==> NoRepeats(items)
  {
    var seen := {};
    for i := 0 to |items|
      invariant NoRepeats(items[..i]) && seen == (set x | x in items[..i])
    {
      if items[i] in seen {
        var j :| 0 <= j < i && items[..i][j] == items[i];
        assert items[j] == items[i];
        return false;
      }
      assert forall j :: 0 <= j < i ==> items[..i][j] == items[j] && items[j] in items[..i];
      seen := seen + {items[i]};
      assert items[..i + 1] == items[..i] + [items[i]];
    }
    assert items[..|items|] == items;
    return true;
  }

  /** Exactly the plans that pass the accounting of every source, both graph validations and the manifest. */
  ghost predicate Plannable(sources: seq<Source>) {
    && (forall s :: s in sources ==> Accountable(s))
    && Judgement(AllNominations(sources), AllCandidateEdges(sources)) == Accepted
    && Judgement(AllExclusions(sources), AllExclusionEdges(sources)) == Accepted
    && Manifestable(sources, PlannedRecords(sources))
  }

  /** What reading a source guarantees: a proposal brings one nomination and nothing else, a checkpoint one nomination
      for each candidate, and no list of superseded records repeats itself. */
  predicate Parsed(s: Source) {
    && (if s.proposal then s.candidates == [] && s.exclusions == [] else s.nominations == Ids(s.candidates))
    && (forall c :: c in s.candidates ==> NoRepeats(c.supersedes))
    && (forall c :: c in s.exclusions ==> NoRepeats(c.supersedes))
  }

  lemma JoinNoRepeats<T>(a: seq<T>, b: seq<T>)
    requires NoRepeats(a) && NoRepeats(b) && forall x :: x in a ==> x !in b
    ensures NoRepeats(a + b)
  {
    forall i, j | 0 <= i < j < |a + b| ensures (a + b)[i] != (a + b)[j] {
      if i < |a| && j >= |a| { assert a[i] in a && b[j - |a|] in b; }
    }
  }

  lemma {:induction false} EdgesStartAtEntries(entries: seq<Entry>)
    ensures forall e :: e in Edges(entries) ==> e.0 in Ids(entries)
    decreases |entries|
  {
    if entries != [] {
      var init, last := entries[..|entries| - 1], entries[|entries| - 1];
      EdgesStartAtEntries(init);
      assert Ids(entries) == Ids(init) + [last.id];
    }
  }

  /** Entries with distinct ids and no repeated targets have no repeated edges. */
  lemma {:induction false} EdgesNoRepeats(entries: seq<Entry>)
    requires Distinct(Ids(entries)) && forall c :: c in entries ==> NoRepeats(c.supersedes)
    ensures NoRepeats(Edges(entries))
    decreases |entries|
  {
    if entries != [] {
      var init, last := entries[..|entries| - 1], entries[|entries| - 1];
      assert Ids(entries) == Ids(init) + [last.id];
      assert forall i :: 0 <= i < |init| ==> Ids(init)[i] == Ids(entries)[i];
      assert last in entries && forall c :: c in init ==> c in entries;
      EdgesNoRepeats(init);
      EdgesStartAtEntries(init);
      forall e | e in Edges(init) ensures e !in EntryEdges(last) {
        var i :| 0 <= i < |init| && Ids(init)[i] == e.0;
        assert Ids(entries)[i] != Ids(entries)[|entries| - 1];
      }
      JoinNoRepeats(Edges(init), EntryEdges(last));
    }
  }

  lemma SourceNoRepeats(s: Source)
    requires Parsed(s) && Distinct(s.nominations) && Distinct(Ids(s.exclusions))
    ensures NoRepeats(SourceRecords(s)) && forall r :: r in SourceRecords(s) ==> r.path == s.path
  {
    assert Distinct(Ids(s.candidates));
    EdgesNoRepeats(s.candidates);
    EdgesNoRepeats(s.exclusions);
    var a, b := NominationRecords(s.path, s.nominations), ExclusionRecords(s.path, s.exclusions);
    var c, d := EdgeRecords(s.path, CandidateKind, Edges(s.candidates)),
        EdgeRecords(s.path, ExclusionKind, Edges(s.exclusions));
    forall i, j | 0 <= i < j < |b| ensures b[i] != b[j] { assert Ids(s.exclusions)[i] != Ids(s.exclusions)[j]; }
    JoinNoRepeats(a, b);
    JoinNoRepeats(a + b, c);
    JoinNoRepeats(a + b + c, d);
  }

  lemma {:induction false} RecordsHavePaths(sources: seq<Source>)
    ensures forall r :: r in PlannedRecords(sources) ==> r.path in Paths(sources)
    decreases |sources|
  {
    if sources != [] {
      var init, last := sources[..|sources| - 1], sources[|sources| - 1];
      RecordsHavePaths(init);
      assert Paths(sources) == Paths(init) + [last.path];
      assert forall r :: r in SourceRecords(last) ==> r.path == last.path;
    }
  }

  lemma {:induction false} RecordsNoRepeats(sources: seq<Source>)
    requires NoRepeats(Paths(sources))
    requires forall s :: s in sources ==> Parsed(s) && Distinct(s.nominations) && Distinct(Ids(s.exclusions))
    ensures NoRepeats(PlannedRecords(sources))
    decreases |sources|
  {
    if sources != [] {
      var init, last := sources[..|sources| - 1], sources[|sources| - 1];
      assert last in sources && forall s :: s in init ==> s in sources;
      assert Paths(sources) == Paths(init) + [last.path];
      assert forall i :: 0 <= i < |init| ==> Paths(init)[i] == Paths(sources)[i];
      RecordsNoRepeats(init);
      RecordsHavePaths(init);
      SourceNoRepeats(last);
      forall r | r in PlannedRecords(init) ensures r !in SourceRecords(last) {
        var i :| 0 <= i < |init| && Paths(init)[i] == r.path;
        assert Paths(sources)[i] != Paths(sources)[|sources| - 1];
      }
      JoinNoRepeats(PlannedRecords(init), SourceRecords(last));
    }
  }

  /** The manifest's refusal of a repeated record can never fire: for sources as they are read, with distinct record ids
      and distinct paths, only the identifiers decide. */
  lemma ManifestOnlyTestsIds(sources: seq<Source>)
    requires (forall s :: s in sources ==> Parsed(s)) && Distinct(AllNominations(sources))
             && Distinct(AllExclusions(sources))
    ensures Manifestable(sources, PlannedRecords(sources)) <==>
            NoRepeats(Paths(sources)) && forall r :: r in PlannedRecords(sources) ==> SafeRecord(r)
  {
    if NoRepeats(Paths(sources)) {
      forall s | s in sources ensures Distinct(s.nominations) && Distinct(Ids(s.exclusions)) {
        var i :| 0 <= i < |sources| && sources[i] == s;
        EarlierIds(sources, i);
        PiecesIfDistinct(AllNominations(sources[..i]), s.nominations, AllNominations(sources));
        PiecesIfDistinct(AllExclusions(sources[..i]), Ids(s.exclusions), AllExclusions(sources));
      }
      RecordsNoRepeats(sources);
    }
  }

  /** The final count check of the planner can never fail. */
  lemma {:induction false} AccountingAddsUp(sources: seq<Source>)
    ensures |PlannedRecords(sources)|
            == |AllNominations(sources)| + |AllExclusions(sources)| + |AllCandidateEdges(sources)|
              + |AllExclusionEdges(sources)|
    decreases |sources|
  {
    if sources != [] { AccountingAddsUp(sources[..|sources| - 1]); }
  }

  /** Appends the supersession records of one kind, entry by entry and target by target. */
  method AppendSupersessions(path: string, kind: Kind, entries: seq<Entry>, records: seq<Planned>)
      returns (longer: seq<Planned>, count: nat)
    ensures longer == records + EdgeRecords(path, kind, Edges(entries)) && count == |Edges(entries)|
  {
    longer, count := records, 0;
    for i := 0 to |entries|
      invariant longer == records + EdgeRecords(path, kind, Edges(entries[..i])) && count == |Edges(entries[..i])|
    {
      var entry := entries[i];
      ghost var before := Edges(entries[..i]);
      for k := 0 to |entry.supersedes|
        invariant longer == records + EdgeRecords(path, kind, before + EntryEdges(entry)[..k])
      {
        longer := longer + [SupersessionRecord(path, kind, (entry.id, entry.supersedes[k]))];
        assert EntryEdges(entry)[..k + 1] == EntryEdges(entry)[..k] + [EntryEdges(entry)[k]];
        assert EdgeRecords(path, kind, before + EntryEdges(entry)[..k + 1])
            == EdgeRecords(path, kind, before + EntryEdges(entry)[..k])
              + [SupersessionRecord(path, kind, EntryEdges(entry)[k])];
      }
      assert EntryEdges(entry)[..|entry.supersedes|] == EntryEdges(entry);
      assert entries[..i + 1][..i] == entries[..i];
      count := count + |entry.supersedes|;
    }
    assert entries[..|entries|] == entries;
  }

  function NominationRecords(path: string, ids: seq<Id>): seq<Planned> {
    seq(|ids|, i requires 0 <= i < |ids| => NominationRecord(path, ids[i]))
  }

  function ExclusionRecords(path: string, entries: seq<Entry>): seq<Planned> {
    seq(|entries|, i requires 0 <= i < |entries| => ExclusionRecord(path, entries[i].id))
  }

  method AppendNominations(path: string, ids: seq<Id>, records: seq<Planned>) returns (longer: seq<Planned>)
    ensures longer == records + NominationRecords(path, ids)
  {
    longer := records;
    for i := 0 to |ids|
      invariant longer == records + NominationRecords(path, ids[..i])
    {
      longer := longer + [NominationRecord(path, ids[i])];
      assert NominationRecords(path, ids[..i + 1])
             == NominationRecords(path, ids[..i]) + [NominationRecord(path, ids[i])];
    }
    assert ids[..|ids|] == ids;
  }

  method AppendExclusions(path: string, entries: seq<Entry>, records: seq<Planned>) returns (longer: seq<Planned>)
    ensures longer == records + ExclusionRecords(path, entries)
  {
    longer := records;
    for i := 0 to |entries|
      invariant longer == records + ExclusionRecords(path, entries[..i])
    {
      longer := longer + [ExclusionRecord(path, entries[i].id)];
      assert ExclusionRecords(path, entries[..i + 1])
             == ExclusionRecords(path, entries[..i]) + [ExclusionRecord(path, entries[i].id)];
    }
    assert entries[..|entries|] == entries;
  }

  method AppendRecords(s: Source, records: seq<Planned>) returns (ok: bool, longer: seq<Planned>, edges: nat)
    ensures ok <==> Accountable(s)
    ensures ok ==> longer == records + SourceRecords(s) && edges == |Edges(s.candidates)| + |Edges(s.exclusions)|
  {
    longer, edges := records, 0;
    if !Accountable(s) { return false, longer, edges; }
    longer := AppendNominations(s.path, s.nominations, longer);
    longer := AppendExclusions(s.path, s.exclusions, longer);
    var first, second;
    longer, first := AppendSupersessions(s.path, CandidateKind, s.candidates, longer);
    longer, second := AppendSupersessions(s.path, ExclusionKind, s.exclusions, longer);
    edges := first + second;
    return true, longer, edges;
  }

  /** Plans an import: `None` is any of the planner's refusals. The two orders are the orders the graph search
      visits the records in. */
  method Plan(sources: seq<Source>, recordOrder: seq<Id>, exclusionOrder: seq<Id>) returns (plan: Option<seq<Planned>>)
    requires forall id :: id in recordOrder <==> id in AllNominations(sources)
    requires forall id :: id in exclusionOrder <==> id in AllExclusions(sources)
    ensures plan.Some? <==> Plannable(sources)
    ensures plan.Some? ==> plan.value == PlannedRecords(sources)
  {
    var records, nominations, exclusions, supersessions := [], 0, 0, 0;
    var ids, excluded, edges, excludedEdges := [], [], [], [];
    for i := 0 to |sources|
      invariant forall s :: s in sources[..i] ==> Accountable(s)
      invariant records == PlannedRecords(sources[..i])
      invariant ids == AllNominations(sources[..i]) && excluded == AllExclusions(sources[..i])
      invariant edges == AllCandidateEdges(sources[..i]) && excludedEdges == AllExclusionEdges(sources[..i])
      invariant nominations == |ids| && exclusions == |excluded| && supersessions == |edges| + |excludedEdges|
    {
      var s := sources[i];
      assert sources[..i + 1][..i] == sources[..i] && sources[..i + 1] == sources[..i] + [s];
      var ok, longer, added := AppendRecords(s, records);
      if !ok {
        assert s in sources;
        return None;
      }
      records := longer;
      ids, excluded := ids + s.nominations, excluded + Ids(s.exclusions);
      edges, excludedEdges := edges + Edges(s.candidates), excludedEdges + Edges(s.exclusions);
      nominations, exclusions, supersessions := nominations + |s.nominations|, exclusions + |s.exclusions|,
        supersessions + added;
    }
    assert sources[..|sources|] == sources;
    var verdict := Validate(ids, edges, recordOrder);
    if verdict != Accepted { return None; }
    verdict := Validate(excluded, excludedEdges, exclusionOrder);
    if verdict != Accepted { return None; }
    var ok := BuildManifest(sources, records);
    if !ok { return None; }
    AccountingAddsUp(sources);
    if |records| != nominations + exclusions + supersessions { return None; }
    return Some(records);
  }

  // ---------------------------------------------------------------- preparing rows

  datatype PrepareFailure = DuplicateRecord | DuplicateExclusion | UnresolvedMapping | UnresolvedSupersession
      | UnknownOrigin

  datatype Rows = Rows(records: seq<(Uuid, Id)>, exclusions: seq<(Uuid, Id)>, candidateEdges: seq<(Uuid, Uuid)>,
      exclusionEdges: seq<(Uuid, Uuid)>)

  datatype Prepared = Staged(rows: Rows) | Refused(failure: PrepareFailure)

  /** Row identifiers, derived from kind, source path and record id. */
  type RowIds = (Kind, string, Id) -> Uuid

  ghost predicate InjectiveRows(row: RowIds) {
    forall k, p, i, l, q, j :: row(k, p, i) == row(l, q, j) ==> k == l && p == q && i == j
  }

  /** Every known record has the row derived for it from some path. */
  ghost predicate Derived(row: RowIds, kind: Kind, known: map<Id, Uuid>) {
    forall id :: id in known ==> exists path :: known[id] == row(kind, path, id)
  }

  predicate Mapped(mapped: (string, Id) -> bool, path: string, ids: seq<Id>) {
    forall id :: id in ids ==> mapped(path, id)
  }

  predicate Disjoint(known: map<Id, Uuid>, ids: seq<Id>) {
    forall id :: id in ids ==> id !in known
  }

  /** Stages the records of one kind of one source; a repeated id or an unmapped record stops the import. */
  method StageIds(kind: Kind, path: string, ids: seq<Id>, row: RowIds, mapped: (string, Id) -> bool, known: map<Id,
      Uuid>, rows: seq<(Uuid, Id)>)
    returns (failure: Option<PrepareFailure>, known': map<Id, Uuid>, rows': seq<(Uuid, Id)>)
    requires Derived(row, kind, known)
    ensures failure.None? <==> Distinct(ids) && Disjoint(known, ids) && Mapped(mapped, path, ids)
    ensures failure.Some? && Distinct(ids) && Disjoint(known, ids) ==> failure.value == UnresolvedMapping
    ensures failure.None? ==>
              && known'.Keys == known.Keys + (set id | id in ids)
              && (forall id :: id in known ==> known'[id] == known[id])
              && Derived(row, kind, known')
              && rows' == rows + seq(|ids|, i requires 0 <= i < |ids| => (row(kind, path, ids[i]), ids[i]))
  {
    known', rows' := known, rows;
    for i := 0 to |ids|
      invariant Distinct(ids[..i]) && Disjoint(known, ids[..i]) && Mapped(mapped, path, ids[..i])
      invariant known'.Keys == known.Keys + (set id | id in ids[..i])
      invariant forall id :: id in known ==> known'[id] == known[id]
      invariant Derived(row, kind, known')
      invariant rows' == rows + seq(i, k requires 0 <= k < i => (row(kind, path, ids[k]), ids[k]))
    {
      assert ids[i] in ids;
      assert ids[..i + 1] == ids[..i] + [ids[i]];
      if ids[i] in known' {
        assert ids[i] in known || exists k :: 0 <= k < i && ids[k] == ids[i];
        return Some(if kind == CandidateKind then DuplicateRecord else DuplicateExclusion), known', rows';
      }
      if !mapped(path, ids[i]) { return Some(UnresolvedMapping), known', rows'; }
      known' := known'[ids[i] := row(kind, path, ids[i])];
      rows' := rows' + [(row(kind, path, ids[i]), ids[i])];
    }
    assert ids[..|ids|] == ids;
    return None, known', rows';
  }

  /** Stages supersession edges between rows already known. */
  method StageEdges(edges: seq<Edge>, known: map<Id, Uuid>, rows: seq<(Uuid, Uuid)>)
    returns (failure: Option<PrepareFailure>, rows': seq<(Uuid, Uuid)>)
    ensures failure.None? <==> forall e :: e in edges ==> e.0 in known && e.1 in known
    ensures failure.None? ==>
              rows' == rows + seq(|edges|, i requires 0 <= i < |edges| => EdgeRow(known, edges[i]))
  {
    rows' := rows;
    for i := 0 to |edges|
      invariant forall k :: 0 <= k < i ==> edges[k].0 in known && edges[k].1 in known
      invariant rows' == rows + seq(i, k requires 0 <= k < i => EdgeRow(known, edges[k]))
    {
      assert edges[i] in edges;
      if edges[i].1 !in known { return Some(UnresolvedSupersession), rows'; }
      if edges[i].0 !in known { return Some(UnknownOrigin), rows'; }
      rows' := rows' + [EdgeRow(known, edges[i])];
    }
    return None, rows';
  }

  function EdgeRow(known: map<Id, Uuid>, e: Edge): (Uuid, Uuid) {
    if e.0 in known && e.1 in known then (known[e.0], known[e.1]) else (0, 0)
  }

  predicate AllMapped(sources: seq<Source>, mapped: (string, Id) -> bool) {
    forall s :: s in sources ==> Mapped(mapped, s.path, s.nominations)
  }

  lemma {:induction false} EarlierIds(sources: seq<Source>, i: nat)
    requires i < |sources|
    ensures AllNominations(sources[..i]) + sources[i].nominations <= AllNominations(sources)
    ensures AllExclusions(sources[..i]) + Ids(sources[i].exclusions) <= AllExclusions(sources)
    decreases |sources| - i
  {
    assert sources[..i + 1][..i] == sources[..i];
    if i + 1 < |sources| {
      EarlierIds(sources, i + 1);
      assert sources[..i + 1] <= sources;
    } else {
      assert sources[..i + 1] == sources;
    }
  }

  /** Distinct ids over all sources: each source's ids are distinct and none occurred earlier. */
  lemma DistinctPieces(earlier: seq<Id>, ids: seq<Id>, all: seq<Id>)
    requires Distinct(all) && earlier + ids <= all
    ensures Distinct(ids) && forall id :: id in ids ==> id !in earlier
  {
    forall i, j | 0 <= i < j < |ids| ensures ids[i] != ids[j] {
      assert all[|earlier| + i] == ids[i] && all[|earlier| + j] == ids[j];
    }
    forall id | id in ids ensures id !in earlier {
      var j :| 0 <= j < |ids| && ids[j] == id;
      assert all[|earlier| + j] == id;
      forall i | 0 <= i < |earlier| ensures earlier[i] != id { assert all[i] == earlier[i]; }
    }
  }

  /** The records of all sources, source by source. */
  method StageAllRecords(sources: seq<Source>, row: RowIds, mapped: (string, Id) -> bool)
    returns (failure: Option<PrepareFailure>, known: map<Id, Uuid>, excluded: map<Id, Uuid>, records: seq<(Uuid, Id)>,
      exclusions: seq<(Uuid, Id)>)
    ensures failure.None? ==>
              && Derived(row, CandidateKind, known) && Derived(row, ExclusionKind, excluded)
              && AllMapped(sources, mapped)
              && known.Keys == (set id | id in AllNominations(sources)) && |records| == |AllNominations(sources)|
              && excluded.Keys == (set id | id in AllExclusions(sources)) && |exclusions| == |AllExclusions(sources)|
    ensures failure.Some? && Distinct(AllNominations(sources)) && Distinct(AllExclusions(sources)) ==>
              failure.value == UnresolvedMapping && !AllMapped(sources, mapped)
  {
    failure, known, excluded, records, exclusions := None, map[], map[], [], [];
    for i := 0 to |sources|
      invariant failure.None?
      invariant Derived(row, CandidateKind, known) && Derived(row, ExclusionKind, excluded)
      invariant known.Keys == (set id | id in AllNominations(sources[..i]))
                && |records| == |AllNominations(sources[..i])|
      invariant excluded.Keys == (set id | id in AllExclusions(sources[..i]))
                && |exclusions| == |AllExclusions(sources[..i])|
      invariant AllMapped(sources[..i], mapped)
    {
      var s := sources[i];
      assert s in sources;
      assert sources[..i + 1][..i] == sources[..i] && sources[..i + 1] == sources[..i] + [s];
      EarlierIds(sources, i);
      PiecesIfDistinct(AllNominations(sources[..i]), s.nominations, AllNominations(sources));
      PiecesIfDistinct(AllExclusions(sources[..i]), Ids(s.exclusions), AllExclusions(sources));
      failure, known, records := StageIds(CandidateKind, s.path, s.nominations, row, mapped, known, records);
      if failure.Some? { return; }
      failure, excluded, exclusions := StageIds(ExclusionKind, s.path, Ids(s.exclusions), row, (p, id) =>
        true, excluded, exclusions);
      if failure.Some? { return; }
    }
    assert sources[..|sources|] == sources;
  }

  /** All records of all sources, then all edges. */
  method Prepare(sources: seq<Source>, row: RowIds, mapped: (string, Id) -> bool)
      returns (r: Prepared, ghost recordIds: map<Id, Uuid>, ghost exclusionIds: map<Id, Uuid>)
    ensures Plannable(sources) ==>
            (r.Staged? <==> AllMapped(sources, mapped)) && (r.Refused? ==> r.failure == UnresolvedMapping)
    ensures r.Staged? ==>
              && |r.rows.records| == |AllNominations(sources)| && |r.rows.exclusions| == |AllExclusions(sources)|
              && recordIds.Keys == (set id | id in AllNominations(sources)) && Derived(row, CandidateKind, recordIds)
              && exclusionIds.Keys == (set id | id in AllExclusions(sources))
              && Derived(row, ExclusionKind, exclusionIds)
              && r.rows.candidateEdges == RowsOf(recordIds, AllCandidateEdges(sources))
              && r.rows.exclusionEdges == RowsOf(exclusionIds, AllExclusionEdges(sources))
              && (forall e :: e in AllCandidateEdges(sources) ==> e.0 in recordIds && e.1 in recordIds)
              && (forall e :: e in AllExclusionEdges(sources) ==> e.0 in exclusionIds && e.1 in exclusionIds)
  {
    var failure, known, excluded, records, exclusions := StageAllRecords(sources, row, mapped);
    recordIds, exclusionIds := known, excluded;
    if Plannable(sources) { PlannableMeans(sources); }
    if failure.Some? { return Refused(failure.value), known, excluded; }
    var rows;
    r, rows := StageAllEdges(sources, known, excluded, records, exclusions);
    if r.Staged? { r := Staged(rows); }
  }

  lemma PiecesIfDistinct(earlier: seq<Id>, ids: seq<Id>, all: seq<Id>)
    requires earlier + ids <= all
    ensures Distinct(all) ==> Distinct(ids) && forall id :: id in ids ==> id !in earlier
  {
    if Distinct(all) { DistinctPieces(earlier, ids, all); }
  }

  function RowsOf(known: map<Id, Uuid>, edges: seq<Edge>): seq<(Uuid, Uuid)> {
    seq(|edges|, i requires 0 <= i < |edges| => EdgeRow(known, edges[i]))
  }

  method StageAllEdges(sources: seq<Source>, known: map<Id, Uuid>, excluded: map<Id, Uuid>, records: seq<(Uuid, Id)>,
      exclusions: seq<(Uuid, Id)>)
    returns (r: Prepared, rows: Rows)
    ensures r.Staged? <==>
            && (forall e :: e in AllCandidateEdges(sources) ==> e.0 in known && e.1 in known)
            && (forall e :: e in AllExclusionEdges(sources) ==> e.0 in excluded && e.1 in excluded)
    ensures rows.records == records && rows.exclusions == exclusions
    ensures r.Staged? ==>
            rows.candidateEdges == RowsOf(known, AllCandidateEdges(sources))
              && rows.exclusionEdges == RowsOf(excluded, AllExclusionEdges(sources))
  {
    var candidateEdges, exclusionEdges := [], [];
    rows := Rows(records, exclusions, [], []);
    for i := 0 to |sources|
      invariant rows.records == records && rows.exclusions == exclusions
      invariant forall e :: e in AllCandidateEdges(sources[..i]) ==> e.0 in known && e.1 in known
      invariant forall e :: e in AllExclusionEdges(sources[..i]) ==> e.0 in excluded && e.1 in excluded
      invariant candidateEdges == RowsOf(known, AllCandidateEdges(sources[..i]))
                && exclusionEdges == RowsOf(excluded, AllExclusionEdges(sources[..i]))
    {
      assert sources[..i + 1][..i] == sources[..i];
      EarlierEdges(sources, i);
      var failure;
      failure, candidateEdges := StageEdges(Edges(sources[i].candidates), known, candidateEdges);
      if failure.Some? { return Refused(failure.value), rows; }
      failure, exclusionEdges := StageEdges(Edges(sources[i].exclusions), excluded, exclusionEdges);
      if failure.Some? { return Refused(failure.value), rows; }
    }
    assert sources[..|sources|] == sources;
    rows := Rows(records, exclusions, candidateEdges, exclusionEdges);
    return Staged(rows), rows;
  }

  lemma {:induction false} EarlierEdges(sources: seq<Source>, i: nat)
    requires i < |sources|
    ensures forall e :: e in Edges(sources[i].candidates) ==> e in AllCandidateEdges(sources)
    ensures forall e :: e in Edges(sources[i].exclusions) ==> e in AllExclusionEdges(sources)
    decreases |sources|
  {
    var init := sources[..|sources| - 1];
    if i < |init| {
      EarlierEdges(init, i);
      assert init[i] == sources[i];
    }
  }

  // ---------------------------------------------------------------- what a plan promises its rows

  /** An accepted plan has known endpoints and no cycle, in both graphs. */
  lemma PlannableMeans(sources: seq<Source>)
    requires Plannable(sources)
    ensures Distinct(AllNominations(sources)) && Distinct(AllExclusions(sources))
    ensures forall e :: e in AllCandidateEdges(sources) ==>
            e.0 in AllNominations(sources) && e.1 in AllNominations(sources)
    ensures forall e :: e in AllExclusionEdges(sources) ==>
            e.0 in AllExclusions(sources) && e.1 in AllExclusions(sources)
    ensures !HasCycle(AllCandidateEdges(sources)) && !HasCycle(AllExclusionEdges(sources))
  {
  }

  ghost predicate InjectiveMap(known: map<Id, Uuid>) {
    forall a, b :: a in known && b in known && known[a] == known[b] ==> a == b
  }

  lemma DerivedIsInjective(row: RowIds, kind: Kind, known: map<Id, Uuid>)
    requires InjectiveRows(row) && Derived(row, kind, known)
    ensures InjectiveMap(known)
  {
    forall a, b | a in known && b in known && known[a] == known[b] ensures a == b {
      var p :| known[a] == row(kind, p, a);
      var q :| known[b] == row(kind, q, b);
    }
  }

  /** A cycle of rows is a cycle of records. */
  lemma RowCycleIsRecordCycle(known: map<Id, Uuid>, edges: seq<Edge>, path: seq<Uuid>) returns (ids: seq<Id>)
    requires InjectiveMap(known) && forall e :: e in edges ==> e.0 in known && e.1 in known
    requires Cycle(RowsOf(known, edges), path)
    ensures Cycle(edges, ids)
  {
    var rows := RowsOf(known, edges);
    ids := [];
    for k := 0 to |path| - 1
      invariant |ids| == k
      invariant forall i :: 0 <= i < k ==> ids[i] in known && known[ids[i]] == path[i]
      invariant forall i :: 0 <= i < k - 1 ==> (ids[i], ids[i + 1]) in edges
      invariant k > 0 ==> exists t :: (ids[k - 1], t) in edges && known[t] == path[k]
    {
      assert (path[k], path[k + 1]) in rows;
      var n :| 0 <= n < |rows| && rows[n] == (path[k], path[k + 1]);
      var e := edges[n];
      assert e in edges && known[e.0] == path[k] && known[e.1] == path[k + 1];
      if k > 0 {
        var t :| (ids[k - 1], t) in edges && known[t] == path[k];
        assert (ids[k - 1], t) in edges ==> t in known;
        assert t == e.0;
      }
      ids := ids + [e.0];
      assert (ids[k], e.1) in edges;
    }
    var last := |path| - 1;
    var t :| (ids[last - 1], t) in edges && known[t] == path[last];
    assert (ids[last - 1], t) in edges ==> t in known;
    assert t == ids[0];
    ids := ids + [ids[0]];
  }

  lemma RowsAcyclic(known: map<Id, Uuid>, edges: seq<Edge>)
    requires InjectiveMap(known) && !HasCycle(edges) && forall e :: e in edges ==> e.0 in known && e.1 in known
    ensures !HasCycle(RowsOf(known, edges))
  {
    forall path ensures !Cycle(RowsOf(known, edges), path) {
      if Cycle(RowsOf(known, edges), path) {
        var ids := RowCycleIsRecordCycle(known, edges, path);
      }
    }
  }

  /** The promise: a plan the planner accepts is prepared in full whenever its mappings resolve, its rows add up to
      the planned record count, and with injective row ids the staged supersessions have no cycle. */
  method PlanThenPrepare(sources: seq<Source>, recordOrder: seq<Id>, exclusionOrder: seq<Id>, row: RowIds,
      mapped: (string, Id) -> bool)
    returns (plan: Option<seq<Planned>>, r: Option<Rows>)
    requires forall id :: id in recordOrder <==> id in AllNominations(sources)
    requires forall id :: id in exclusionOrder <==> id in AllExclusions(sources)
    ensures plan.Some? ==> (r.Some? <==> AllMapped(sources, mapped))
    ensures plan.Some? && r.Some? ==>
              |plan.value| == |r.value.records| + |r.value.exclusions| + |r.value.candidateEdges|
                + |r.value.exclusionEdges|
    ensures plan.Some? && r.Some? && InjectiveRows(row) ==>
            !HasCycle(r.value.candidateEdges) && !HasCycle(r.value.exclusionEdges)
  {
    plan := Plan(sources, recordOrder, exclusionOrder);
    if plan.None? { return plan, None; }
    var prepared, recordIds, exclusionIds := Prepare(sources, row, mapped);
    if prepared.Refused? { return plan, None; }
    r := Some(prepared.rows);
    AccountingAddsUp(sources);
    PlannableMeans(sources);
    if InjectiveRows(row) {
      DerivedIsInjective(row, CandidateKind, recordIds);
      DerivedIsInjective(row, ExclusionKind, exclusionIds);
      RowsAcyclic(recordIds, AllCandidateEdges(sources));
      RowsAcyclic(exclusionIds, AllExclusionEdges(sources));
    }
  }
}
