/** Search results: ranked hits are joined by the members of their open conflicts, ordered, cut to the limit, and
    stripped of every conflict the cut went through. A conflict with a member the caller may not see is not joined, and
    then its other members stay among the hits.
 */
module SearchAssembly {
  import opened Domain
  import opened Folding
  import opened FoldInvariants

  datatype Hit = Hit(id: Uuid, score: real)

  datatype Group = Group(conflict: Uuid, members: seq<Hit>)

  /** An open conflict as stored: the members the caller may see and how many there are in all. */
  datatype OpenGroup = OpenGroup(conflict: Uuid, visible: seq<Uuid>, total: nat)

  function MemberIdsOf(g: Group): set<Uuid> {
    set h | h in g.members :: h.id
  }

  // ---------------------------------------------------------------- hydrating conflict groups

  /** What the caller may see of each memory: its hit, if it can be read and is eligible. */
  type Readable = Uuid -> Option<Hit>

  function Hydrated(visible: seq<Uuid>, readable: Readable): seq<Hit>
    decreases |visible|
  {
    if visible == [] then []
    else
      var rest := Hydrated(visible[..|visible| - 1], readable);
      match readable(visible[|visible| - 1])
      case None => rest
      case Some(h) => rest + [h]
  }

  /** A group is shown when none of its members is hidden and all of them can be read. */
  predicate Showable(g: OpenGroup, readable: Readable) {
    |g.visible| == g.total && |Hydrated(g.visible, readable)| == g.total
  }

  function ShownGroups(groups: seq<OpenGroup>, readable: Readable): seq<Group>
    decreases |groups|
  {
    if groups == [] then []
    else
      var g := groups[|groups| - 1];
      ShownGroups(groups[..|groups| - 1], readable)
      + if Showable(g, readable) then [Group(g.conflict, Hydrated(g.visible, readable))] else []
  }

  method HydrateGroups(groups: seq<OpenGroup>, readable: Readable) returns (output: seq<Group>)
    ensures output == ShownGroups(groups, readable)
  {
    output := [];
    for i := 0 to |groups|
      invariant output == ShownGroups(groups[..i], readable)
    {
      var g := groups[i];
      assert groups[..i + 1][..i] == groups[..i];
      if |g.visible| != g.total { continue; }
      var members := HydrateMembers(g.visible, readable);
      if |members| != g.total { continue; }
      output := output + [Group(g.conflict, members)];
    }
    assert groups[..|groups|] == groups;
  }

  method HydrateMembers(visible: seq<Uuid>, readable: Readable) returns (members: seq<Hit>)
    ensures members == Hydrated(visible, readable)
  {
    members := [];
    for i := 0 to |visible|
      invariant members == Hydrated(visible[..i], readable)
    {
      assert visible[..i + 1][..i] == visible[..i];
      var hit := readable(visible[i]);
      if hit.Some? { members := members + [hit.value]; }
    }
    assert visible[..|visible|] == visible;
  }

  /** Reading a memory returns that memory. */
  ghost predicate ReadsItself(readable: Readable) {
    forall id :: readable(id).Some? ==> readable(id).value.id == id
  }

  lemma {:induction false} HydratedAll(visible: seq<Uuid>, readable: Readable)
    requires ReadsItself(readable)
    ensures |Hydrated(visible, readable)| <= |visible|
    ensures |Hydrated(visible, readable)| == |visible| ==>
              forall i :: 0 <= i < |visible| ==> Hydrated(visible, readable)[i].id == visible[i]
    decreases |visible|
  {
    if visible != [] { HydratedAll(visible[..|visible| - 1], readable); }
  }

  /** The open conflicts of a projection, each listed with its stored members. */
  ghost predicate ListsOpenConflicts(p: Projection, groups: seq<OpenGroup>) {
    && (forall g :: g in groups ==>
          && g.conflict in p.conflicts && p.conflicts[g.conflict].Open()
          && g.total == |StoredMemberIds(p.members, g.conflict)|
          && (forall i, j :: 0 <= i < j < |g.visible| ==> g.visible[i] != g.visible[j])
          && (forall id :: id in g.visible ==> (g.conflict, id) in p.members))
    && (forall i, j :: 0 <= i < j < |groups| ==> groups[i].conflict != groups[j].conflict)
  }

  lemma {:induction false} ShownAreListed(groups: seq<OpenGroup>, readable: Readable, s: Group)
    requires s in ShownGroups(groups, readable)
    ensures exists g :: g in groups && Showable(g, readable) && s == Group(g.conflict, Hydrated(g.visible, readable))
    decreases |groups|
  {
    var init, last := groups[..|groups| - 1], groups[|groups| - 1];
    if s in ShownGroups(init, readable) {
      ShownAreListed(init, readable, s);
    } else {
      assert last in groups && Showable(last, readable);
    }
  }

  function Elements(ids: seq<Uuid>): set<Uuid> {
    set id | id in ids
  }

  lemma {:induction false} DistinctCount(ids: seq<Uuid>)
    requires forall i, j :: 0 <= i < j < |ids| ==> ids[i] != ids[j]
    ensures |Elements(ids)| == |ids|
    decreases |ids|
  {
    if ids != [] {
      var init, last := ids[..|ids| - 1], ids[|ids| - 1];
      DistinctCount(init);
      assert ids == init + [last];
      assert last !in init && Elements(ids) == Elements(init) + {last};
    }
  }

  lemma SubsetOfSameSize(a: set<Uuid>, b: set<Uuid>)
    requires a <= b && |a| == |b|
    ensures a == b
  {
    assert b == a + (b - a);
    assert |b| == |a| + |b - a|;
  }

  lemma SameIds(members: seq<Hit>, visible: seq<Uuid>)
    requires |members| == |visible| && forall i :: 0 <= i < |visible| ==> members[i].id == visible[i]
    ensures (set h | h in members :: h.id) == Elements(visible)
  {
    forall id ensures id in (set h | h in members :: h.id) <==> id in visible {
      if id in visible {
        var i :| 0 <= i < |visible| && visible[i] == id;
        assert members[i] in members;
      }
    }
  }

  lemma VisibleAreAll(p: Projection, g: OpenGroup)
    requires g.total == |StoredMemberIds(p.members, g.conflict)| && |g.visible| == g.total
    requires forall i, j :: 0 <= i < j < |g.visible| ==> g.visible[i] != g.visible[j]
    requires forall id :: id in g.visible ==> (g.conflict, id) in p.members
    ensures Elements(g.visible) == StoredMemberIds(p.members, g.conflict)
  {
    DistinctCount(g.visible);
    StoredMembers(p.members, g.conflict);
    SubsetOfSameSize(Elements(g.visible), StoredMemberIds(p.members, g.conflict));
  }

  /** A shown group is a whole conflict: its members are exactly the stored members. */
  lemma ShownIsWhole(p: Projection, groups: seq<OpenGroup>, readable: Readable, s: Group)
    requires ListsOpenConflicts(p, groups) && ReadsItself(readable) && s in ShownGroups(groups, readable)
    ensures MemberIdsOf(s) == StoredMemberIds(p.members, s.conflict)
    ensures s.conflict in p.conflicts && p.conflicts[s.conflict].Open()
  {
    ShownAreListed(groups, readable, s);
    var g :| g in groups && Showable(g, readable) && s == Group(g.conflict, Hydrated(g.visible, readable));
    HydratedAll(g.visible, readable);
    SameIds(s.members, g.visible);
    VisibleAreAll(p, g);
  }

  /** Where disputes are sound, shown groups of different conflicts share no memory. */
  lemma ShownAreDisjoint(p: Projection, groups: seq<OpenGroup>, readable: Readable, s: Group, t: Group)
    requires DisputesSound(p) && ListsOpenConflicts(p, groups) && ReadsItself(readable)
    requires s in ShownGroups(groups, readable) && t in ShownGroups(groups, readable) && s.conflict != t.conflict
    ensures MemberIdsOf(s) !! MemberIdsOf(t)
  {
    ShownIsWhole(p, groups, readable, s);
    ShownIsWhole(p, groups, readable, t);
    StoredMembers(p.members, s.conflict);
    StoredMembers(p.members, t.conflict);
    forall id | id in MemberIdsOf(s) && id in MemberIdsOf(t) ensures false {
      assert OpenMember(p, s.conflict, id) && OpenMember(p, t.conflict, id);
    }
  }

  // ---------------------------------------------------------------- ordering

  /** Higher score first, then smaller identifier. */
  predicate Precedes(a: Hit, b: Hit) {
    a.score > b.score || (a.score == b.score && a.id < b.id)
  }

  predicate Ordered(hits: seq<Hit>) {
    forall i, j :: 0 <= i < j < |hits| ==> Precedes(hits[i], hits[j])
  }

  /** The values of a table in order. */
  ghost predicate Ordering(table: map<Uuid, Hit>, hits: seq<Hit>) {
    Ordered(hits) && forall h :: h in hits <==> h.id in table && table[h.id] == h
  }

  function Add(table: map<Uuid, Hit>, hits: seq<Hit>): map<Uuid, Hit>
    decreases |hits|
  {
    if hits == [] then table else Add(table, hits[..|hits| - 1])[hits[|hits| - 1].id := hits[|hits| - 1]]
  }

  function AddGroups(table: map<Uuid, Hit>, groups: seq<Group>): map<Uuid, Hit>
    decreases |groups|
  {
    if groups == [] then table else Add(AddGroups(table, groups[..|groups| - 1]), groups[|groups| - 1].members)
  }

  /** Hits and conflict members by identifier; a member replaces a hit. */
  function Expanded(hits: seq<Hit>, groups: seq<Group>): map<Uuid, Hit> {
    AddGroups(Add(map[], hits), groups)
  }

  predicate Keyed(table: map<Uuid, Hit>) {
    forall id :: id in table ==> table[id].id == id
  }

  lemma {:induction false} AddKeys(table: map<Uuid, Hit>, hits: seq<Hit>)
    requires Keyed(table)
    ensures Keyed(Add(table, hits)) && table.Keys <= Add(table, hits).Keys
    ensures forall h :: h in hits ==> h.id in Add(table, hits)
    decreases |hits|
  {
    if hits != [] {
      AddKeys(table, hits[..|hits| - 1]);
      assert hits == hits[..|hits| - 1] + [hits[|hits| - 1]];
    }
  }

  lemma {:induction false} AddGroupsKeys(table: map<Uuid, Hit>, groups: seq<Group>)
    requires Keyed(table)
    ensures Keyed(AddGroups(table, groups)) && table.Keys <= AddGroups(table, groups).Keys
    ensures forall g, h :: g in groups && h in g.members ==> h.id in AddGroups(table, groups)
    decreases |groups|
  {
    if groups != [] {
      var init, last := groups[..|groups| - 1], groups[|groups| - 1];
      AddGroupsKeys(table, init);
      AddKeys(AddGroups(table, init), last.members);
      assert groups == init + [last];
    }
  }

  /** Inserts a hit into its place. */
  method Insert(hits: seq<Hit>, h: Hit) returns (longer: seq<Hit>)
    requires Ordered(hits) && forall x :: x in hits ==> x.id != h.id
    ensures Ordered(longer) && forall x :: x in longer <==> x in hits || x == h
  {
    var i := 0;
    while i < |hits| && Precedes(hits[i], h)
      invariant 0 <= i <= |hits| && forall k :: 0 <= k < i ==> Precedes(hits[k], h)
    {
      i := i + 1;
    }
    assert i < |hits| ==> hits[i] in hits && Precedes(h, hits[i]);
    longer := hits[..i] + [h] + hits[i..];
    Inserted(hits, h, i);
  }

  lemma Inserted(hits: seq<Hit>, h: Hit, i: nat)
    requires Ordered(hits) && i <= |hits|
    requires forall k :: 0 <= k < i ==> Precedes(hits[k], h)
    requires i < |hits| ==> Precedes(h, hits[i])
    ensures Ordered(hits[..i] + [h] + hits[i..])
    ensures forall x :: x in hits[..i] + [h] + hits[i..] <==> x in hits || x == h
  {
    var longer := hits[..i] + [h] + hits[i..];
    assert hits == hits[..i] + hits[i..];
    forall j, k | 0 <= j < k < |longer| ensures Precedes(longer[j], longer[k]) {
      if k > i {
        assert longer[k] == hits[k - 1];
      }
    }
  }

  method Order(table: map<Uuid, Hit>) returns (hits: seq<Hit>)
    requires Keyed(table)
    ensures Ordering(table, hits)
  {
    hits := [];
    var rest := table.Keys;
    while rest != {}
      invariant rest <= table.Keys && Ordered(hits)
      invariant forall h :: h in hits <==> h.id in table && h.id !in rest && table[h.id] == h
      decreases rest
    {
      var id :| id in rest;
      hits := Insert(hits, table[id]);
      rest := rest - {id};
    }
  }

  // ---------------------------------------------------------------- cutting and filtering

  function IdsOf(hits: seq<Hit>): set<Uuid> {
    set h | h in hits :: h.id
  }

  predicate Complete(g: Group, kept: seq<Hit>) {
    MemberIdsOf(g) <= IdsOf(kept)
  }

  /** Members of groups the cut went through. */
  function CutIds(groups: seq<Group>, kept: seq<Hit>): set<Uuid> {
    set g, h | g in groups && !Complete(g, kept) && h in g.members :: h.id
  }

  function Without(hits: seq<Hit>, ids: set<Uuid>): seq<Hit>
    decreases |hits|
  {
    if hits == [] then []
    else Without(hits[..|hits| - 1], ids) + if hits[|hits| - 1].id in ids then [] else [hits[|hits| - 1]]
  }

  function Cut(hits: seq<Hit>, limit: nat): seq<Hit> {
    if |hits| <= limit then hits else hits[..limit]
  }

  lemma {:induction false} WithoutKeeps(hits: seq<Hit>, ids: set<Uuid>)
    requires Ordered(hits)
    ensures Ordered(Without(hits, ids)) && |Without(hits, ids)| <= |hits|
    ensures forall h :: h in Without(hits, ids) <==> h in hits && h.id !in ids
    decreases |hits|
  {
    if hits != [] {
      var init, last := hits[..|hits| - 1], hits[|hits| - 1];
      WithoutKeeps(init, ids);
      assert hits == init + [last];
      assert forall h :: h in init ==> Precedes(h, last);
    }
  }

  /** All members of the group are returned, or none is. */
  ghost predicate AllOrNone(g: Group, result: seq<Hit>) {
    MemberIdsOf(g) <= IdsOf(result) || MemberIdsOf(g) !! IdsOf(result)
  }

  /** No returned group is torn exactly when every group the limit left whole is clear of the cut groups or swallowed
      by them. */
  predicate Untorn(groups: seq<Group>, kept: seq<Hit>) {
    forall g :: g in groups && Complete(g, kept) ==>
      MemberIdsOf(g) !! CutIds(groups, kept) || MemberIdsOf(g) <= CutIds(groups, kept)
  }

  lemma ResultIds(groups: seq<Group>, kept: seq<Hit>)
    requires Ordered(kept)
    ensures IdsOf(Without(kept, CutIds(groups, kept))) == IdsOf(kept) - CutIds(groups, kept)
  {
    var cut := CutIds(groups, kept);
    WithoutKeeps(kept, cut);
    forall id ensures id in IdsOf(Without(kept, cut)) <==> id in IdsOf(kept) - cut {
      if id in IdsOf(kept) - cut {
        var h :| h in kept && h.id == id;
        assert h in Without(kept, cut);
      }
    }
  }

  lemma CutMembersGone(groups: seq<Group>, kept: seq<Hit>, g: Group)
    requires g in groups && !Complete(g, kept)
    ensures MemberIdsOf(g) <= CutIds(groups, kept)
  {
  }

  /** Whole groups come back whole or not at all, exactly when no group the limit left whole is torn by a cut one. */
  lemma AllOrNoneExactly(groups: seq<Group>, kept: seq<Hit>)
    requires Ordered(kept)
    ensures (forall g :: g in groups ==> AllOrNone(g, Without(kept, CutIds(groups, kept)))) <==> Untorn(groups, kept)
  {
    var cut, result := CutIds(groups, kept), Without(kept, CutIds(groups, kept));
    ResultIds(groups, kept);
    forall g | g in groups
      ensures Complete(g, kept) ==> (AllOrNone(g, result) <==> MemberIdsOf(g) !! cut || MemberIdsOf(g) <= cut)
      ensures !Complete(g, kept) ==> AllOrNone(g, result)
    {
      if Complete(g, kept) {
        assert MemberIdsOf(g) !! cut ==> MemberIdsOf(g) <= IdsOf(result);
        assert MemberIdsOf(g) <= IdsOf(result) ==> MemberIdsOf(g) !! cut;
        assert MemberIdsOf(g) !! IdsOf(result) ==> MemberIdsOf(g) <= cut;
      } else {
        CutMembersGone(groups, kept, g);
      }
    }
  }

  predicate PairwiseDisjoint(groups: seq<Group>) {
    forall g, h :: g in groups && h in groups && g != h ==> MemberIdsOf(g) !! MemberIdsOf(h)
  }

  lemma DisjointIsUntorn(groups: seq<Group>, kept: seq<Hit>)
    requires PairwiseDisjoint(groups)
    ensures Untorn(groups, kept)
  {
    forall g, h | g in groups && Complete(g, kept) && h in groups && !Complete(h, kept)
      ensures MemberIdsOf(g) !! MemberIdsOf(h)
    {
      assert g != h;
    }
  }

  /** Groups that overlap can be torn: with the limit at two, a cut through the second group takes a member of the
      first. */
  lemma OverlapMayTear()
    ensures var a, b, c := Hit(1, 3.0), Hit(2, 2.0), Hit(3, 1.0);
            var groups, kept := [Group(10, [a, b]), Group(11, [b, c])], [a, b];
            !Untorn(groups, kept) && Without(kept, CutIds(groups, kept)) == [a]
  {
    var a, b, c := Hit(1, 3.0), Hit(2, 2.0), Hit(3, 1.0);
    var g, h, kept := Group(10, [a, b]), Group(11, [b, c]), [a, b];
    var groups := [g, h];
    assert g in groups && h in groups && c in h.members && a in g.members && b in h.members;
    assert 3 in MemberIdsOf(h) && 3 !in IdsOf(kept);
    assert 2 in CutIds(groups, kept) && 2 in MemberIdsOf(g);
    assert MemberIdsOf(g) == {1, 2} && MemberIdsOf(h) == {2, 3};
    assert 1 !in CutIds(groups, kept);
    FirstOfTwo(a, b, CutIds(groups, kept));
  }

  lemma FirstOfTwo(a: Hit, b: Hit, ids: set<Uuid>)
    requires a.id !in ids && b.id in ids
    ensures Without([a, b], ids) == [a]
  {
    var one, two := [a], [a, b];
    assert one[..0] == [] && two[..1] == one;
    assert Without(one, ids) == [a] && Without(two, ids) == Without(one, ids);
  }

  /** The search branch. */
  method Assemble(hits: seq<Hit>, groups: seq<Group>, limit: nat) returns (result: seq<Hit>, ghost kept: seq<Hit>)
    ensures |result| <= limit && Ordered(result)
    ensures exists ordered :: Ordering(Expanded(hits, groups), ordered) && kept == Cut(ordered, limit)
    ensures result == Without(kept, CutIds(groups, kept)) && Ordered(kept)
    ensures forall h :: h in result <==> h in kept && h.id !in CutIds(groups, kept)
    ensures (forall g :: g in groups ==> AllOrNone(g, result)) <==> Untorn(groups, kept)
    ensures PairwiseDisjoint(groups) ==> forall g :: g in groups ==> AllOrNone(g, result)
  {
    var expanded := Expanded(hits, groups);
    AddKeys(map[], hits);
    AddGroupsKeys(Add(map[], hits), groups);
    var ordered := Order(expanded);
    var top := Cut(ordered, limit);
    kept := top;
    assert Ordered(top);
    var cut := CutIds(groups, top);
    result := Filter(top, cut);
    WithoutKeeps(top, cut);
    AllOrNoneExactly(groups, top);
    if PairwiseDisjoint(groups) { DisjointIsUntorn(groups, top); }
  }

  method Filter(hits: seq<Hit>, ids: set<Uuid>) returns (kept: seq<Hit>)
    ensures kept == Without(hits, ids)
  {
    kept := [];
    for i := 0 to |hits|
      invariant kept == Without(hits[..i], ids)
    {
      assert hits[..i + 1][..i] == hits[..i];
      if hits[i].id !in ids { kept := kept + [hits[i]]; }
    }
    assert hits[..|hits|] == hits;
  }

  /** The ordered list of a table is unique, so the result does not depend on how it was sorted. */
  lemma {:induction false} OrderingIsUnique(a: seq<Hit>, b: seq<Hit>)
    requires Ordered(a) && Ordered(b) && forall h :: h in a <==> h in b
    ensures a == b
    decreases |a|
  {
    assert |b| > 0 ==> b[0] in b;
    if a != [] {
      assert a[0] in b && b[0] in a;
      var i :| 0 <= i < |b| && b[i] == a[0];
      var j :| 0 <= j < |a| && a[j] == b[0];
      assert a[0] == b[0];
      forall h ensures h in a[1..] <==> h in b[1..] {
        assert h in a[1..] ==> h in a && Precedes(a[0], h);
        assert h in b[1..] ==> h in b && Precedes(b[0], h);
        assert a == [a[0]] + a[1..] && b == [b[0]] + b[1..];
      }
      OrderingIsUnique(a[1..], b[1..]);
    }
  }

  // ---------------------------------------------------------------- stored conflicts in a result

  /** All stored members of the conflict are returned, or none is. */
  ghost predicate ConflictAllOrNone(p: Projection, c: Uuid, result: seq<Hit>) {
    StoredMemberIds(p.members, c) <= IdsOf(result) || StoredMemberIds(p.members, c) !! IdsOf(result)
  }

  /** Hits can be read, and a hit that is a member of a listed conflict is among its visible members. */
  ghost predicate HitsReadable(p: Projection, hits: seq<Hit>, open: seq<OpenGroup>, readable: Readable) {
    forall h :: h in hits ==>
      && readable(h.id).Some?
      && forall g :: g in open && (g.conflict, h.id) in p.members ==> h.id in g.visible
  }

  /** Every kept hit is a hit or a member of a shown group. */
  ghost predicate KeptFrom(hits: seq<Hit>, groups: seq<Group>, kept: seq<Hit>) {
    forall id :: id in IdsOf(kept) ==> id in IdsOf(hits) || exists s :: s in groups && id in MemberIdsOf(s)
  }

  lemma {:induction false} AddOnly(table: map<Uuid, Hit>, hits: seq<Hit>)
    ensures forall id :: id in Add(table, hits) ==> id in table || id in IdsOf(hits)
    decreases |hits|
  {
    if hits != [] {
      var init := hits[..|hits| - 1];
      AddOnly(table, init);
      assert forall h :: h in init ==> h in hits;
      assert hits[|hits| - 1] in hits;
    }
  }

  lemma {:induction false} AddGroupsOnly(table: map<Uuid, Hit>, groups: seq<Group>)
    ensures forall id :: id in AddGroups(table, groups) ==>
            id in table || exists s :: s in groups && id in MemberIdsOf(s)
    decreases |groups|
  {
    if groups != [] {
      var init, last := groups[..|groups| - 1], groups[|groups| - 1];
      AddGroupsOnly(table, init);
      AddOnly(AddGroups(table, init), last.members);
      assert forall s :: s in init ==> s in groups;
      assert last in groups;
    }
  }

  lemma ExpandedOnly(hits: seq<Hit>, groups: seq<Group>, ordered: seq<Hit>, limit: nat)
    requires Ordering(Expanded(hits, groups), ordered)
    ensures KeptFrom(hits, groups, Cut(ordered, limit))
  {
    AddOnly(map[], hits);
    AddGroupsOnly(Add(map[], hits), groups);
    var kept := Cut(ordered, limit);
    forall id | id in IdsOf(kept) ensures id in Expanded(hits, groups) {
      var h :| h in kept && h.id == id;
      assert h in ordered;
    }
  }

  /** A conflict with a hidden or unreadable member is clear of every shown group. */
  lemma UnshownIsClear(p: Projection, open: seq<OpenGroup>, readable: Readable, g: OpenGroup, s: Group)
    requires DisputesSound(p) && ListsOpenConflicts(p, open) && ReadsItself(readable)
    requires g in open && !Showable(g, readable) && s in ShownGroups(open, readable)
    ensures MemberIdsOf(s) !! StoredMemberIds(p.members, g.conflict)
  {
    ShownIsWhole(p, open, readable, s);
    ShownAreListed(open, readable, s);
    assert s.conflict != g.conflict;
    StoredMembers(p.members, s.conflict);
    StoredMembers(p.members, g.conflict);
    forall id | id in MemberIdsOf(s) && id in StoredMemberIds(p.members, g.conflict) ensures false {
      assert OpenMember(p, s.conflict, id) && OpenMember(p, g.conflict, id);
    }
  }

  lemma {:induction false} HydratedWhole(visible: seq<Uuid>, readable: Readable)
    requires forall id :: id in visible ==> readable(id).Some?
    ensures |Hydrated(visible, readable)| == |visible|
    decreases |visible|
  {
    if visible != [] {
      assert visible[|visible| - 1] in visible;
      HydratedWhole(visible[..|visible| - 1], readable);
    }
  }

  /** When every stored member is a hit, the group can be shown. */
  lemma AllHitsIsShowable(p: Projection, hits: seq<Hit>, open: seq<OpenGroup>, readable: Readable, g: OpenGroup)
    requires ListsOpenConflicts(p, open) && HitsReadable(p, hits, open, readable) && g in open
    requires StoredMemberIds(p.members, g.conflict) <= IdsOf(hits)
    ensures Showable(g, readable)
  {
    StoredMembers(p.members, g.conflict);
    forall id | id in StoredMemberIds(p.members, g.conflict) ensures id in g.visible && readable(id).Some? {
      var h :| h in hits && h.id == id;
    }
    assert Elements(g.visible) == StoredMemberIds(p.members, g.conflict);
    DistinctCount(g.visible);
    HydratedWhole(g.visible, readable);
  }

  /** What is kept of a conflict that is not shown is returned as it is, and it is never the whole conflict. */
  lemma UnshownIsPartial(p: Projection, hits: seq<Hit>, open: seq<OpenGroup>, readable: Readable, kept: seq<Hit>,
      g: OpenGroup)
    requires DisputesSound(p) && ListsOpenConflicts(p, open) && ReadsItself(readable)
             && HitsReadable(p, hits, open, readable)
    requires Ordered(kept) && KeptFrom(hits, ShownGroups(open, readable), kept) && g in open && !Showable(g, readable)
    ensures var groups, members := ShownGroups(open, readable), StoredMemberIds(p.members, g.conflict);
            var result := Without(kept, CutIds(groups, kept));
            members * IdsOf(result) == members * IdsOf(kept) && !(members <= IdsOf(result))
  {
    var groups, members := ShownGroups(open, readable), StoredMemberIds(p.members, g.conflict);
    forall s | s in groups ensures MemberIdsOf(s) !! members { UnshownIsClear(p, open, readable, g, s); }
    ResultIds(groups, kept);
    forall s, h | s in groups && h in s.members ensures h.id !in members { assert h.id in MemberIdsOf(s); }
    assert members !! CutIds(groups, kept);
    if members <= IdsOf(kept) { AllHitsIsShowable(p, hits, open, readable, g); }
  }

  lemma ShownComesWhole(p: Projection, open: seq<OpenGroup>, readable: Readable, kept: seq<Hit>, g: OpenGroup)
    requires DisputesSound(p) && ListsOpenConflicts(p, open) && ReadsItself(readable) && Ordered(kept)
    requires g in open && Showable(g, readable)
    ensures ConflictAllOrNone(p, g.conflict, Without(kept, CutIds(ShownGroups(open, readable), kept)))
  {
    var groups := ShownGroups(open, readable);
    ShowableIsShown(open, readable, g);
    var s := Group(g.conflict, Hydrated(g.visible, readable));
    ShownIsWhole(p, open, readable, s);
    ShownArePairwise(p, open, readable);
    DisjointIsUntorn(groups, kept);
    AllOrNoneExactly(groups, kept);
    assert AllOrNone(s, Without(kept, CutIds(groups, kept)));
  }

  lemma {:induction false} ShowableIsShown(groups: seq<OpenGroup>, readable: Readable, g: OpenGroup)
    requires g in groups && Showable(g, readable)
    ensures Group(g.conflict, Hydrated(g.visible, readable)) in ShownGroups(groups, readable)
    decreases |groups|
  {
    var init, last := groups[..|groups| - 1], groups[|groups| - 1];
    if g in init { ShowableIsShown(init, readable, g); } else { assert g == last; }
  }

  lemma ShownArePairwise(p: Projection, open: seq<OpenGroup>, readable: Readable)
    requires DisputesSound(p) && ListsOpenConflicts(p, open) && ReadsItself(readable)
    ensures PairwiseDisjoint(ShownGroups(open, readable))
  {
    var groups := ShownGroups(open, readable);
    forall g, h | g in groups && h in groups && g != h ensures MemberIdsOf(g) !! MemberIdsOf(h) {
      ShownAreListed(open, readable, g);
      ShownAreListed(open, readable, h);
      assert g.conflict != h.conflict;
      ShownAreDisjoint(p, open, readable, g, h);
    }
  }

  lemma PartIsNeither(members: set<Uuid>, result: set<Uuid>, kept: set<Uuid>)
    requires members * result == members * kept && !(members <= result)
    ensures (members <= result || members !! result) <==> members !! kept
  {
    forall x | x in members ensures x in result <==> x in kept {
      assert x in members * result <==> x in members * kept;
    }
  }

  /** A listed conflict comes back whole or not at all if and only if the caller may read all of it or none of its
      members made the cut. */
  lemma ConflictReturnedExactly(p: Projection, hits: seq<Hit>, open: seq<OpenGroup>, readable: Readable, kept: seq<Hit>,
      g: OpenGroup)
    requires DisputesSound(p) && ListsOpenConflicts(p, open) && ReadsItself(readable)
             && HitsReadable(p, hits, open, readable)
    requires Ordered(kept) && KeptFrom(hits, ShownGroups(open, readable), kept) && g in open
    ensures ConflictAllOrNone(p, g.conflict, Without(kept, CutIds(ShownGroups(open, readable), kept))) <==>
            Showable(g, readable) || StoredMemberIds(p.members, g.conflict) !! IdsOf(kept)
  {
    if Showable(g, readable) {
      ShownComesWhole(p, open, readable, kept, g);
    } else {
      UnshownIsPartial(p, hits, open, readable, kept, g);
      var result := Without(kept, CutIds(ShownGroups(open, readable), kept));
      PartIsNeither(StoredMemberIds(p.members, g.conflict), IdsOf(result), IdsOf(kept));
    }
  }

  lemma OneOfTwoListed(p: Projection, c: Uuid, a: Hit, b: Uuid, readable: Readable)
    requires c in p.conflicts && p.conflicts[c].Open() && StoredMemberIds(p.members, c) == {a.id, b} && a.id != b
    requires readable(a.id) == Some(a)
    ensures ListsOpenConflicts(p, [OpenGroup(c, [a.id], 2)])
            && HitsReadable(p, [a], [OpenGroup(c, [a.id], 2)], readable)
  {
    StoredMembers(p.members, c);
    assert |{a.id, b}| == 2;
    assert (c, a.id) in p.members;
  }

  lemma NothingShown(c: Uuid, a: Hit, readable: Readable)
    ensures ShownGroups([OpenGroup(c, [a.id], 2)], readable) == [] && Without([a], CutIds([], [a])) == [a]
  {
    var g := OpenGroup(c, [a.id], 2);
    assert [g][..0] == [] && !Showable(g, readable);
    assert CutIds([], [a]) == {} && [a][..0] == [];
  }

  /** An open conflict of two memories, one of which the caller may not see: the other is returned alone. */
  lemma HiddenMemberLeavesOne(p: Projection, c: Uuid, a: Hit, b: Uuid, readable: Readable)
    requires DisputesSound(p) && c in p.conflicts && p.conflicts[c].Open() && StoredMemberIds(p.members, c) == {a.id, b}
             && a.id != b
    requires ReadsItself(readable) && readable(a.id) == Some(a)
    ensures var open := [OpenGroup(c, [a.id], 2)];
            && ListsOpenConflicts(p, open) && HitsReadable(p, [a], open, readable)
            && ShownGroups(open, readable) == [] && Without([a], CutIds([], [a])) == [a]
            && !ConflictAllOrNone(p, c, [a])
  {
    OneOfTwoListed(p, c, a, b, readable);
    NothingShown(c, a, readable);
    assert IdsOf([a]) == {a.id};
    assert a.id in StoredMemberIds(p.members, c) && b in StoredMemberIds(p.members, c);
  }

  /** Search over a sound projection, with each conflict listed once. Every conflict the caller may read in full is
      returned whole or not at all; of any other, exactly the members that made the cut are returned. */
  method Search(p: Projection, hits: seq<Hit>, open: seq<OpenGroup>, readable: Readable, limit: nat)
    returns (result: seq<Hit>, ghost kept: seq<Hit>)
    requires DisputesSound(p) && ListsOpenConflicts(p, open) && ReadsItself(readable)
             && HitsReadable(p, hits, open, readable)
    ensures |result| <= limit && Ordered(result)
    ensures exists ordered ::
            Ordering(Expanded(hits, ShownGroups(open, readable)), ordered) && kept == Cut(ordered, limit)
    ensures forall g :: g in ShownGroups(open, readable) ==> AllOrNone(g, result)
    ensures forall g :: g in open ==>
              (ConflictAllOrNone(p, g.conflict, result) <==>
               Showable(g, readable) || StoredMemberIds(p.members, g.conflict) !! IdsOf(kept))
  {
    var groups := HydrateGroups(open, readable);
    ShownArePairwise(p, open, readable);
    result, kept := Assemble(hits, groups, limit);
    ghost var ordered :| Ordering(Expanded(hits, groups), ordered) && kept == Cut(ordered, limit);
    ExpandedOnly(hits, groups, ordered, limit);
    forall g | g in open
      ensures ConflictAllOrNone(p, g.conflict, result) <==>
              Showable(g, readable) || StoredMemberIds(p.members, g.conflict) !! IdsOf(kept)
    {
      ConflictReturnedExactly(p, hits, open, readable, kept, g);
    }
  }
}
