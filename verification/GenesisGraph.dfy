/** Validation of a supersession graph by depth-first search with mutable `visiting` and `visited` sets. */
module GenesisGraph {

  type Id = string
  type Edge = (Id, Id)

  datatype Verdict = Accepted | AmbiguousId | SelfSupersession | DanglingSupersession | SupersessionCycle

  // ---------------------------------------------------------------- the property

  predicate Distinct(ids: seq<Id>) {
    forall i, j :: 0 <= i < j < |ids| ==> ids[i] != ids[j]
  }

  predicate Walk<T(==)>(edges: seq<(T, T)>, path: seq<T>) {
    |path| >= 2 && forall i :: 0 <= i < |path| - 1 ==> (path[i], path[i + 1]) in edges
  }

  predicate Cycle<T(==)>(edges: seq<(T, T)>, path: seq<T>) {
    Walk(edges, path) && path[0] == path[|path| - 1]
  }

  ghost predicate HasCycle<T(!new)>(edges: seq<(T, T)>) {
    exists path :: Cycle(edges, path)
  }

  /** What the validation must answer, stated without any search. */
  ghost function Judgement(ids: seq<Id>, edges: seq<Edge>): Verdict {
    if !Distinct(ids) then AmbiguousId
    else if exists e :: e in edges && e.0 == e.1 then SelfSupersession
    else if exists e :: e in edges && (e.0 !in ids || e.1 !in ids) then DanglingSupersession
    else if HasCycle(edges) then SupersessionCycle
    else Accepted
  }

  // ---------------------------------------------------------------- finishing order

  /** Every successor of a finished node finished before it. */
  ghost predicate Topological(edges: seq<Edge>, finished: seq<Id>) {
    && Distinct(finished)
    && forall i, t :: 0 <= i < |finished| && (finished[i], t) in edges ==> t in finished[..i]
  }

  function Position(finished: seq<Id>, id: Id): nat
    requires id in finished
  {
    if finished[0] == id then 0 else 1 + Position(finished[1..], id)
  }

  lemma {:induction false} PositionIs(finished: seq<Id>, i: nat)
    requires Distinct(finished) && i < |finished|
    ensures Position(finished, finished[i]) == i
    decreases i
  {
    if i > 0 {
      assert finished[1..][i - 1] == finished[i];
      PositionIs(finished[1..], i - 1);
    }
  }

  lemma EdgesGoBack(edges: seq<Edge>, finished: seq<Id>, o: Id, t: Id)
    requires Topological(edges, finished) && o in finished && (o, t) in edges
    ensures t in finished && Position(finished, t) < Position(finished, o)
  {
    var i :| 0 <= i < |finished| && finished[i] == o;
    assert t in finished[..i];
    var j :| 0 <= j < i && finished[..i][j] == t;
    PositionIs(finished, i);
    PositionIs(finished, j);
  }

  lemma {:induction false} WalksGoBack(edges: seq<Edge>, finished: seq<Id>, path: seq<Id>, k: nat)
    requires Topological(edges, finished) && Walk(edges, path) && path[0] in finished && k < |path|
    ensures path[k] in finished && Position(finished, path[k]) + k <= Position(finished, path[0])
    decreases k
  {
    if k > 0 {
      WalksGoBack(edges, finished, path, k - 1);
      assert (path[k - 1], path[k - 1 + 1]) in edges;
      EdgesGoBack(edges, finished, path[k - 1], path[k]);
    }
  }

  /** A finishing order that covers every origin rules out cycles. */
  lemma FinishedMeansAcyclic(edges: seq<Edge>, finished: seq<Id>)
    requires Topological(edges, finished)
    requires forall e :: e in edges ==> e.0 in finished
    ensures !HasCycle(edges)
  {
    forall path ensures !Cycle(edges, path) {
      if Walk(edges, path) {
        assert (path[0], path[0 + 1]) in edges;
        WalksGoBack(edges, finished, path, |path| - 1);
      }
    }
  }

  // ---------------------------------------------------------------- the search

  ghost predicate Adjacency(edges: seq<Edge>, graph: map<Id, seq<Id>>) {
    && (forall e :: e in edges ==> e.0 in graph && e.1 in graph)
    && (forall o :: o in graph ==> forall t :: t in graph[o] <==> (o, t) in edges)
  }

  method BuildGraph(known: set<Id>, edges: seq<Edge>) returns (graph: map<Id, seq<Id>>)
    requires forall e :: e in edges ==> e.0 in known && e.1 in known
    ensures graph.Keys == known && Adjacency(edges, graph)
  {
    graph := map id | id in known :: [];
    for i := 0 to |edges|
      invariant graph.Keys == known
      invariant forall o :: o in graph ==> forall t :: t in graph[o] <==> (o, t) in edges[..i]
    {
      var (o, t) := edges[i];
      assert edges[i] in edges;
      assert edges[..i + 1] == edges[..i] + [edges[i]];
      graph := graph[o := graph[o] + [t]];
    }
    assert edges[..|edges|] == edges;
  }

  /** The state the recursive visit shares. `finished` lists visited nodes in the order they were finished, `trail`
      the nodes being visited from the outermost in; both exist for the proof only. */
  class Visitor {
    const graph: map<Id, seq<Id>>
    ghost const edges: seq<Edge>
    var visiting: set<Id>
    var visited: set<Id>
    ghost var finished: seq<Id>
    ghost var trail: seq<Id>

    constructor (graph: map<Id, seq<Id>>, ghost edges: seq<Edge>)
      requires Adjacency(edges, graph)
      ensures this.graph == graph && this.edges == edges && Valid()
      ensures visiting == {} && visited == {} && trail == []
    {
      this.graph, this.edges := graph, edges;
      visiting, visited, finished, trail := {}, {}, [], [];
    }

    ghost predicate Valid()
      reads this
    {
      && Adjacency(edges, graph)
      && visited <= graph.Keys && visiting <= graph.Keys
      && (forall id :: id in finished <==> id in visited) && Topological(edges, finished)
      && (forall id :: id in trail <==> id in visiting)
      && (forall i :: 0 <= i < |trail| - 1 ==> (trail[i], trail[i + 1]) in edges)
      && visiting !! visited
    }

    /** Visits a node and everything below it. On success they are all visited and the trail is as before; otherwise
        a cycle was found. */
    method Visit(id: Id) returns (ok: bool, ghost cycle: seq<Id>)
      requires Valid() && id in graph
      requires trail != [] ==> (trail[|trail| - 1], id) in edges
      modifies this
      ensures !ok ==> Cycle(edges, cycle)
      ensures ok ==> Valid() && visiting == old(visiting) && trail == old(trail)
      ensures ok ==> old(visited) <= visited && id in visited
      decreases graph.Keys - visiting
    {
      cycle := [];
      if id in visiting {
        ghost var i :| 0 <= i < |trail| && trail[i] == id;
        cycle := trail[i..] + [id];
        return false, cycle;
      }
      if id in visited { return true, []; }
      ghost var outer := trail;
      visiting, trail := visiting + {id}, trail + [id];
      var targets := graph[id];
      for i := 0 to |targets|
        invariant Valid() && visiting == old(visiting) + {id} && trail == outer + [id]
        invariant old(visited) <= visited
        invariant forall k :: 0 <= k < i ==> targets[k] in visited
      {
        assert targets[i] in graph[id];
        ok, cycle := Visit(targets[i]);
        if !ok { return; }
      }
      visiting, trail := visiting - {id}, outer;
      visited, finished := visited + {id}, finished + [id];
      FinishLast(edges, graph, finished[..|finished| - 1], id);
      return true, [];
    }
  }

  /** A node all of whose successors are finished may finish next. */
  lemma FinishLast(edges: seq<Edge>, graph: map<Id, seq<Id>>, finished: seq<Id>, id: Id)
    requires Adjacency(edges, graph) && Topological(edges, finished) && id in graph && id !in finished
    requires forall t :: t in graph[id] ==> t in finished
    ensures Topological(edges, finished + [id])
  {
    var longer := finished + [id];
    forall i, t | 0 <= i < |longer| && (longer[i], t) in edges ensures t in longer[..i] {
      if i < |finished| {
        assert longer[..i] == finished[..i] && t in finished[..i];
      } else {
        assert longer[..i] == finished;
      }
    }
  }

  method HasSelfEdge(edges: seq<Edge>) returns (found: bool)
    ensures found <==> exists e :: e in edges && e.0 == e.1
  {
    for i := 0 to |edges|
      invariant forall k :: 0 <= k < i ==> edges[k].0 != edges[k].1
    {
      if edges[i].0 == edges[i].1 {
        assert edges[i] in edges;
        return true;
      }
    }
    return false;
  }

  method HasDanglingEdge(known: set<Id>, edges: seq<Edge>) returns (found: bool)
    ensures found <==> exists e :: e in edges && (e.0 !in known || e.1 !in known)
  {
    for i := 0 to |edges|
      invariant forall k :: 0 <= k < i ==> edges[k].0 in known && edges[k].1 in known
    {
      if edges[i].0 !in known || edges[i].1 !in known {
        assert edges[i] in edges;
        return true;
      }
    }
    return false;
  }

  lemma {:induction false} SetSize(ids: seq<Id>)
    ensures var known := set id | id in ids; |known| <= |ids| && (|known| == |ids| <==> Distinct(ids))
    decreases |ids|
  {
    if ids != [] {
      var init, last := ids[..|ids| - 1], ids[|ids| - 1];
      SetSize(init);
      var known, fewer := set id | id in ids, set id | id in init;
      assert ids == init + [last];
      assert known == fewer + {last};
      if last in init {
        assert known == fewer;
        var i :| 0 <= i < |init| && init[i] == last;
        assert ids[i] == ids[|ids| - 1];
      } else {
        assert |known| == |fewer| + 1;
        if Distinct(init) {
          forall i, j | 0 <= i < j < |ids| ensures ids[i] != ids[j] {
            assert j == |ids| - 1 ==> ids[i] == init[i];
          }
        } else {
          var i, j :| 0 <= i < j < |init| && init[i] == init[j];
          assert ids[i] == ids[j];
        }
      }
    }
  }

  /** The validation. It visits the nodes in the given order, whatever that is, and its verdict is the
      order-free judgement: soundness, completeness and independence of the visiting order in one. */
  method Validate(ids: seq<Id>, edges: seq<Edge>, order: seq<Id>) returns (verdict: Verdict)
    requires forall id :: id in order <==> id in ids
    ensures verdict == Judgement(ids, edges)
  {
    var known := set id | id in ids;
    SetSize(ids);
    if |known| != |ids| { return AmbiguousId; }
    var self := HasSelfEdge(edges);
    if self { return SelfSupersession; }
    var dangling := HasDanglingEdge(known, edges);
    if dangling { return DanglingSupersession; }
    var graph := BuildGraph(known, edges);
    var acyclic := Search(graph, edges, order);
    return if acyclic then Accepted else SupersessionCycle;
  }

  method Search(graph: map<Id, seq<Id>>, ghost edges: seq<Edge>, order: seq<Id>) returns (acyclic: bool)
    requires Adjacency(edges, graph) && forall id :: id in order <==> id in graph
    ensures acyclic <==> !HasCycle(edges)
  {
    var visitor := new Visitor(graph, edges);
    for i := 0 to |order|
      invariant visitor.Valid() && visitor.graph == graph && visitor.edges == edges && visitor.trail == []
      invariant forall k :: 0 <= k < i ==> order[k] in visitor.visited
    {
      assert order[i] in order;
      var ok, cycle := visitor.Visit(order[i]);
      if !ok { return false; }
    }
    forall e | e in edges ensures e.0 in visitor.finished { assert e.0 in order; }
    FinishedMeansAcyclic(edges, visitor.finished);
    return true;
  }
}
