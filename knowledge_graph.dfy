/**
  The knowledge graph over extracted entities
  (claude-memory-system/hooks/knowledge_graph.py).

  The networkx `DiGraph` is a value: the node names in insertion order, the
  node attributes by name, and the edge attributes by (source, target).
  `MemoryKnowledgeGraph` is a class whose fields the build and centrality
  methods update in place.
*/
module KnowledgeGraph {
  import opened Support
  import opened MemoryRecords
  import opened EntityExtractor

  /** Node attributes; `entityType` is `None` for a node added without one. */
  datatype NodeData = NodeData(entityType: Option<EntityType>, confidence: real, accessCount: int)

  datatype EdgeData = EdgeData(relationType: RelationType, confidence: real, coOccurrence: int)

  datatype DiGraph = DiGraph(order: seq<string>, nodes: map<string, NodeData>, edges: map<(string, string), EdgeData>)

  const EmptyGraph := DiGraph([], map[], map[])

  /** The default `base_importance` of `get_entity_importance`. */
  const DefaultBaseImportance: real := 10.0

  /** The default `limit` of `get_top_entities`. */
  const DefaultTopLimit: int := 20

  /** Node names are listed once each, and every edge joins two nodes. */
  ghost predicate Wf(g: DiGraph)
  {
    (forall i, j :: 0 <= i < j < |g.order| ==> g.order[i] != g.order[j]) &&
    (forall v :: v in g.nodes <==> v in g.order) &&
    (forall e :: e in g.edges ==> e.0 in g.nodes && e.1 in g.nodes)
  }

  /** `entity_to_memories`: the memory ids indexed under each entity name. */
  type Index = map<string, seq<string>>

  /** `entity_to_memories.get(name, [])`. */
  function Lookup(idx: Index, name: string): seq<string>
  {
    if name in idx then idx[name] else []
  }

  function EntityName(e: Entity): string { e.name }

  /** Number of entities named `n`. */
  function NameCount(es: seq<Entity>, n: string): nat
    decreases |es|
  {
    if es == [] then 0 else NameCount(Init(es), n) + (if Last(es).name == n then 1 else 0)
  }

  // ---------------------------------------------------------------------
  // _build_graph_from_entities
  // ---------------------------------------------------------------------

  /** One step of the node loop: a new name becomes a node, a known one gains one access. */
  function AddNode(g: DiGraph, idx: Index, e: Entity): DiGraph
  {
    if e.name !in g.nodes then
      DiGraph(g.order + [e.name],
              g.nodes[e.name := NodeData(Some(e.entityType), e.confidence, |Lookup(idx, e.name)|)],
              g.edges)
    else
      g.(nodes := g.nodes[e.name := g.nodes[e.name].(accessCount := g.nodes[e.name].accessCount + 1)])
  }

  function AddNodes(g: DiGraph, idx: Index, es: seq<Entity>): DiGraph
    decreases |es|
  {
    if es == [] then g else AddNode(AddNodes(g, idx, Init(es)), idx, Last(es))
  }

  function Endpoints(r: Relationship): (string, string) { (r.source, r.target) }

  /** Number of relationships from `s` to `t`. */
  function PairCount(rs: seq<Relationship>, s: string, t: string): nat
    decreases |rs|
  {
    if rs == [] then 0 else PairCount(Init(rs), s, t) + (if Endpoints(Last(rs)) == (s, t) then 1 else 0)
  }

  /** One step of the edge loop: only between two nodes; a known edge gains one co-occurrence. */
  function AddEdge(g: DiGraph, r: Relationship): DiGraph
  {
    var key := (r.source, r.target);
    if r.source in g.nodes && r.target in g.nodes then
      if key in g.edges then
        g.(edges := g.edges[key := g.edges[key].(coOccurrence := g.edges[key].coOccurrence + 1)])
      else
        g.(edges := g.edges[key := EdgeData(r.relationType, r.confidence, 1)])
    else g
  }

  function AddEdges(g: DiGraph, rs: seq<Relationship>): DiGraph
    decreases |rs|
  {
    if rs == [] then g else AddEdge(AddEdges(g, Init(rs)), Last(rs))
  }

  /** One node step keeps the graph well formed and adds exactly the entity's name. */
  lemma AddNodeWf(g: DiGraph, idx: Index, e: Entity)
    requires Wf(g)
    ensures Wf(AddNode(g, idx, e))
    ensures AddNode(g, idx, e).nodes.Keys == g.nodes.Keys + {e.name}
    ensures AddNode(g, idx, e).edges == g.edges
  {
    if e.name !in g.nodes {
      var o := g.order + [e.name];
      forall i, j | 0 <= i < j < |o| ensures o[i] != o[j] {
        if j == |g.order| {
          assert o[i] == g.order[i] && g.order[i] in g.nodes;
        } else {
          assert o[i] == g.order[i] && o[j] == g.order[j];
        }
      }
      assert forall v :: v in o <==> v in g.order || v == e.name;
    }
  }

  lemma {:induction false} AddNodesShape(g: DiGraph, idx: Index, es: seq<Entity>)
    requires Wf(g)
    ensures Wf(AddNodes(g, idx, es))
    ensures AddNodes(g, idx, es).nodes.Keys == g.nodes.Keys + KeysOf(es, EntityName)
    ensures AddNodes(g, idx, es).edges == g.edges
    decreases |es|
  {
    if es != [] {
      InitLast(es);
      AddNodesShape(g, idx, Init(es));
      KeysOfSnoc(Init(es), Last(es), EntityName);
      AddNodeWf(AddNodes(g, idx, Init(es)), idx, Last(es));
    }
  }

  /** A node that was already there only gains one access per entity with its name. */
  lemma {:induction false} AddNodesExisting(g: DiGraph, idx: Index, es: seq<Entity>, n: string)
    requires n in g.nodes
    ensures n in AddNodes(g, idx, es).nodes
    ensures AddNodes(g, idx, es).nodes[n] == g.nodes[n].(accessCount := g.nodes[n].accessCount + NameCount(es, n))
    decreases |es|
  {
    if es != [] {
      AddNodesExisting(g, idx, Init(es), n);
    }
  }

  lemma {:induction false} AddNodesAbsent(g: DiGraph, idx: Index, es: seq<Entity>, n: string)
    requires n !in g.nodes && n !in KeysOf(es, EntityName)
    ensures n !in AddNodes(g, idx, es).nodes
    decreases |es|
  {
    if es != [] {
      InitLast(es);
      KeysOfSnoc(Init(es), Last(es), EntityName);
      AddNodesAbsent(g, idx, Init(es), n);
    }
  }

  /** A new node takes the first entity's type and confidence and counts its memories, plus one per repeat. */
  lemma {:induction false} AddNodesFresh(g: DiGraph, idx: Index, es: seq<Entity>, n: string)
    requires n !in g.nodes && n in KeysOf(es, EntityName)
    ensures n in AddNodes(g, idx, es).nodes
    ensures var first := FirstWithKey(es, EntityName, n);
      AddNodes(g, idx, es).nodes[n] ==
        NodeData(Some(first.entityType), first.confidence, |Lookup(idx, n)| + NameCount(es, n) - 1)
    decreases |es|
  {
    var p, e := Init(es), Last(es);
    InitLast(es);
    KeysOfSnoc(p, e, EntityName);
    if n in KeysOf(p, EntityName) {
      AddNodesFresh(g, idx, p, n);
      FirstWithKeyCounted(p, n);
    } else {
      NameCountAbsent(p, n);
      AddNodesAbsent(g, idx, p, n);
    }
  }

  /**
    Adding entities creates one node per distinct name, keyed by the exact
    name: the node keeps the type and confidence of the first entity with
    that name, starts its access count at the number of memory ids indexed
    under the name, and each later entity with that name adds one.
  */
  lemma AddNodesLaw(g: DiGraph, idx: Index, es: seq<Entity>)
    requires Wf(g)
    ensures Wf(AddNodes(g, idx, es))
    ensures AddNodes(g, idx, es).nodes.Keys == g.nodes.Keys + KeysOf(es, EntityName)
    ensures AddNodes(g, idx, es).edges == g.edges
    ensures forall n :: n in g.nodes ==>
      AddNodes(g, idx, es).nodes[n] == g.nodes[n].(accessCount := g.nodes[n].accessCount + NameCount(es, n))
    ensures forall n :: n !in g.nodes && n in KeysOf(es, EntityName) ==>
      var first := FirstWithKey(es, EntityName, n);
      AddNodes(g, idx, es).nodes[n] ==
        NodeData(Some(first.entityType), first.confidence, |Lookup(idx, n)| + NameCount(es, n) - 1)
  {
    AddNodesShape(g, idx, es);
    forall n | n in g.nodes
      ensures AddNodes(g, idx, es).nodes[n] == g.nodes[n].(accessCount := g.nodes[n].accessCount + NameCount(es, n))
    {
      AddNodesExisting(g, idx, es, n);
    }
    forall n | n !in g.nodes && n in KeysOf(es, EntityName)
      ensures var first := FirstWithKey(es, EntityName, n);
        AddNodes(g, idx, es).nodes[n] ==
          NodeData(Some(first.entityType), first.confidence, |Lookup(idx, n)| + NameCount(es, n) - 1)
    {
      AddNodesFresh(g, idx, es, n);
    }
  }

  lemma {:induction false} NameCountAbsent(es: seq<Entity>, n: string)
    requires n !in KeysOf(es, EntityName)
    ensures NameCount(es, n) == 0
    decreases |es|
  {
    if es != [] {
      InitLast(es);
      KeysOfSnoc(Init(es), Last(es), EntityName);
      NameCountAbsent(Init(es), n);
    }
  }

  lemma {:induction false} FirstWithKeyCounted(es: seq<Entity>, n: string)
    requires n in KeysOf(es, EntityName)
    ensures NameCount(es, n) >= 1
    decreases |es|
  {
    InitLast(es);
    KeysOfSnoc(Init(es), Last(es), EntityName);
    if Last(es).name != n {
      FirstWithKeyCounted(Init(es), n);
    }
  }

  lemma {:induction false} PairCountAbsent(rs: seq<Relationship>, s: string, t: string)
    requires (s, t) !in KeysOf(rs, Endpoints)
    ensures PairCount(rs, s, t) == 0
    decreases |rs|
  {
    if rs != [] {
      InitLast(rs);
      KeysOfSnoc(Init(rs), Last(rs), Endpoints);
      PairCountAbsent(Init(rs), s, t);
    }
  }

  lemma AddEdgeWf(g: DiGraph, r: Relationship)
    requires Wf(g)
    ensures Wf(AddEdge(g, r))
    ensures AddEdge(g, r).order == g.order && AddEdge(g, r).nodes == g.nodes
  {
  }

  lemma {:induction false} AddEdgesShape(g: DiGraph, rs: seq<Relationship>)
    ensures AddEdges(g, rs).order == g.order && AddEdges(g, rs).nodes == g.nodes
    ensures Wf(g) ==> Wf(AddEdges(g, rs))
    decreases |rs|
  {
    if rs != [] {
      AddEdgesShape(g, Init(rs));
      if Wf(g) {
        AddEdgeWf(AddEdges(g, Init(rs)), Last(rs));
      }
    }
  }

  /** An edge exists when it did before, or when some relationship joins two nodes that way. */
  lemma {:induction false} AddEdgesHas(g: DiGraph, rs: seq<Relationship>, s: string, t: string)
    ensures (s, t) in AddEdges(g, rs).edges <==>
      (s, t) in g.edges || (s in g.nodes && t in g.nodes && PairCount(rs, s, t) > 0)
    decreases |rs|
  {
    if rs != [] {
      AddEdgesHas(g, Init(rs), s, t);
      AddEdgesShape(g, Init(rs));
    }
  }

  /** An existing edge gains one co-occurrence per relationship along it. */
  lemma {:induction false} AddEdgesExisting(g: DiGraph, rs: seq<Relationship>, s: string, t: string)
    requires (s, t) in g.edges && s in g.nodes && t in g.nodes
    ensures (s, t) in AddEdges(g, rs).edges
    ensures AddEdges(g, rs).edges[(s, t)] == g.edges[(s, t)].(coOccurrence := g.edges[(s, t)].coOccurrence + PairCount(rs, s, t))
    decreases |rs|
  {
    if rs != [] {
      AddEdgesExisting(g, Init(rs), s, t);
      AddEdgesShape(g, Init(rs));
    }
  }

  /** A new edge takes the first relationship's type and confidence and counts every relationship along it. */
  lemma {:induction false} AddEdgesFresh(g: DiGraph, rs: seq<Relationship>, s: string, t: string)
    requires (s, t) !in g.edges && (s, t) in AddEdges(g, rs).edges
    ensures (s, t) in KeysOf(rs, Endpoints)
    ensures var first := FirstWithKey(rs, Endpoints, (s, t));
      AddEdges(g, rs).edges[(s, t)] == EdgeData(first.relationType, first.confidence, PairCount(rs, s, t))
    decreases |rs|
  {
    var p, r := Init(rs), Last(rs);
    InitLast(rs);
    KeysOfSnoc(p, r, Endpoints);
    AddEdgesShape(g, p);
    AddEdgesHas(g, p, s, t);
    if (s, t) in AddEdges(g, p).edges {
      AddEdgesFresh(g, p, s, t);
    } else {
      assert Endpoints(r) == (s, t);
      if (s, t) in KeysOf(p, Endpoints) {
        PairCountPositive(p, s, t);
      }
      PairCountAbsent(p, s, t);
    }
  }

  /**
    A relationship becomes an edge only when both endpoints are nodes. An
    edge keeps the type and confidence of the first relationship that made
    it, and each relationship between the same two nodes adds one to its
    co-occurrence: `n` copies on a new edge give `n`.
  */
  lemma AddEdgesLaw(g: DiGraph, rs: seq<Relationship>)
    requires Wf(g)
    ensures Wf(AddEdges(g, rs))
    ensures AddEdges(g, rs).order == g.order && AddEdges(g, rs).nodes == g.nodes
    ensures forall s, t :: (s, t) in AddEdges(g, rs).edges <==>
      (s, t) in g.edges || (s in g.nodes && t in g.nodes && PairCount(rs, s, t) > 0)
    ensures forall s, t :: (s, t) in g.edges ==>
      AddEdges(g, rs).edges[(s, t)] == g.edges[(s, t)].(coOccurrence := g.edges[(s, t)].coOccurrence + PairCount(rs, s, t))
    ensures forall s, t :: (s, t) !in g.edges && (s, t) in AddEdges(g, rs).edges ==>
      (s, t) in KeysOf(rs, Endpoints) &&
      var first := FirstWithKey(rs, Endpoints, (s, t));
      AddEdges(g, rs).edges[(s, t)] == EdgeData(first.relationType, first.confidence, PairCount(rs, s, t))
  {
    AddEdgesShape(g, rs);
    forall s, t ensures (s, t) in AddEdges(g, rs).edges <==>
      (s, t) in g.edges || (s in g.nodes && t in g.nodes && PairCount(rs, s, t) > 0)
    {
      AddEdgesHas(g, rs, s, t);
    }
    forall s, t | (s, t) in g.edges
      ensures AddEdges(g, rs).edges[(s, t)] == g.edges[(s, t)].(coOccurrence := g.edges[(s, t)].coOccurrence + PairCount(rs, s, t))
    {
      AddEdgesExisting(g, rs, s, t);
    }
    forall s, t | (s, t) !in g.edges && (s, t) in AddEdges(g, rs).edges
      ensures (s, t) in KeysOf(rs, Endpoints) &&
        var first := FirstWithKey(rs, Endpoints, (s, t));
        AddEdges(g, rs).edges[(s, t)] == EdgeData(first.relationType, first.confidence, PairCount(rs, s, t))
    {
      AddEdgesFresh(g, rs, s, t);
    }
  }

  lemma {:induction false} PairCountPositive(rs: seq<Relationship>, s: string, t: string)
    requires (s, t) in KeysOf(rs, Endpoints)
    ensures PairCount(rs, s, t) > 0
    decreases |rs|
  {
    InitLast(rs);
    KeysOfSnoc(Init(rs), Last(rs), Endpoints);
    if Endpoints(Last(rs)) != (s, t) {
      PairCountPositive(Init(rs), s, t);
    }
  }

  // ---------------------------------------------------------------------
  // The index loop of build_from_memories
  // ---------------------------------------------------------------------

  /** Appends `id` under the name of each entity, in order. */
  function IndexEntities(idx: Index, id: string, es: seq<Entity>): Index
    decreases |es|
  {
    if es == [] then idx else
    var m := IndexEntities(idx, id, Init(es));
    m[Last(es).name := Lookup(m, Last(es).name) + [id]]
  }

  /** The inner loop of `build_from_memories`: file the memory id under each entity's name. */
  method IndexMemory(index: Index, memId: string, entities: seq<Entity>) returns (r: Index)
    ensures r == IndexEntities(index, memId, entities)
  {
    r := index;
    var j := 0;
    while j < |entities|
      invariant 0 <= j <= |entities|
      invariant r == IndexEntities(index, memId, entities[..j])
    {
      assert Init(entities[..j + 1]) == entities[..j] && Last(entities[..j + 1]) == entities[j];
      var name := entities[j].name;
      if name !in r {
        r := r[name := []];
      }
      r := r[name := r[name] + [memId]];
      j := j + 1;
    }
    assert entities[..j] == entities;
  }

  function IndexRows(idx: Index, rows: seq<StoredMemory>, find: Finder): Index
    decreases |rows|
  {
    if rows == [] then idx else
    var r := Last(rows);
    IndexEntities(IndexRows(idx, Init(rows), find), r.id, EntitiesFromMemory(r.document, r.metadata, find).0)
  }

  function RowsEntities(rows: seq<StoredMemory>, find: Finder): seq<Entity>
    decreases |rows|
  {
    if rows == [] then [] else
    RowsEntities(Init(rows), find) + EntitiesFromMemory(Last(rows).document, Last(rows).metadata, find).0
  }

  function RowsRelationships(rows: seq<StoredMemory>, find: Finder): seq<Relationship>
    decreases |rows|
  {
    if rows == [] then [] else
    RowsRelationships(Init(rows), find) + EntitiesFromMemory(Last(rows).document, Last(rows).metadata, find).1
  }

  /** The graph a fresh object holds after `build_from_memories` over `rows`. */
  function BuiltGraph(rows: seq<StoredMemory>, find: Finder): DiGraph
  {
    AddEdges(AddNodes(EmptyGraph, IndexRows(map[], rows, find), RowsEntities(rows, find)), RowsRelationships(rows, find))
  }

  /** Indexing appends to what the index already held. */
  lemma {:induction false} IndexEntitiesAppends(idx: Index, id: string, es: seq<Entity>, n: string)
    ensures Lookup(IndexEntities(idx, id, es), n) == Lookup(idx, n) + Lookup(IndexEntities(map[], id, es), n)
    ensures n in KeysOf(es, EntityName) ==> |Lookup(IndexEntities(map[], id, es), n)| >= 1
    decreases |es|
  {
    if es != [] {
      IndexEntitiesAppends(idx, id, Init(es), n);
      InitLast(es);
      KeysOfSnoc(Init(es), Last(es), EntityName);
    }
  }

  /**
    Building again on the same object does not start over: each name's
    memory ids are appended to those already indexed.
  */
  lemma {:induction false} IndexRowsAppends(idx: Index, rows: seq<StoredMemory>, find: Finder, n: string)
    ensures Lookup(IndexRows(idx, rows, find), n) == Lookup(idx, n) + Lookup(IndexRows(map[], rows, find), n)
    decreases |rows|
  {
    if rows != [] {
      var r := Last(rows);
      var es := EntitiesFromMemory(r.document, r.metadata, find).0;
      IndexRowsAppends(idx, Init(rows), find, n);
      IndexEntitiesShift(idx, IndexRows(idx, Init(rows), find), IndexRows(map[], Init(rows), find), r.id, es, n);
    }
  }

  /** One memory's step of `IndexRowsAppends`: filing the same entities keeps an index `idx` ahead of another. */
  lemma IndexEntitiesShift(idx: Index, a: Index, b: Index, id: string, es: seq<Entity>, n: string)
    requires Lookup(a, n) == Lookup(idx, n) + Lookup(b, n)
    ensures Lookup(IndexEntities(a, id, es), n) == Lookup(idx, n) + Lookup(IndexEntities(b, id, es), n)
  {
    IndexEntitiesAppends(a, id, es, n);
    IndexEntitiesAppends(b, id, es, n);
  }

  /** Every name of an extracted entity has at least one memory id indexed. */
  lemma {:induction false} IndexRowsCovers(idx: Index, rows: seq<StoredMemory>, find: Finder, n: string)
    requires n in KeysOf(RowsEntities(rows, find), EntityName)
    ensures |Lookup(IndexRows(idx, rows, find), n)| >= 1
    decreases |rows|
  {
    var r := Last(rows);
    var es := EntitiesFromMemory(r.document, r.metadata, find).0;
    KeysOfAppend(RowsEntities(Init(rows), find), es, EntityName);
    IndexEntitiesAppends(IndexRows(idx, Init(rows), find), r.id, es, n);
    if n in KeysOf(RowsEntities(Init(rows), find), EntityName) {
      IndexRowsCovers(idx, Init(rows), find, n);
    }
  }

  lemma KeysOfAppend<T, K>(a: seq<T>, b: seq<T>, key: T -> K)
    ensures KeysOf(a + b, key) == KeysOf(a, key) + KeysOf(b, key)
  {
    assert forall x :: x in a + b <==> x in a || x in b;
  }

  /**
    Building twice from the same rows on one object indexes every memory id
    twice: rebuild idempotence holds only for a fresh object.
  */
  lemma RebuildDoublesIndex(rows: seq<StoredMemory>, find: Finder, n: string)
    ensures var once := IndexRows(map[], rows, find);
      Lookup(IndexRows(once, rows, find), n) == Lookup(once, n) + Lookup(once, n)
  {
    IndexRowsAppends(IndexRows(map[], rows, find), rows, find, n);
  }

  /** After a fresh build every node has been accessed at least once. */
  lemma FreshBuildAccessCounts(rows: seq<StoredMemory>, find: Finder)
    ensures Wf(BuiltGraph(rows, find))
    ensures forall n :: n in BuiltGraph(rows, find).nodes ==> BuiltGraph(rows, find).nodes[n].accessCount >= 1
  {
    var idx := IndexRows(map[], rows, find);
    var es := RowsEntities(rows, find);
    AddNodesShape(EmptyGraph, idx, es);
    AddEdgesShape(AddNodes(EmptyGraph, idx, es), RowsRelationships(rows, find));
    forall n | n in BuiltGraph(rows, find).nodes ensures BuiltGraph(rows, find).nodes[n].accessCount >= 1 {
      AddNodesFresh(EmptyGraph, idx, es, n);
      IndexRowsCovers(map[], rows, find, n);
      FirstWithKeyCounted(es, n);
    }
  }


  // ---------------------------------------------------------------------
  // Neighbourhoods
  // ---------------------------------------------------------------------

  predicate Adjacent(g: DiGraph, a: string, b: string)
  {
    (a, b) in g.edges || (b, a) in g.edges
  }

  /** `successors(v)` together with `predecessors(v)`. */
  function Neighbors(g: DiGraph, v: string): set<string>
  {
    set u | u in g.nodes && Adjacent(g, v, u)
  }

  /** `p` is an undirected walk from `origin` through nodes of `g`. */
  ghost predicate Walk(g: DiGraph, origin: string, p: seq<string>)
  {
    |p| >= 1 && p[0] == origin &&
    (forall i :: 1 <= i < |p| ==> p[i] in g.nodes) &&
    (forall i :: 0 <= i < |p| - 1 ==> Adjacent(g, p[i], p[i + 1]))
  }

  /** The nodes a walk of at most `k` steps from `origin` ends at. */
  ghost function Ball(g: DiGraph, origin: string, k: nat): set<string>
  {
    set v | v in g.nodes.Keys + {origin} && exists p :: Walk(g, origin, p) && |p| <= k + 1 && p[|p| - 1] == v
  }

  /** What `get_related_entities(origin, max_hops)` returns, as a set. */
  ghost function Related(g: DiGraph, origin: string, maxHops: int): set<string>
  {
    if origin !in g.nodes then {} else Ball(g, origin, if maxHops < 0 then 0 else maxHops) - {origin}
  }

  lemma BallOrigin(g: DiGraph, origin: string, k: nat)
    ensures origin in Ball(g, origin, k)
  {
    assert Walk(g, origin, [origin]);
  }

  lemma BallMono(g: DiGraph, origin: string, i: nat, j: nat)
    requires i <= j
    ensures Ball(g, origin, i) <= Ball(g, origin, j)
  {
  }

  lemma BallStep(g: DiGraph, origin: string, k: nat, w: string, u: string)
    requires w in Ball(g, origin, k) && u in g.nodes && Adjacent(g, w, u)
    ensures u in Ball(g, origin, k + 1)
  {
    var p :| Walk(g, origin, p) && |p| <= k + 1 && p[|p| - 1] == w;
    assert Walk(g, origin, p + [u]);
  }

  /** A node first reached in `k + 1` steps is next to a node reached in `k`. */
  lemma BallPred(g: DiGraph, origin: string, k: nat, u: string)
    requires u in Ball(g, origin, k + 1) && u !in Ball(g, origin, k)
    ensures u in g.nodes
    ensures exists w :: w in Ball(g, origin, k) && Adjacent(g, w, u)
  {
    var p :| Walk(g, origin, p) && |p| <= k + 2 && p[|p| - 1] == u;
    assert |p| == k + 2;
    var q := p[..|p| - 1];
    assert Walk(g, origin, q);
    assert q[|q| - 1] in Ball(g, origin, k);
    assert Adjacent(g, q[|q| - 1], u);
  }

  /** Without hops, or from a name that is not a node, nothing is related. */
  lemma RelatedEmpty(g: DiGraph, origin: string, maxHops: int)
    requires origin !in g.nodes || maxHops <= 0
    ensures Related(g, origin, maxHops) == {}
  {
    if origin in g.nodes {
      forall v | v in Ball(g, origin, 0) ensures v == origin {
        var p :| Walk(g, origin, p) && |p| <= 1 && p[|p| - 1] == v;
      }
    }
  }

  /** The related set never holds the origin and holds only nodes. */
  lemma RelatedAreNodes(g: DiGraph, origin: string, maxHops: int)
    ensures origin !in Related(g, origin, maxHops)
    ensures Related(g, origin, maxHops) <= g.nodes.Keys
  {
  }

  lemma SetMinusGrow(a: set<string>, v: set<string>, x: string)
    requires x in a && x !in v
    ensures |a - (v + {x})| == |a - v| - 1
  {
    assert a - v == (a - (v + {x})) + {x};
  }

  /** The nodes waiting in the queue. */
  ghost function QueueNodes(q: seq<(string, nat)>): set<string>
  {
    if q == [] then {} else {q[0].0} + QueueNodes(q[1..])
  }

  lemma {:induction false} QueueNodesAppend(q: seq<(string, nat)>, x: (string, nat))
    ensures QueueNodes(q + [x]) == QueueNodes(q) + {x.0}
  {
    if q != [] {
      assert (q + [x])[1..] == q[1..] + [x];
      QueueNodesAppend(q[1..], x);
    }
  }

  lemma {:induction false} QueueNodesIndex(q: seq<(string, nat)>, v: string)
    requires v in QueueNodes(q)
    ensures exists i :: 0 <= i < |q| && q[i].0 == v
  {
    if q[0].0 != v {
      QueueNodesIndex(q[1..], v);
      var i :| 0 <= i < |q[1..]| && q[1..][i].0 == v;
      assert q[i + 1].0 == v;
    }
  }

  /** What the search knows of every visited node: its recorded depth is its exact distance, at most `M`. */
  ghost predicate Layered(g: DiGraph, origin: string, M: nat, visited: set<string>, depth: map<string, nat>)
  {
    origin in visited && visited <= g.nodes.Keys && depth.Keys == visited &&
    forall v :: v in visited ==>
      depth[v] <= M && v in Ball(g, origin, depth[v]) && (depth[v] > 0 ==> v !in Ball(g, origin, depth[v] - 1))
  }

  /** Queue entries are visited nodes with their depth, in non-decreasing depth. */
  ghost predicate QueueOk(queue: seq<(string, nat)>, depth: map<string, nat>)
  {
    (forall i :: 0 <= i < |queue| ==> queue[i].0 in depth && queue[i].1 == depth[queue[i].0]) &&
    (forall i, j :: 0 <= i < j < |queue| ==> queue[i].1 <= queue[j].1)
  }

  /** Every queue entry is `hops` or `hops + 1` steps away. */
  ghost predicate QueueWithin(queue: seq<(string, nat)>, hops: nat)
  {
    forall i :: 0 <= i < |queue| ==> hops <= queue[i].1 <= hops + 1
  }

  /** Every visited node that has left the queue, except `current`, had its neighbours visited when below the limit. */
  ghost predicate Expanded(g: DiGraph, maxHops: int, visited: set<string>, depth: map<string, nat>,
                           queue: seq<(string, nat)>, current: Option<string>)
    requires depth.Keys == visited
  {
    forall v :: v in visited && Some(v) != current && v !in QueueNodes(queue) && depth[v] < maxHops ==>
      Neighbors(g, v) <= visited
  }

  lemma {:induction false} DepthIsDistance(g: DiGraph, origin: string, v: string, d: nat, k: nat)
    requires v in Ball(g, origin, k)
    requires d > 0 ==> v !in Ball(g, origin, d - 1)
    ensures d <= k
  {
  }

  /** A node first reached from a node at depth `hops`, once all of `Ball(hops)` is visited, is at distance `hops + 1`. */
  lemma Admit(g: DiGraph, origin: string, M: nat, visited: set<string>, depth: map<string, nat>,
              current: string, hops: nat, u: string)
    requires Layered(g, origin, M, visited, depth) && hops < M
    requires current in visited && depth[current] == hops && Ball(g, origin, hops) <= visited
    requires u in Neighbors(g, current) && u !in visited
    ensures Layered(g, origin, M, visited + {u}, depth[u := hops + 1])
  {
    var d := depth[u := hops + 1];
    forall v | v in visited + {u}
      ensures d[v] <= M && v in Ball(g, origin, d[v]) && (d[v] > 0 ==> v !in Ball(g, origin, d[v] - 1))
    {
      if v == u {
        BallStep(g, origin, hops, current, u);
        assert u !in Ball(g, origin, hops);
      } else {
        assert d[v] == depth[v];
      }
    }
    assert d.Keys == visited + {u};
  }

  /**
    When every node of depth `hops` has left the queue and been expanded,
    every node within `hops + 1` steps has been visited.
  */
  lemma NextLayer(g: DiGraph, origin: string, M: nat, maxHops: int, visited: set<string>, depth: map<string, nat>,
                  queue: seq<(string, nat)>, hops: nat)
    requires Layered(g, origin, M, visited, depth) && QueueOk(queue, depth)
    requires Ball(g, origin, hops) <= visited && hops < maxHops
    requires Expanded(g, maxHops, visited, depth, queue, None)
    requires queue != [] && queue[0].1 == hops + 1
    ensures Ball(g, origin, hops + 1) <= visited
  {
    forall u | u in Ball(g, origin, hops + 1) ensures u in visited {
      if u !in Ball(g, origin, hops) {
        BallPred(g, origin, hops, u);
        var w :| w in Ball(g, origin, hops) && Adjacent(g, w, u);
        DepthIsDistance(g, origin, w, depth[w], hops);
        if w in QueueNodes(queue) {
          QueueNodesIndex(queue, w);
        }
        assert u in Neighbors(g, w);
      }
    }
  }

  /** The inner loop of `get_related_entities`: record and queue every unvisited neighbour of `current`. */
  method VisitNeighbors(g: DiGraph, ghost origin: string, ghost M: nat, maxHops: int, current: string, hops: nat,
                        visited0: set<string>, queue0: seq<(string, nat)>, ghost depth0: map<string, nat>,
                        related0: set<string>)
    returns (visited: set<string>, queue: seq<(string, nat)>, ghost depth: map<string, nat>, related: set<string>)
    requires Expanding(g, origin, M, maxHops, visited0, queue0, depth0, related0, current, hops, Neighbors(g, current))
    ensures Expanding(g, origin, M, maxHops, visited, queue, depth, related, current, hops, {})
    ensures |g.nodes.Keys - visited| + |queue| == |g.nodes.Keys - visited0| + |queue0|
  {
    visited, queue, depth, related := visited0, queue0, depth0, related0;
    var neighbors := Neighbors(g, current);
    while neighbors != {}
      invariant Expanding(g, origin, M, maxHops, visited, queue, depth, related, current, hops, neighbors)
      invariant |g.nodes.Keys - visited| + |queue| == |g.nodes.Keys - visited0| + |queue0|
      decreases |neighbors|
    {
      var neighbor :| neighbor in neighbors;
      if neighbor !in visited {
        SearchAdmit(g, origin, M, maxHops, visited, queue, depth, related, current, hops, neighbors, neighbor);
        SetMinusGrow(g.nodes.Keys, visited, neighbor);
        visited := visited + {neighbor};
        related := related + {neighbor};
        queue := queue + [(neighbor, hops + 1)];
        depth := depth[neighbor := hops + 1];
      } else {
        SearchPass(g, origin, M, maxHops, visited, queue, depth, related, current, hops, neighbors, neighbor);
      }
      neighbors := neighbors - {neighbor};
    }
  }

  /** The state of the search between two iterations of its outer loop. */
  ghost predicate Between(g: DiGraph, origin: string, M: nat, maxHops: int, visited: set<string>,
                          queue: seq<(string, nat)>, depth: map<string, nat>, related: set<string>)
  {
    M == (if maxHops < 0 then 0 else maxHops) &&
    Layered(g, origin, M, visited, depth) && related == visited - {origin} &&
    QueueOk(queue, depth) && (queue != [] ==> queue[|queue| - 1].1 <= queue[0].1 + 1) &&
    (queue != [] ==> Ball(g, origin, queue[0].1) <= visited) &&
    Expanded(g, maxHops, visited, depth, queue, None)
  }

  /** The state of the search while the neighbours of `current` are examined. */
  ghost predicate Expanding(g: DiGraph, origin: string, M: nat, maxHops: int, visited: set<string>,
                            queue: seq<(string, nat)>, depth: map<string, nat>, related: set<string>,
                            current: string, hops: nat, neighbors: set<string>)
  {
    M == (if maxHops < 0 then 0 else maxHops) && hops < maxHops &&
    neighbors <= Neighbors(g, current) && Neighbors(g, current) - neighbors <= visited &&
    Layered(g, origin, M, visited, depth) && related == visited - {origin} &&
    current in visited && depth[current] == hops && Ball(g, origin, hops) <= visited &&
    QueueOk(queue, depth) && QueueWithin(queue, hops) &&
    Expanded(g, maxHops, visited, depth, queue, Some(current))
  }

  lemma SearchStart(g: DiGraph, origin: string, maxHops: int)
    requires origin in g.nodes
    ensures Between(g, origin, if maxHops < 0 then 0 else maxHops, maxHops, {origin}, [(origin, 0)], map[origin := 0], {})
  {
    BallOrigin(g, origin, 0);
  }

  /** Popping a node at the hop limit leaves its neighbours unexamined. */
  lemma SearchSkip(g: DiGraph, origin: string, M: nat, maxHops: int, visited: set<string>,
                   queue: seq<(string, nat)>, depth: map<string, nat>, related: set<string>)
    requires Between(g, origin, M, maxHops, visited, queue, depth, related)
    requires queue != [] && queue[0].1 >= maxHops
    ensures Between(g, origin, M, maxHops, visited, queue[1..], depth, related)
  {
    var rest := queue[1..];
    if rest != [] {
      assert queue[1] == rest[0];
      assert depth[queue[1].0] <= M;
    }
    forall v | v in visited && v !in QueueNodes(rest) && depth[v] < maxHops
      ensures Neighbors(g, v) <= visited
    {
      assert v !in QueueNodes(queue);
    }
  }

  /** Popping a node below the hop limit starts the examination of its neighbours. */
  lemma SearchEnter(g: DiGraph, origin: string, M: nat, maxHops: int, visited: set<string>,
                    queue: seq<(string, nat)>, depth: map<string, nat>, related: set<string>)
    requires Between(g, origin, M, maxHops, visited, queue, depth, related)
    requires queue != [] && queue[0].1 < maxHops
    ensures Expanding(g, origin, M, maxHops, visited, queue[1..], depth, related,
                      queue[0].0, queue[0].1, Neighbors(g, queue[0].0))
  {
    EnterQueue(queue, depth);
    EnterExpanded(g, maxHops, visited, depth, queue);
  }

  lemma EnterQueue(queue: seq<(string, nat)>, depth: map<string, nat>)
    requires QueueOk(queue, depth) && queue != [] && queue[|queue| - 1].1 <= queue[0].1 + 1
    ensures QueueOk(queue[1..], depth) && QueueWithin(queue[1..], queue[0].1)
  {
    var rest := queue[1..];
    forall i | 0 <= i < |rest| ensures queue[0].1 <= rest[i].1 <= queue[0].1 + 1 {
      assert rest[i] == queue[i + 1];
      assert queue[i + 1].1 <= queue[|queue| - 1].1;
    }
  }

  lemma EnterExpanded(g: DiGraph, maxHops: int, visited: set<string>, depth: map<string, nat>, queue: seq<(string, nat)>)
    requires depth.Keys == visited && queue != []
    requires Expanded(g, maxHops, visited, depth, queue, None)
    ensures Expanded(g, maxHops, visited, depth, queue[1..], Some(queue[0].0))
  {
    forall v | v in visited && Some(v) != Some(queue[0].0) && v !in QueueNodes(queue[1..]) && depth[v] < maxHops
      ensures Neighbors(g, v) <= visited
    {
      assert v !in QueueNodes(queue);
    }
  }

  /** Examining one neighbour: an unvisited one is recorded and queued one hop further. */
  lemma SearchAdmit(g: DiGraph, origin: string, M: nat, maxHops: int, visited: set<string>,
                    queue: seq<(string, nat)>, depth: map<string, nat>, related: set<string>,
                    current: string, hops: nat, neighbors: set<string>, u: string)
    requires Expanding(g, origin, M, maxHops, visited, queue, depth, related, current, hops, neighbors)
    requires u in neighbors && u !in visited
    ensures Expanding(g, origin, M, maxHops, visited + {u}, queue + [(u, hops + 1)], depth[u := hops + 1],
                      related + {u}, current, hops, neighbors - {u})
  {
    Admit(g, origin, M, visited, depth, current, hops, u);
    AdmitQueue(queue, depth, hops, u);
    AdmitExpanded(g, maxHops, visited, depth, queue, current, hops, u);
  }

  lemma AdmitQueue(queue: seq<(string, nat)>, depth: map<string, nat>, hops: nat, u: string)
    requires QueueOk(queue, depth) && QueueWithin(queue, hops)
    requires u !in depth
    ensures QueueOk(queue + [(u, hops + 1)], depth[u := hops + 1])
    ensures QueueWithin(queue + [(u, hops + 1)], hops)
  {
    var d := depth[u := hops + 1];
    var q := queue + [(u, hops + 1)];
    forall i | 0 <= i < |q| ensures q[i].0 in d && q[i].1 == d[q[i].0] {
      if i < |queue| {
        assert q[i] == queue[i];
      }
    }
  }

  lemma AdmitExpanded(g: DiGraph, maxHops: int, visited: set<string>, depth: map<string, nat>,
                      queue: seq<(string, nat)>, current: string, hops: nat, u: string)
    requires depth.Keys == visited && u !in visited
    requires Expanded(g, maxHops, visited, depth, queue, Some(current))
    ensures Expanded(g, maxHops, visited + {u}, depth[u := hops + 1], queue + [(u, hops + 1)], Some(current))
  {
    var d := depth[u := hops + 1];
    var q := queue + [(u, hops + 1)];
    QueueNodesAppend(queue, (u, hops + 1));
    forall v | v in visited + {u} && Some(v) != Some(current) && v !in QueueNodes(q) && d[v] < maxHops
      ensures Neighbors(g, v) <= visited + {u}
    {
      assert d[v] == depth[v];
    }
  }

  lemma SearchPass(g: DiGraph, origin: string, M: nat, maxHops: int, visited: set<string>,
                   queue: seq<(string, nat)>, depth: map<string, nat>, related: set<string>,
                   current: string, hops: nat, neighbors: set<string>, u: string)
    requires Expanding(g, origin, M, maxHops, visited, queue, depth, related, current, hops, neighbors)
    requires u in neighbors && u in visited
    ensures Expanding(g, origin, M, maxHops, visited, queue, depth, related, current, hops, neighbors - {u})
  {
  }

  /** Once every neighbour is examined, the outer loop's state holds again. */
  lemma SearchLeave(g: DiGraph, origin: string, M: nat, maxHops: int, visited: set<string>,
                    queue: seq<(string, nat)>, depth: map<string, nat>, related: set<string>,
                    current: string, hops: nat)
    requires Expanding(g, origin, M, maxHops, visited, queue, depth, related, current, hops, {})
    ensures Between(g, origin, M, maxHops, visited, queue, depth, related)
  {
    if queue != [] {
      assert hops <= queue[0].1 && queue[|queue| - 1].1 <= hops + 1;
    }
    if queue != [] && queue[0].1 == hops + 1 {
      NextLayer(g, origin, M, maxHops, visited, depth, queue, hops);
    }
  }

  /** When the queue runs dry, the visited set is the ball of radius `M`. */
  lemma SearchEnd(g: DiGraph, origin: string, M: nat, maxHops: int, visited: set<string>,
                  depth: map<string, nat>, related: set<string>)
    requires Between(g, origin, M, maxHops, visited, [], depth, related)
    ensures related == Related(g, origin, maxHops)
  {
    SearchResult(g, origin, M, maxHops, visited, depth);
  }

  /** With the queue empty, every node within `M` steps has been visited. */
  lemma {:induction false} Covered(g: DiGraph, origin: string, M: nat, maxHops: int, visited: set<string>,
                                   depth: map<string, nat>, k: nat)
    requires Layered(g, origin, M, visited, depth) && M == (if maxHops < 0 then 0 else maxHops)
    requires Expanded(g, maxHops, visited, depth, [], None)
    requires k <= M
    ensures Ball(g, origin, k) <= visited
    decreases k
  {
    if k > 0 {
      Covered(g, origin, M, maxHops, visited, depth, k - 1);
      forall u | u in Ball(g, origin, k) ensures u in visited {
        if u !in Ball(g, origin, k - 1) {
          BallPred(g, origin, k - 1, u);
          var w :| w in Ball(g, origin, k - 1) && Adjacent(g, w, u);
          DepthIsDistance(g, origin, w, depth[w], k - 1);
          assert u in Neighbors(g, w);
        }
      }
    }
  }

  /** The visited set is exactly the ball of radius `M`. */
  lemma SearchResult(g: DiGraph, origin: string, M: nat, maxHops: int, visited: set<string>, depth: map<string, nat>)
    requires Layered(g, origin, M, visited, depth) && M == (if maxHops < 0 then 0 else maxHops)
    requires Expanded(g, maxHops, visited, depth, [], None)
    ensures visited == Ball(g, origin, M)
  {
    Covered(g, origin, M, maxHops, visited, depth, M);
    forall v | v in visited ensures v in Ball(g, origin, M) {
      BallMono(g, origin, depth[v], M);
    }
  }

  // ---------------------------------------------------------------------
  // Ranking by PageRank
  // ---------------------------------------------------------------------

  /** `pagerank_scores.items()`: the scored nodes, in node order. */
  function ScoredItems(order: seq<string>, pr: map<string, real>): seq<(string, real)>
    decreases |order|
  {
    if order == [] then [] else
    ScoredItems(Init(order), pr) + (if Last(order) in pr then [(Last(order), pr[Last(order)])] else [])
  }

  lemma {:induction false} ScoredItemsMembers(order: seq<string>, pr: map<string, real>)
    ensures forall x :: x in ScoredItems(order, pr) <==> x.0 in order && x.0 in pr && x.1 == pr[x.0]
    decreases |order|
  {
    if order != [] {
      ScoredItemsMembers(Init(order), pr);
      InitLast(order);
      assert forall v :: v in order <==> v in Init(order) || v == Last(order);
    }
  }

  /** The type filter of `get_top_entities`; no type given keeps every node. */
  predicate OfType(nodes: map<string, NodeData>, entityType: Option<EntityType>, n: string)
  {
    entityType.None? || (n in nodes && nodes[n].entityType == entityType)
  }

  function ScoredName(x: (string, real)): string
  {
    x.0
  }

  /** The scored nodes that pass the type filter: the candidates of `get_top_entities`. */
  ghost function TopCandidates(g: DiGraph, pr: map<string, real>, entityType: Option<EntityType>): set<string>
  {
    set n | n in pr && OfType(g.nodes, entityType, n)
  }

  /**
    The ranking, cut at `limit` as Python slices: sorted by score, kept
    entries are scored candidates that outscore every dropped one, names are
    distinct, and there are `limit` of them (all the candidates when fewer),
    or all but the last `-limit` for a negative limit.
  */
  lemma TopEntitiesFacts(g: DiGraph, pr: map<string, real>, entityType: Option<EntityType>,
                         filtered: seq<(string, real)>, sorted: seq<(string, real)>, limit: int)
    requires Wf(g) && pr.Keys <= g.nodes.Keys
    requires filtered == Filter(ScoredItems(g.order, pr), (x: (string, real)) => OfType(g.nodes, entityType, x.0))
    requires sorted == SortDesc(filtered, ByKey((x: (string, real)) => x.1))
    ensures forall i, j :: 0 <= i < j < |PyPrefix(sorted, limit)| ==> PyPrefix(sorted, limit)[i].0 != PyPrefix(sorted, limit)[j].0
    ensures var c := |TopCandidates(g, pr, entityType)|;
      |PyPrefix(sorted, limit)| == if limit >= 0 then (if limit <= c then limit else c)
                                   else (if c + limit >= 0 then c + limit else 0)
    ensures forall i, j :: 0 <= i < j < |PyPrefix(sorted, limit)| ==> PyPrefix(sorted, limit)[i].1 >= PyPrefix(sorted, limit)[j].1
    ensures forall x :: x in PyPrefix(sorted, limit) ==> x.0 in pr && x.1 == pr[x.0] && OfType(g.nodes, entityType, x.0)
    ensures forall n :: n in g.order && n in pr && OfType(g.nodes, entityType, n) && (n, pr[n]) !in PyPrefix(sorted, limit) ==>
      forall x :: x in PyPrefix(sorted, limit) ==> x.1 >= pr[n]
  {
    TopEntitiesSorted(filtered, sorted, limit);
    TopEntitiesFrom(g, pr, entityType, filtered, sorted, limit);
    TopEntitiesRanked(g, pr, entityType, filtered, sorted, limit);
    TopEntitiesShape(g, pr, entityType, filtered, sorted, limit);
  }

  lemma TopEntitiesSorted(filtered: seq<(string, real)>, sorted: seq<(string, real)>, limit: int)
    requires sorted == SortDesc(filtered, ByKey((x: (string, real)) => x.1))
    ensures multiset(sorted) == multiset(filtered)
    ensures forall i, j :: 0 <= i < j < |PyPrefix(sorted, limit)| ==> PyPrefix(sorted, limit)[i].1 >= PyPrefix(sorted, limit)[j].1
  {
    SortByKeyProperties(filtered, (x: (string, real)) => x.1);
  }

  /** The cut keeps distinct names, as many as the slice of the candidates allows. */
  lemma TopEntitiesShape(g: DiGraph, pr: map<string, real>, entityType: Option<EntityType>,
                         filtered: seq<(string, real)>, sorted: seq<(string, real)>, limit: int)
    requires Wf(g) && pr.Keys <= g.nodes.Keys
    requires filtered == Filter(ScoredItems(g.order, pr), (x: (string, real)) => OfType(g.nodes, entityType, x.0))
    requires multiset(sorted) == multiset(filtered)
    ensures forall i, j :: 0 <= i < j < |PyPrefix(sorted, limit)| ==> PyPrefix(sorted, limit)[i].0 != PyPrefix(sorted, limit)[j].0
    ensures var c := |TopCandidates(g, pr, entityType)|;
      |PyPrefix(sorted, limit)| == if limit >= 0 then (if limit <= c then limit else c)
                                   else (if c + limit >= 0 then c + limit else 0)
  {
    TopEntitiesCount(g, pr, entityType, filtered);
    assert |sorted| == |multiset(sorted)| == |multiset(filtered)| == |filtered|;
    DistinctByPerm(filtered, sorted, ScoredName);
    DistinctByTake(sorted, ScoredName, |PyPrefix(sorted, limit)|);
  }

  /** The scored nodes of the requested type, by score descending, cut at `limit`. */
  function TopEntities(g: DiGraph, pr: map<string, real>, entityType: Option<EntityType>, limit: int): seq<(string, real)>
  {
    var filtered := Filter(ScoredItems(g.order, pr), (x: (string, real)) => OfType(g.nodes, entityType, x.0));
    PyPrefix(SortDesc(filtered, ByKey((x: (string, real)) => x.1)), limit)
  }

  /** The ranking of the scores of a well-formed graph, in the terms of its scores alone. */
  lemma TopEntitiesSpec(g: DiGraph, pr: map<string, real>, entityType: Option<EntityType>, limit: int)
    requires Wf(g) && pr.Keys <= g.nodes.Keys
    ensures forall i, j :: 0 <= i < j < |TopEntities(g, pr, entityType, limit)| ==>
      TopEntities(g, pr, entityType, limit)[i].1 >= TopEntities(g, pr, entityType, limit)[j].1 &&
      TopEntities(g, pr, entityType, limit)[i].0 != TopEntities(g, pr, entityType, limit)[j].0
    ensures forall x :: x in TopEntities(g, pr, entityType, limit) ==> x.0 in pr && x.1 == pr[x.0] && OfType(g.nodes, entityType, x.0)
    ensures forall n :: n in pr && OfType(g.nodes, entityType, n) && (n, pr[n]) !in TopEntities(g, pr, entityType, limit) ==>
      forall x :: x in TopEntities(g, pr, entityType, limit) ==> x.1 >= pr[n]
  {
    var filtered := Filter(ScoredItems(g.order, pr), (x: (string, real)) => OfType(g.nodes, entityType, x.0));
    var sorted := SortDesc(filtered, ByKey((x: (string, real)) => x.1));
    TopEntitiesFacts(g, pr, entityType, filtered, sorted, limit);
    assert forall n :: n in pr ==> n in g.order;
  }

  /** How many entries the ranking keeps, counted over the scores alone. */
  lemma TopEntitiesSize(g: DiGraph, pr: map<string, real>, entityType: Option<EntityType>, limit: int)
    requires Wf(g) && pr.Keys <= g.nodes.Keys
    ensures var r, c := TopEntities(g, pr, entityType, limit), |TopCandidates(g, pr, entityType)|;
      |r| == if limit >= 0 then (if limit <= c then limit else c) else (if c + limit >= 0 then c + limit else 0)
  {
    var filtered := Filter(ScoredItems(g.order, pr), (x: (string, real)) => OfType(g.nodes, entityType, x.0));
    var sorted := SortDesc(filtered, ByKey((x: (string, real)) => x.1));
    TopEntitiesSorted(filtered, sorted, limit);
    TopEntitiesShape(g, pr, entityType, filtered, sorted, limit);
  }

  /** The filtered items name each candidate once. */
  lemma TopEntitiesCount(g: DiGraph, pr: map<string, real>, entityType: Option<EntityType>,
                         filtered: seq<(string, real)>)
    requires Wf(g) && pr.Keys <= g.nodes.Keys
    requires filtered == Filter(ScoredItems(g.order, pr), (x: (string, real)) => OfType(g.nodes, entityType, x.0))
    ensures DistinctBy(filtered, ScoredName)
    ensures |filtered| == |TopCandidates(g, pr, entityType)|
  {
    var p := (x: (string, real)) => OfType(g.nodes, entityType, x.0);
    ScoredItemsDistinct(g.order, pr);
    DistinctByFilter(ScoredItems(g.order, pr), p, ScoredName);
    FilterMembers(ScoredItems(g.order, pr), p);
    ScoredItemsMembers(g.order, pr);
    assert KeysOf(filtered, ScoredName) == TopCandidates(g, pr, entityType) by {
      forall n | n in TopCandidates(g, pr, entityType) ensures n in KeysOf(filtered, ScoredName) {
        assert n in g.order;
        assert (n, pr[n]) in filtered;
      }
    }
    DistinctByCard(filtered, ScoredName);
  }

  /** Nodes listed once each give scored items with distinct names. */
  lemma {:induction false} ScoredItemsDistinct(order: seq<string>, pr: map<string, real>)
    requires forall i, j :: 0 <= i < j < |order| ==> order[i] != order[j]
    ensures DistinctBy(ScoredItems(order, pr), ScoredName)
    decreases |order|
  {
    if order != [] {
      var q, v := Init(order), Last(order);
      InitLast(order);
      assert forall i, j :: 0 <= i < j < |q| ==> q[i] != q[j] by {
        forall i, j | 0 <= i < j < |q| ensures q[i] != q[j] {
          assert q[i] == order[i] && q[j] == order[j];
        }
      }
      ScoredItemsDistinct(q, pr);
      ScoredItemsMembers(q, pr);
      assert v !in q by {
        forall k | 0 <= k < |q| ensures q[k] != v {
          assert q[k] == order[k] && order[|order| - 1] == v;
        }
      }
      if v in pr {
        DistinctByConcat(ScoredItems(q, pr), [(v, pr[v])], ScoredName);
      }
    }
  }

  lemma TopEntitiesFrom(g: DiGraph, pr: map<string, real>, entityType: Option<EntityType>,
                        filtered: seq<(string, real)>, sorted: seq<(string, real)>, limit: int)
    requires filtered == Filter(ScoredItems(g.order, pr), (x: (string, real)) => OfType(g.nodes, entityType, x.0))
    requires multiset(sorted) == multiset(filtered)
    ensures forall x :: x in PyPrefix(sorted, limit) ==> x.0 in pr && x.1 == pr[x.0] && OfType(g.nodes, entityType, x.0)
  {
    FilterMembers(ScoredItems(g.order, pr), (x: (string, real)) => OfType(g.nodes, entityType, x.0));
    ScoredItemsMembers(g.order, pr);
    forall x | x in PyPrefix(sorted, limit) ensures x in filtered {
      assert x in sorted;
      assert x in multiset(sorted);
    }
  }

  lemma TopEntitiesRanked(g: DiGraph, pr: map<string, real>, entityType: Option<EntityType>,
                          filtered: seq<(string, real)>, sorted: seq<(string, real)>, limit: int)
    requires filtered == Filter(ScoredItems(g.order, pr), (x: (string, real)) => OfType(g.nodes, entityType, x.0))
    requires sorted == SortDesc(filtered, ByKey((x: (string, real)) => x.1))
    ensures forall n :: n in g.order && n in pr && OfType(g.nodes, entityType, n) && (n, pr[n]) !in PyPrefix(sorted, limit) ==>
      forall x :: x in PyPrefix(sorted, limit) ==> x.1 >= pr[n]
  {
    var r := PyPrefix(sorted, limit);
    RankedSplit(filtered, sorted, limit);
    forall n | n in g.order && n in pr && OfType(g.nodes, entityType, n) && (n, pr[n]) !in r
      ensures (n, pr[n]) in sorted[|r|..]
    {
      TopEntityCandidate(g, pr, entityType, filtered, n);
      assert (n, pr[n]) in multiset(sorted);
    }
  }

  /** Every score kept by the cut is at least every score it drops. */
  lemma RankedSplit(filtered: seq<(string, real)>, sorted: seq<(string, real)>, limit: int)
    requires sorted == SortDesc(filtered, ByKey((x: (string, real)) => x.1))
    ensures sorted == PyPrefix(sorted, limit) + sorted[|PyPrefix(sorted, limit)|..]
    ensures forall x, y :: x in PyPrefix(sorted, limit) && y in sorted[|PyPrefix(sorted, limit)|..] ==> x.1 >= y.1
  {
    var key := (x: (string, real)) => x.1;
    var r := PyPrefix(sorted, limit);
    assert SortedBy(sorted, ByKey(key)) by {
      ByKeyIsTotalPreorder(key);
      SortDescSorted(filtered, ByKey(key));
    }
    SortedSplit(sorted, ByKey(key), |r|);
    assert sorted == r + sorted[|r|..];
  }

  lemma TopEntityCandidate(g: DiGraph, pr: map<string, real>, entityType: Option<EntityType>,
                           filtered: seq<(string, real)>, n: string)
    requires filtered == Filter(ScoredItems(g.order, pr), (x: (string, real)) => OfType(g.nodes, entityType, x.0))
    requires n in g.order && n in pr && OfType(g.nodes, entityType, n)
    ensures (n, pr[n]) in multiset(filtered)
  {
    FilterMembers(ScoredItems(g.order, pr), (x: (string, real)) => OfType(g.nodes, entityType, x.0));
    ScoredItemsMembers(g.order, pr);
  }

  // ---------------------------------------------------------------------
  // Statistics
  // ---------------------------------------------------------------------

  /** `type_counts` over the first nodes of `order`, untyped nodes under `None` ('unknown'). */
  function TypeCounts(g: DiGraph, order: seq<string>): map<Option<EntityType>, int>
    decreases |order|
  {
    if order == [] then map[] else
    var m := TypeCounts(g, Init(order));
    var t := if Last(order) in g.nodes then g.nodes[Last(order)].entityType else None;
    m[t := (if t in m then m[t] else 0) + 1]
  }

  lemma {:induction false} TypeCountsSum(g: DiGraph, order: seq<string>)
    ensures SumInt(TypeCounts(g, order)) == |order|
    decreases |order|
  {
    if order != [] {
      TypeCountsSum(g, Init(order));
      var t := if Last(order) in g.nodes then g.nodes[Last(order)].entityType else None;
      SumIntBump(TypeCounts(g, Init(order)), t);
    }
  }

  lemma {:induction false} DistinctCard(s: seq<string>)
    requires forall i, j :: 0 <= i < j < |s| ==> s[i] != s[j]
    ensures |set x | x in s| == |s|
    decreases |s|
  {
    if s != [] {
      DistinctCard(Init(s));
      InitLast(s);
      assert (set x | x in s) == (set x | x in Init(s)) + {Last(s)};
      assert Last(s) !in (set x | x in Init(s));
    }
  }

  /** On a well-formed graph the type counts add up to the number of nodes. */
  lemma TypeCountsTotal(g: DiGraph)
    requires Wf(g)
    ensures SumInt(TypeCounts(g, g.order)) == |g.nodes|
  {
    TypeCountsSum(g, g.order);
    DistinctCard(g.order);
    assert (set x | x in g.order) == g.nodes.Keys;
  }

  datatype Statistics =
    | EmptyGraphError
    | Statistics(nodeCount: nat, edgeCount: nat, entityTypes: map<Option<EntityType>, int>)

  // ---------------------------------------------------------------------
  // MemoryKnowledgeGraph
  // ---------------------------------------------------------------------

  class MemoryKnowledgeGraph {
    var graph: DiGraph
    var entityToMemories: Index
    var pagerankScores: map<string, real>

    ghost predicate Valid()
      reads this
    {
      Wf(graph) && pagerankScores.Keys <= graph.nodes.Keys
    }

    constructor()
      ensures Valid()
      ensures graph == EmptyGraph && entityToMemories == map[] && pagerankScores == map[]
    {
      graph := EmptyGraph;
      entityToMemories := map[];
      pagerankScores := map[];
    }

    /**
      `build_from_memories` on the rows the store returned (`None` when the
      collection could not be opened). The index and the graph grow from
      what they held; neither is reset.
    */
    method BuildFromMemories(rows: Option<seq<StoredMemory>>, find: Finder)
      requires Valid()
      modifies this
      ensures Valid()
      ensures pagerankScores == old(pagerankScores)
      ensures rows.None? || rows.value == [] ==>
        graph == old(graph) && entityToMemories == old(entityToMemories)
      ensures rows.Some? && rows.value != [] ==>
        entityToMemories == IndexRows(old(entityToMemories), rows.value, find) &&
        graph == AddEdges(AddNodes(old(graph), entityToMemories, RowsEntities(rows.value, find)),
                          RowsRelationships(rows.value, find))
    {
      if rows.None? || rows.value == [] {
        return;
      }
      var rs := rows.value;
      var index := entityToMemories;
      ghost var idx0 := index;
      var allEntities: seq<Entity> := [];
      var allRelationships: seq<Relationship> := [];
      var i := 0;
      while i < |rs|
        invariant 0 <= i <= |rs|
        invariant graph == old(graph) && entityToMemories == idx0 && pagerankScores == old(pagerankScores)
        invariant index == IndexRows(idx0, rs[..i], find)
        invariant allEntities == RowsEntities(rs[..i], find)
        invariant allRelationships == RowsRelationships(rs[..i], find)
      {
        assert Init(rs[..i + 1]) == rs[..i] && Last(rs[..i + 1]) == rs[i];
        var memId := rs[i].id;
        var entities, relationships := ExtractEntitiesFromMemory(rs[i].document, rs[i].metadata, find);
        index := IndexMemory(index, memId, entities);
        allEntities := allEntities + entities;
        allRelationships := allRelationships + relationships;
        i := i + 1;
      }
      assert rs[..i] == rs;
      entityToMemories := index;
      BuildGraphFromEntities(allEntities, allRelationships);
    }

    /** `_build_graph_from_entities`: the node loop, then the edge loop. */
    method BuildGraphFromEntities(entities: seq<Entity>, relationships: seq<Relationship>)
      requires Valid()
      modifies this
      ensures Valid()
      ensures entityToMemories == old(entityToMemories) && pagerankScores == old(pagerankScores)
      ensures graph == AddEdges(AddNodes(old(graph), entityToMemories, entities), relationships)
    {
      var index := entityToMemories;
      var g := graph;
      ghost var g0 := g;
      var i := 0;
      while i < |entities|
        invariant 0 <= i <= |entities|
        invariant g == AddNodes(g0, index, entities[..i])
      {
        assert Init(entities[..i + 1]) == entities[..i] && Last(entities[..i + 1]) == entities[i];
        var e := entities[i];
        if e.name !in g.nodes {
          g := DiGraph(g.order + [e.name],
                       g.nodes[e.name := NodeData(Some(e.entityType), e.confidence, |Lookup(index, e.name)|)],
                       g.edges);
        } else {
          var current := g.nodes[e.name];
          g := g.(nodes := g.nodes[e.name := current.(accessCount := current.accessCount + 1)]);
        }
        i := i + 1;
      }
      assert entities[..i] == entities;
      ghost var g1 := g;
      var k := 0;
      while k < |relationships|
        invariant 0 <= k <= |relationships|
        invariant g == AddEdges(g1, relationships[..k])
      {
        assert Init(relationships[..k + 1]) == relationships[..k] && Last(relationships[..k + 1]) == relationships[k];
        var r := relationships[k];
        var key := (r.source, r.target);
        if r.source in g.nodes && r.target in g.nodes {
          if key in g.edges {
            var current := g.edges[key];
            g := g.(edges := g.edges[key := current.(coOccurrence := current.coOccurrence + 1)]);
          } else {
            g := g.(edges := g.edges[key := EdgeData(r.relationType, r.confidence, 1)]);
          }
        }
        k := k + 1;
      }
      assert relationships[..k] == relationships;
      AddNodesShape(g0, index, entities);
      AddEdgesShape(g1, relationships);
      graph := g;
    }

    /**
      `compute_centrality`, keeping only what it does with the scores: an
      empty graph is skipped; PageRank's result (`None` when the solver
      raised) becomes the scores, and a failure scores every node 1.0.
    */
    method ComputeCentrality(pagerank: Option<map<string, real>>)
      requires Valid()
      requires pagerank.Some? ==> pagerank.value.Keys == graph.nodes.Keys
      modifies this
      ensures Valid()
      ensures graph == old(graph) && entityToMemories == old(entityToMemories)
      ensures old(graph).nodes == map[] ==> pagerankScores == old(pagerankScores)
      ensures old(graph).nodes != map[] && pagerank.Some? ==> pagerankScores == pagerank.value
      ensures old(graph).nodes != map[] && pagerank.None? ==>
        pagerankScores.Keys == graph.nodes.Keys && forall n :: n in pagerankScores ==> pagerankScores[n] == 1.0
    {
      if |graph.nodes| == 0 {
        return;
      }
      if pagerank.Some? {
        pagerankScores := pagerank.value;
      } else {
        pagerankScores := map n | n in graph.nodes :: 1.0;
      }
    }

    /** `get_entity_importance`: the base, boosted by ten times the entity's PageRank. */
    function GetEntityImportance(name: string, base: real): (r: real)
      reads this
      ensures name !in pagerankScores ==> r == base
      ensures name in pagerankScores ==> r == base * (1.0 + 10.0 * pagerankScores[name])
      ensures base >= 0.0 && (name in pagerankScores ==> pagerankScores[name] >= 0.0) ==> r >= base
    {
      if name !in pagerankScores then base
      else base * (1.0 + pagerankScores[name] * 10.0)
    }

    /**
      `get_top_entities`: the scored entities (of the requested type, when
      one is given), by score descending, cut at `limit`.
    */
    function GetTopEntities(entityType: Option<EntityType>, limit: int): (r: seq<(string, real)>)
      reads this
      requires Valid()
      ensures pagerankScores == map[] ==> r == []
      ensures limit >= 0 ==> |r| <= limit
      ensures forall i, j :: 0 <= i < j < |r| ==> r[i].1 >= r[j].1 && r[i].0 != r[j].0
      ensures var c := |TopCandidates(graph, pagerankScores, entityType)|;
        |r| == if limit >= 0 then (if limit <= c then limit else c) else (if c + limit >= 0 then c + limit else 0)
      ensures forall x :: x in r ==> x.0 in pagerankScores && x.1 == pagerankScores[x.0] && OfType(graph.nodes, entityType, x.0)
      ensures forall n :: n in pagerankScores && OfType(graph.nodes, entityType, n) && (n, pagerankScores[n]) !in r ==>
        forall x :: x in r ==> x.1 >= pagerankScores[n]
    {
      if pagerankScores == map[] then [] else
      TopEntitiesSpec(graph, pagerankScores, entityType, limit);
      TopEntitiesSize(graph, pagerankScores, entityType, limit);
      TopEntities(graph, pagerankScores, entityType, limit)
    }

    /**
      `get_entity_importance(name)` with the default base of 10: an entity
      without a PageRank keeps 10, and each unit of PageRank adds 100.
    */
    function DefaultEntityImportance(name: string): (r: real)
      reads this
      ensures name !in pagerankScores ==> r == DefaultBaseImportance
      ensures name in pagerankScores ==> r == DefaultBaseImportance + 100.0 * pagerankScores[name]
    {
      GetEntityImportance(name, DefaultBaseImportance)
    }

    /**
      `get_top_entities(entity_type)` with the default limit of 20: the 20
      best-scored candidates, or all of them when there are fewer.
    */
    function DefaultTopEntities(entityType: Option<EntityType>): (r: seq<(string, real)>)
      reads this
      requires Valid()
      ensures var c := |TopCandidates(graph, pagerankScores, entityType)|;
        |r| == if c <= DefaultTopLimit then c else DefaultTopLimit
      ensures forall i, j :: 0 <= i < j < |r| ==> r[i].1 >= r[j].1 && r[i].0 != r[j].0
      ensures forall x :: x in r ==> x.0 in pagerankScores && x.1 == pagerankScores[x.0] && OfType(graph.nodes, entityType, x.0)
    {
      GetTopEntities(entityType, DefaultTopLimit)
    }

    /**
      `get_related_entities`: breadth-first search over successors and
      predecessors, expanding only nodes fewer than `maxHops` steps away.
      The source returns `list(related)`, whose order is not defined.
    */
    method GetRelatedEntities(name: string, maxHops: int) returns (related: set<string>)
      requires Valid()
      ensures related == Related(graph, name, maxHops)
    {
      if name !in graph.nodes {
        return {};
      }
      var g := graph;
      ghost var M: nat := if maxHops < 0 then 0 else maxHops;
      related := {};
      var visited := {name};
      var queue: seq<(string, nat)> := [(name, 0)];
      ghost var depth: map<string, nat> := map[name := 0];
      SearchStart(g, name, maxHops);
      while queue != []
        invariant Between(g, name, M, maxHops, visited, queue, depth, related)
        decreases |g.nodes.Keys - visited| + |queue|
      {
        var current := queue[0].0;
        var hops := queue[0].1;
        if hops >= maxHops {
          SearchSkip(g, name, M, maxHops, visited, queue, depth, related);
          queue := queue[1..];
          continue;
        }
        SearchEnter(g, name, M, maxHops, visited, queue, depth, related);
        queue := queue[1..];
        visited, queue, depth, related := VisitNeighbors(g, name, M, maxHops, current, hops, visited, queue, depth, related);
        SearchLeave(g, name, M, maxHops, visited, queue, depth, related, current, hops);
      }
      SearchEnd(g, name, M, maxHops, visited, depth, related);
    }

    /**
      `get_statistics`: an error for an empty graph; otherwise the node and
      edge counts and the number of nodes of each type.
    */
    method GetStatistics() returns (r: Statistics)
      requires Valid()
      ensures graph.nodes == map[] <==> r == EmptyGraphError
      ensures r.Statistics? ==>
        r.nodeCount == |graph.nodes| && r.edgeCount == |graph.edges| &&
        r.entityTypes == TypeCounts(graph, graph.order) && SumInt(r.entityTypes) == r.nodeCount
    {
      if |graph.nodes| == 0 {
        return EmptyGraphError;
      }
      var g := graph;
      var typeCounts: map<Option<EntityType>, int> := map[];
      var i := 0;
      while i < |g.order|
        invariant 0 <= i <= |g.order|
        invariant typeCounts == TypeCounts(g, g.order[..i])
      {
        assert Init(g.order[..i + 1]) == g.order[..i] && Last(g.order[..i + 1]) == g.order[i];
        var node := g.order[i];
        var t := if node in g.nodes then g.nodes[node].entityType else None;
        typeCounts := typeCounts[t := (if t in typeCounts then typeCounts[t] else 0) + 1];
        i := i + 1;
      }
      assert g.order[..i] == g.order;
      TypeCountsTotal(g);
      r := Statistics(|graph.nodes|, |graph.edges|, typeCounts);
    }
  }
}
