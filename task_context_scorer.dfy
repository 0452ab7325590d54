/**
  Task-context scoring: memories that mention entities of the current task,
  or entities near them in the knowledge graph, gain importance.

  A Python dictionary is modelled as a `map` together with `order`, the
  sequence of its keys in insertion order, which is the order in which
  `dict.items()` visits them.
*/
module TaskContextScoring {
  import opened Support
  import opened MemoryRecords
  import opened EntityExtractor
  import opened KnowledgeGraph

  /** `s` lists the elements of `names` once each. */
  ghost predicate Listing(s: seq<string>, names: set<string>)
  {
    (forall i, j :: 0 <= i < j < |s| ==> s[i] != s[j]) &&
    (forall x :: x in s <==> x in names)
  }

  function Elems(s: seq<string>): set<string>
  {
    set x | x in s
  }

  /** The distinct names of a list of entities. */
  function NamesOf(es: seq<Entity>): set<string>
  {
    set e | e in es :: e.name
  }

  /** The entity names `extract_task_entities(query)` returns. */
  function TaskNames(query: string, find: Finder): set<string>
  {
    NamesOf(Entities(query, find))
  }

  // ---------------------------------------------------------------------
  // Relevance of graph entities to the task
  // ---------------------------------------------------------------------

  /** The task entities that are nodes of the graph. */
  function Seeds(g: DiGraph, names: set<string>): set<string>
  {
    set t | t in names && t in g.nodes
  }

  /** Every node within `h` undirected steps of some task entity in the graph, the entity itself excluded. */
  ghost function Near(g: DiGraph, names: set<string>, h: int): set<string>
  {
    set k | k in g.nodes && exists t :: t in names && t in g.nodes && k in Related(g, t, h)
  }

  /**
    The relevance of each entity to a task: 1.0 for a task entity that is
    a node, otherwise 0.5 for a node one step from one, otherwise 0.25 for
    a node two steps from one. Nothing else has a relevance.
  */
  ghost function TaskRelevance(g: DiGraph, names: set<string>): map<string, real>
  {
    Layers(Seeds(g, names), Near(g, names, 1), Near(g, names, 2))
  }

  /** 1.0 on `seeds`, then 0.5 on `near1`, then 0.25 on `near2`. */
  function Layers(seeds: set<string>, near1: set<string>, near2: set<string>): map<string, real>
  {
    map k | k in seeds + near2 :: if k in seeds then 1.0 else if k in near1 then 0.5 else 0.25
  }

  /** `related[k] = v` for each `k` in `keys` that is missing or has a lower relevance. */
  function Raise(m: map<string, real>, keys: set<string>, v: real): map<string, real>
  {
    map k | k in m.Keys + keys :: if k in keys && (k !in m || m[k] < v) then v else m[k]
  }

  /** One task entity's turn in `find_related_entities`. */
  ghost function Visit(m: map<string, real>, g: DiGraph, t: string): map<string, real>
  {
    if t in g.nodes then Raise(Raise(m[t := 1.0], Related(g, t, 1), 0.5), Related(g, t, 2), 0.25) else m
  }

  /** The dictionary after the task entities `tasks` have had their turn, in order. */
  ghost function Visits(g: DiGraph, tasks: seq<string>): map<string, real>
    decreases |tasks|
  {
    if tasks == [] then map[] else Visit(Visits(g, Init(tasks)), g, Last(tasks))
  }

  lemma RaiseSingle(m: map<string, real>, x: string, v: real)
    ensures Raise(m, {x}, v) == if x !in m || m[x] < v then m[x := v] else m
  {
  }

  lemma RaiseStep(m: map<string, real>, a: set<string>, x: string, v: real)
    ensures Raise(Raise(m, a, v), {x}, v) == Raise(m, a + {x}, v)
  {
  }

  lemma NearAdd(g: DiGraph, names: set<string>, t: string, h: int)
    requires t in g.nodes
    ensures Near(g, names + {t}, h) == Near(g, names, h) + Related(g, t, h)
  {
    RelatedAreNodes(g, t, h);
  }

  lemma NearMissing(g: DiGraph, names: set<string>, t: string, h: int)
    requires t !in g.nodes
    ensures Near(g, names + {t}, h) == Near(g, names, h)
  {
  }

  /** What is one step away is also within two steps. */
  lemma NearMono(g: DiGraph, names: set<string>)
    ensures Near(g, names, 1) <= Near(g, names, 2)
  {
    forall k | k in Near(g, names, 1) ensures k in Near(g, names, 2) {
      var t :| t in names && t in g.nodes && k in Related(g, t, 1);
      BallMono(g, t, 1, 2);
    }
  }

  /** A task entity's turn moves the relevance map from the names before it to the names including it. */
  lemma VisitRelevance(g: DiGraph, names: set<string>, t: string)
    ensures Visit(TaskRelevance(g, names), g, t) == TaskRelevance(g, names + {t})
  {
    if t !in g.nodes {
      NearMissing(g, names, t, 1);
      NearMissing(g, names, t, 2);
      assert Seeds(g, names + {t}) == Seeds(g, names);
    } else {
      NearAdd(g, names, t, 1);
      NearAdd(g, names, t, 2);
      NearMono(g, names);
      BallMono(g, t, 1, 2);
      assert Seeds(g, names + {t}) == Seeds(g, names) + {t};
      LayersStep(Seeds(g, names), Near(g, names, 1), Near(g, names, 2), t, Related(g, t, 1), Related(g, t, 2));
    }
  }

  /** Setting `t` to 1.0 and raising `r1` to 0.5 and `r2` to 0.25 adds them to the three layers. */
  lemma LayersStep(seeds: set<string>, n1: set<string>, n2: set<string>, t: string, r1: set<string>, r2: set<string>)
    requires n1 <= n2 && r1 <= r2
    ensures Raise(Raise(Layers(seeds, n1, n2)[t := 1.0], r1, 0.5), r2, 0.25) == Layers(seeds + {t}, n1 + r1, n2 + r2)
  {
    var m1 := Layers(seeds, n1, n2)[t := 1.0];
    var m2 := Raise(m1, r1, 0.5);
    var m3 := Raise(m2, r2, 0.25);
    var c := Layers(seeds + {t}, n1 + r1, n2 + r2);
    assert m3.Keys == c.Keys;
    forall k | k in c ensures m3[k] == c[k] {
      if k in seeds + {t} {
        assert m1[k] == 1.0;
      } else if k in n1 + r1 {
        assert m2[k] == 0.5;
      } else {
        assert k !in m1 || m1[k] == 0.25;
      }
    }
  }

  lemma {:induction false} VisitsIsRelevance(g: DiGraph, tasks: seq<string>)
    ensures Visits(g, tasks) == TaskRelevance(g, Elems(tasks))
    decreases |tasks|
  {
    if tasks == [] {
      assert TaskRelevance(g, {}) == map[];
    } else {
      VisitsIsRelevance(g, Init(tasks));
      InitLast(tasks);
      assert Elems(tasks) == Elems(Init(tasks)) + {Last(tasks)};
      VisitRelevance(g, Elems(Init(tasks)), Last(tasks));
    }
  }

  /** The inner loops of `find_related_entities`: raise every name in `keys` to `v`. */
  method RaiseAll(m0: map<string, real>, order0: seq<string>, keys: set<string>, v: real)
    returns (m: map<string, real>, order: seq<string>)
    requires Listing(order0, m0.Keys)
    ensures m == Raise(m0, keys, v) && Listing(order, m.Keys)
  {
    m, order := m0, order0;
    var rest := keys;
    while rest != {}
      invariant rest <= keys
      invariant m == Raise(m0, keys - rest, v) && Listing(order, m.Keys)
      decreases |rest|
    {
      var x :| x in rest;
      RaiseOne(m0, keys, rest, x, v, m);
      ListingRaise(order, m, x, v);
      if x !in m {
        order := order + [x];
      }
      if x !in m || m[x] < v {
        m := m[x := v];
      }
      rest := rest - {x};
    }
    assert keys - rest == keys;
  }

  /** One turn of `RaiseAll`'s loop. */
  lemma RaiseOne(m0: map<string, real>, keys: set<string>, rest: set<string>, x: string, v: real, m: map<string, real>)
    requires x in rest && rest <= keys && m == Raise(m0, keys - rest, v)
    ensures (if x !in m || m[x] < v then m[x := v] else m) == Raise(m0, keys - (rest - {x}), v)
    ensures Raise(m, {x}, v).Keys == m.Keys + {x}
  {
    RaiseStep(m0, keys - rest, x, v);
    RaiseSingle(m, x, v);
    assert (keys - rest) + {x} == keys - (rest - {x});
  }

  /** A name raised for the first time is appended to the key order. */
  lemma ListingRaise(s: seq<string>, m: map<string, real>, x: string, v: real)
    requires Listing(s, m.Keys)
    ensures Listing(if x !in m then s + [x] else s, Raise(m, {x}, v).Keys)
  {
    assert Raise(m, {x}, v).Keys == m.Keys + {x};
  }

  lemma ListingSnoc(s: seq<string>, names: set<string>, x: string)
    requires Listing(s, names) && x !in names
    ensures Listing(s + [x], names + {x})
  {
  }

  lemma ListingInit(s: seq<string>, names: set<string>)
    requires Listing(s, names) && s != []
    ensures Listing(Init(s), names - {Last(s)})
  {
    forall x ensures x in Init(s) <==> x in names - {Last(s)} {
      if x in Init(s) {
        var i :| 0 <= i < |Init(s)| && Init(s)[i] == x;
        assert s[i] == x && i < |s| - 1;
      }
    }
  }

  /** A list of distinct names is as long as the set of its names. */
  lemma {:induction false} ListingCard(s: seq<string>, names: set<string>)
    requires Listing(s, names)
    ensures |s| == |names|
    decreases |s|
  {
    if s != [] {
      InitLast(s);
      ListingInit(s, names);
      ListingCard(Init(s), names - {Last(s)});
    }
  }

  // ---------------------------------------------------------------------
  // Scoring a memory against the task
  // ---------------------------------------------------------------------

  /** The text scanned for a memory's entities: document, intent and action, not outcome. */
  function ScanText(doc: string, meta: Metadata): string
  {
    doc + " " + GetOr(meta.intent, "") + " " + GetOr(meta.action, "")
  }

  function MemoryNames(doc: string, meta: Metadata, find: Finder): set<string>
  {
    NamesOf(Entities(ScanText(doc, meta), find))
  }

  /** The `(name, relevance)` pairs of the dictionary, in its order, whose names the memory mentions. */
  function Matches(order: seq<string>, rel: map<string, real>, names: set<string>): seq<(string, real)>
    decreases |order|
  {
    if order == [] then [] else
    var k := Last(order);
    Matches(Init(order), rel, names) + (if k in rel && k in names then [(k, rel[k])] else [])
  }

  /** The relevances of `ms`, added up from the left. */
  function Boost(ms: seq<(string, real)>): real
    decreases |ms|
  {
    if ms == [] then 0.0 else Boost(Init(ms)) + Last(ms).1
  }

  /** `base_importance * (1 + task_boost)`. */
  function Boosted(base: real, boost: real): real
  {
    base * (1.0 + boost)
  }

  /** The part of the relevance map whose names the memory mentions. */
  function Restrict(rel: map<string, real>, names: set<string>): map<string, real>
  {
    map k | k in rel && k in names :: rel[k]
  }

  /** The matched pairs are exactly the dictionary entries the memory mentions, each once. */
  lemma {:induction false} MatchesMembers(order: seq<string>, rel: map<string, real>, names: set<string>)
    requires Listing(order, rel.Keys)
    ensures forall x :: x in Matches(order, rel, names) <==> x.0 in rel && x.0 in names && x.1 == rel[x.0]
    ensures forall i, j :: 0 <= i < j < |Matches(order, rel, names)| ==>
      Matches(order, rel, names)[i].0 != Matches(order, rel, names)[j].0
    decreases |order|
  {
    if order != [] {
      var k := Last(order);
      InitLast(order);
      var rel' := rel - {k};
      ListingInit(order, rel.Keys);
      assert rel'.Keys == rel.Keys - {k};
      MatchesMembers(Init(order), rel', names);
      MatchesFrame(Init(order), rel, rel', names);
    }
  }

  /** Only the entries of the names visited matter. */
  lemma {:induction false} MatchesFrame(order: seq<string>, a: map<string, real>, b: map<string, real>, names: set<string>)
    requires forall y :: y in order ==> (y in a <==> y in b) && (y in a ==> a[y] == b[y])
    ensures Matches(order, a, names) == Matches(order, b, names)
    decreases |order|
  {
    if order != [] {
      InitLast(order);
      MatchesFrame(Init(order), a, b, names);
    }
  }

  /** The boost is the sum of the relevances the memory mentions, whatever the dictionary order. */
  lemma {:induction false} MatchesBoostSum(order: seq<string>, rel: map<string, real>, names: set<string>)
    requires Listing(order, rel.Keys)
    ensures Boost(Matches(order, rel, names)) == SumReal(Restrict(rel, names))
    decreases |order|
  {
    if order == [] {
      assert Restrict(rel, names) == map[];
    } else {
      var k := Last(order);
      ListingInit(order, rel.Keys);
      assert (rel - {k}).Keys == rel.Keys - {k};
      MatchesBoostSum(Init(order), rel - {k}, names);
      MatchesFrame(Init(order), rel, rel - {k}, names);
      RestrictStep(rel, k, names);
      MatchesBoostStep(order, rel, names);
    }
  }

  lemma MatchesBoostStep(order: seq<string>, rel: map<string, real>, names: set<string>)
    requires order != [] && Last(order) in rel
    ensures Boost(Matches(order, rel, names)) ==
      Boost(Matches(Init(order), rel, names)) + (if Last(order) in names then rel[Last(order)] else 0.0)
  {
    var ms := Matches(Init(order), rel, names);
    var k := Last(order);
    if k in names {
      assert Matches(order, rel, names) == ms + [(k, rel[k])];
      assert Init(ms + [(k, rel[k])]) == ms;
    } else {
      assert Matches(order, rel, names) == ms;
    }
  }

  /** Taking one entry out of the dictionary takes its relevance out of the sum, if the memory mentions it. */
  lemma RestrictStep(rel: map<string, real>, k: string, names: set<string>)
    requires k in rel
    ensures SumReal(Restrict(rel, names)) == SumReal(Restrict(rel - {k}, names)) + (if k in names then rel[k] else 0.0)
  {
    var a, b := Restrict(rel, names), Restrict(rel - {k}, names);
    if k in names {
      assert a - {k} == b;
      SumRealRemove(a, k);
    } else {
      assert a == b;
    }
  }

  lemma {:induction false} BoostNonNegative(ms: seq<(string, real)>)
    requires forall x :: x in ms ==> x.1 >= 0.0
    ensures Boost(ms) >= 0.0
    decreases |ms|
  {
    if ms != [] {
      InitLast(ms);
      BoostNonNegative(Init(ms));
    }
  }

  /**
    `base * (1 + boost)`: a memory that mentions nothing relevant keeps its
    base importance, and a zero base stays zero.
  */
  lemma TaskImportanceUnboosted(order: seq<string>, rel: map<string, real>, names: set<string>, base: real)
    requires Listing(order, rel.Keys)
    ensures rel.Keys !! names ==> base * (1.0 + Boost(Matches(order, rel, names))) == base
    ensures base == 0.0 ==> base * (1.0 + Boost(Matches(order, rel, names))) == 0.0
  {
    if rel.Keys !! names {
      MatchesBoostSum(order, rel, names);
      assert Restrict(rel, names) == map[];
    }
  }

  /** With relevances of at least zero, a memory never loses importance. */
  lemma TaskImportanceGrows(order: seq<string>, rel: map<string, real>, names: set<string>, base: real)
    requires Listing(order, rel.Keys)
    requires forall k :: k in rel ==> rel[k] >= 0.0
    requires base >= 0.0
    ensures base * (1.0 + Boost(Matches(order, rel, names))) >= base
  {
    MatchesMembers(order, rel, names);
    BoostNonNegative(Matches(order, rel, names));
  }

  /** A relevance map never holds anything but 1.0, 0.5 and 0.25. */
  lemma RelevanceValues(g: DiGraph, names: set<string>)
    ensures forall k :: k in TaskRelevance(g, names) ==>
      TaskRelevance(g, names)[k] == 1.0 || TaskRelevance(g, names)[k] == 0.5 || TaskRelevance(g, names)[k] == 0.25
    ensures forall k :: k in TaskRelevance(g, names) ==> k in g.nodes
  {
  }

  lemma ListingPut(s: seq<string>, m: map<string, real>, x: string, v: real)
    requires Listing(s, m.Keys)
    ensures Listing(if x !in m then s + [x] else s, m[x := v].Keys)
  {
    assert m[x := v].Keys == m.Keys + {x};
  }

  // ---------------------------------------------------------------------
  // Scoring every memory
  // ---------------------------------------------------------------------

  /** `(document, metadata, base_importance)`, one memory offered for scoring. */
  type Candidate = (string, Metadata, real)

  /** `(document, metadata, base_importance, task_importance, matched_entities)`. */
  datatype TaskScored = TaskScored(document: string, metadata: Metadata, baseImportance: real,
                                   taskImportance: real, matched: seq<(string, real)>)

  function TaskImportanceOf(x: TaskScored): real
  {
    x.taskImportance
  }

  function ScoreFor(c: Candidate, rel: map<string, real>, order: seq<string>, find: Finder): TaskScored
  {
    var ms := Matches(order, rel, MemoryNames(c.0, c.1, find));
    TaskScored(c.0, c.1, c.2, Boosted(c.2, Boost(ms)), ms)
  }

  function ScoreAll(cs: seq<Candidate>, rel: map<string, real>, order: seq<string>, find: Finder): seq<TaskScored>
    decreases |cs|
  {
    if cs == [] then [] else ScoreAll(Init(cs), rel, order, find) + [ScoreFor(Last(cs), rel, order, find)]
  }

  /** Without task entities every memory keeps its base importance and matches nothing. */
  function Unscored(cs: seq<Candidate>): seq<TaskScored>
  {
    seq(|cs|, i requires 0 <= i < |cs| => TaskScored(cs[i].0, cs[i].1, cs[i].2, cs[i].2, []))
  }

  /** `ScoreAll` scores each memory on its own, in input order. */
  lemma {:induction false} ScoreAllIndex(cs: seq<Candidate>, rel: map<string, real>, order: seq<string>, find: Finder)
    ensures |ScoreAll(cs, rel, order, find)| == |cs|
    ensures forall i :: 0 <= i < |cs| ==> ScoreAll(cs, rel, order, find)[i] == ScoreFor(cs[i], rel, order, find)
    decreases |cs|
  {
    if cs != [] {
      ScoreAllIndex(Init(cs), rel, order, find);
      InitLast(cs);
    }
  }

  /**
    One entry per memory, in input order, whose task importance is its base
    times one plus the relevances of the entities it mentions, whatever the
    order of the relevance dictionary.
  */
  lemma ScoreAllEntries(cs: seq<Candidate>, rel: map<string, real>, order: seq<string>, find: Finder)
    requires Listing(order, rel.Keys)
    ensures |ScoreAll(cs, rel, order, find)| == |cs|
    ensures forall i :: 0 <= i < |cs| ==>
      var r := ScoreAll(cs, rel, order, find)[i];
      r.document == cs[i].0 && r.metadata == cs[i].1 && r.baseImportance == cs[i].2 &&
      r.taskImportance == Boosted(cs[i].2, SumReal(Restrict(rel, MemoryNames(cs[i].0, cs[i].1, find))))
  {
    ScoreAllIndex(cs, rel, order, find);
    forall i | 0 <= i < |cs|
      ensures ScoreFor(cs[i], rel, order, find).taskImportance ==
              Boosted(cs[i].2, SumReal(Restrict(rel, MemoryNames(cs[i].0, cs[i].1, find))))
    {
      MatchesBoostSum(order, rel, MemoryNames(cs[i].0, cs[i].1, find));
    }
  }

  // ---------------------------------------------------------------------
  // The task context summary
  // ---------------------------------------------------------------------

  /** One `{"name", "relevance", "pagerank", "type"}` entry; type `None` is 'unknown'. */
  datatype EntityScore = EntityScore(name: string, relevance: real, pagerank: real, entityType: Option<EntityType>)

  datatype TaskSummary = TaskSummary(query: string, taskEntities: seq<string>, relatedEntities: seq<EntityScore>,
                                     totalRelated: nat)

  function RelevanceOf(e: EntityScore): real
  {
    e.relevance
  }

  function NameOf(e: EntityScore): string
  {
    e.name
  }

  /** The entry for `k`: pagerank 0.0 when unscored, type 'unknown' when not a node. */
  function Entry(k: string, rel: map<string, real>, pr: map<string, real>, nodes: map<string, NodeData>): EntityScore
    requires k in rel
  {
    EntityScore(k, rel[k], if k in pr then pr[k] else 0.0, if k in nodes then nodes[k].entityType else None)
  }

  function EntityScores(order: seq<string>, rel: map<string, real>, pr: map<string, real>,
                        nodes: map<string, NodeData>): seq<EntityScore>
    requires forall k :: k in order ==> k in rel
    decreases |order|
  {
    if order == [] then [] else EntityScores(Init(order), rel, pr, nodes) + [Entry(Last(order), rel, pr, nodes)]
  }

  /**
    What the summary lists: at most 20 entries, by relevance descending,
    each the entry of a different related entity; a related entity is left out only
    when 20 entries are listed, all at least as relevant as it.
  */
  ghost predicate TopRelated(top: seq<EntityScore>, rel: map<string, real>, pr: map<string, real>,
                             nodes: map<string, NodeData>)
  {
    |top| <= 20 &&
    (forall i, j :: 0 <= i < j < |top| ==> top[i].relevance >= top[j].relevance) &&
    (forall i, j :: 0 <= i < j < |top| ==> top[i].name != top[j].name) &&
    (forall e :: e in top ==> e.name in rel && e == Entry(e.name, rel, pr, nodes)) &&
    (forall k :: k in rel && (forall e :: e in top ==> e.name != k) ==>
      |top| == 20 && forall e :: e in top ==> e.relevance >= rel[k])
  }

  lemma {:induction false} EntityScoresMembers(order: seq<string>, rel: map<string, real>, pr: map<string, real>,
                                               nodes: map<string, NodeData>)
    requires forall k :: k in order ==> k in rel
    ensures forall e :: e in EntityScores(order, rel, pr, nodes) <==> e.name in order && e == Entry(e.name, rel, pr, nodes)
    decreases |order|
  {
    if order != [] {
      InitLast(order);
      EntityScoresMembers(Init(order), rel, pr, nodes);
    }
  }

  /**
    The first 20 of the entries sorted by relevance, descending, are what
    the summary promises: a related entity is missing only when 20 entries
    at least as relevant are listed.
  */
  lemma SummaryTop(order: seq<string>, rel: map<string, real>, pr: map<string, real>,
                   nodes: map<string, NodeData>, sorted: seq<EntityScore>)
    requires Listing(order, rel.Keys)
    requires multiset(sorted) == multiset(EntityScores(order, rel, pr, nodes))
    requires forall i, j :: 0 <= i < j < |sorted| ==> RelevanceOf(sorted[i]) >= RelevanceOf(sorted[j])
    ensures TopRelated(PyPrefix(sorted, 20), rel, pr, nodes)
  {
    var top := PyPrefix(sorted, 20);
    EntityScoresMembers(order, rel, pr, nodes);
    forall e | e in top ensures e.name in rel && e == Entry(e.name, rel, pr, nodes) {
      assert e in multiset(sorted);
    }
    forall k | k in rel && (forall e :: e in top ==> e.name != k)
      ensures |top| == 20 && forall e :: e in top ==> e.relevance >= rel[k]
    {
      SummaryMissing(order, rel, pr, nodes, sorted, k);
    }
    EntityScoresDistinct(order, rel, pr, nodes);
    DistinctByPerm(EntityScores(order, rel, pr, nodes), sorted, NameOf);
    DistinctByTake(sorted, NameOf, |top|);
  }

  /** Keys listed once each give entries with distinct names. */
  lemma {:induction false} EntityScoresDistinct(order: seq<string>, rel: map<string, real>, pr: map<string, real>,
                                                nodes: map<string, NodeData>)
    requires forall k :: k in order ==> k in rel
    requires forall i, j :: 0 <= i < j < |order| ==> order[i] != order[j]
    ensures DistinctBy(EntityScores(order, rel, pr, nodes), NameOf)
    decreases |order|
  {
    if order != [] {
      var q, v := Init(order), Last(order);
      InitLast(order);
      assert forall i, j :: 0 <= i < j < |q| ==> q[i] != q[j] by {
        forall i, j | 0 <= i < j < |q| ensures q[i] != q[j] {
          assert q[i] == order[i] && q[j] == order[j];
        }
      }
      EntityScoresDistinct(q, rel, pr, nodes);
      EntityScoresMembers(q, rel, pr, nodes);
      assert v !in q by {
        forall k | 0 <= k < |q| ensures q[k] != v {
          assert q[k] == order[k] && order[|order| - 1] == v;
        }
      }
      DistinctByConcat(EntityScores(q, rel, pr, nodes), [Entry(v, rel, pr, nodes)], NameOf);
    }
  }

  lemma SummaryMissing(order: seq<string>, rel: map<string, real>, pr: map<string, real>,
                       nodes: map<string, NodeData>, sorted: seq<EntityScore>, k: string)
    requires Listing(order, rel.Keys)
    requires forall e :: e in EntityScores(order, rel, pr, nodes) <==> e.name in order && e == Entry(e.name, rel, pr, nodes)
    requires multiset(sorted) == multiset(EntityScores(order, rel, pr, nodes))
    requires forall i, j :: 0 <= i < j < |sorted| ==> RelevanceOf(sorted[i]) >= RelevanceOf(sorted[j])
    requires k in rel && forall e :: e in PyPrefix(sorted, 20) ==> e.name != k
    ensures |PyPrefix(sorted, 20)| == 20 && forall e :: e in PyPrefix(sorted, 20) ==> e.relevance >= rel[k]
  {
    var x := Entry(k, rel, pr, nodes);
    assert x in multiset(sorted);
    TopKeeps(sorted, RelevanceOf, 20, x);
  }

  /** The loop of `score_memory_for_task`: the entries of `rel`, in key order, that `names` contains, and their summed relevance. */
  method MatchNames(order: seq<string>, rel: map<string, real>, names: set<string>)
    returns (matched: seq<(string, real)>, boost: real)
    requires forall k :: k in order ==> k in rel
    ensures matched == Matches(order, rel, names)
    ensures boost == Boost(matched)
  {
    boost := 0.0;
    matched := [];
    for i := 0 to |order|
      invariant matched == Matches(order[..i], rel, names)
      invariant boost == Boost(matched)
    {
      var k := order[i];
      assert Init(order[..i + 1]) == order[..i] && Last(order[..i + 1]) == k;
      if k in names {
        assert Init(matched + [(k, rel[k])]) == matched;
        boost := boost + rel[k];
        matched := matched + [(k, rel[k])];
      }
    }
    assert order[..|order|] == order;
  }

  /** The loop of `get_task_context_summary`: one entry per related entity, in dictionary order. */
  method ScoreEntities(order: seq<string>, related: map<string, real>, pr: map<string, real>,
                       nodes: map<string, NodeData>) returns (entityScores: seq<EntityScore>)
    requires forall k :: k in order ==> k in related
    ensures entityScores == EntityScores(order, related, pr, nodes)
  {
    entityScores := [];
    for i := 0 to |order|
      invariant entityScores == EntityScores(order[..i], related, pr, nodes)
    {
      var entity := order[i];
      assert Init(order[..i + 1]) == order[..i] && Last(order[..i + 1]) == entity;
      var pagerank := if entity in pr then pr[entity] else 0.0;
      var entityType := if entity in nodes then nodes[entity].entityType else None;
      entityScores := entityScores + [EntityScore(entity, related[entity], pagerank, entityType)];
    }
    assert order[..|order|] == order;
  }

  // ---------------------------------------------------------------------
  // The scorer
  // ---------------------------------------------------------------------

  /** `TaskContextScorer`: reads the knowledge graph it was given, never changes it. */
  class TaskContextScorer {
    var kg: MemoryKnowledgeGraph

    constructor(kg: MemoryKnowledgeGraph)
      ensures this.kg == kg
    {
      this.kg := kg;
    }

    /** `extract_task_entities`: the distinct names of the query's entities, in no particular order. */
    method ExtractTaskEntities(queryText: string, find: Finder) returns (names: seq<string>)
      ensures Listing(names, TaskNames(queryText, find))
    {
      var entities := ExtractEntities(queryText, find);
      var all := set e | e in entities :: e.name;
      var rest := all;
      names := [];
      while rest != {}
        invariant rest <= all
        invariant Listing(names, all - rest)
        decreases |rest|
      {
        var n :| n in rest;
        ListingSnoc(names, all - rest, n);
        assert (all - rest) + {n} == all - (rest - {n});
        names := names + [n];
        rest := rest - {n};
      }
      assert all - rest == all;
    }

    /**
      `find_related_entities`: each task entity that is a node gets 1.0, the
      nodes one step from it at least 0.5 and those two steps from it at
      least 0.25, never lowering a relevance already recorded. `maxHops` is
      not used. `order` is the insertion order of the dictionary.
    */
    method FindRelatedEntities(taskEntities: seq<string>, maxHops: int)
      returns (related: map<string, real>, order: seq<string>)
      requires kg.Valid()
      ensures related == TaskRelevance(kg.graph, Elems(taskEntities))
      ensures Listing(order, related.Keys)
    {
      related, order := map[], [];
      for i := 0 to |taskEntities|
        invariant related == Visits(kg.graph, taskEntities[..i])
        invariant Listing(order, related.Keys)
      {
        var t := taskEntities[i];
        assert Init(taskEntities[..i + 1]) == taskEntities[..i] && Last(taskEntities[..i + 1]) == t;
        if t in kg.graph.nodes {
          ListingPut(order, related, t, 1.0);
          if t !in related {
            order := order + [t];
          }
          related := related[t := 1.0];
          var near1 := kg.GetRelatedEntities(t, 1);
          related, order := RaiseAll(related, order, near1, 0.5);
          var near2 := kg.GetRelatedEntities(t, 2);
          related, order := RaiseAll(related, order, near2, 0.25);
        }
      }
      assert taskEntities[..|taskEntities|] == taskEntities;
      VisitsIsRelevance(kg.graph, taskEntities);
    }

    /**
      `score_memory_for_task`: the memory's importance for the task and the
      dictionary entries it mentions, given with `order`, the dictionary's
      key order.
    */
    method ScoreMemoryForTask(memoryText: string, memoryMetadata: Metadata, taskEntities: map<string, real>,
                              order: seq<string>, baseImportance: real, find: Finder)
      returns (taskImportance: real, matched: seq<(string, real)>)
      requires Listing(order, taskEntities.Keys)
      ensures matched == Matches(order, taskEntities, MemoryNames(memoryText, memoryMetadata, find))
      ensures taskImportance == Boosted(baseImportance, Boost(matched))
    {
      var fullText := memoryText + " " + GetOr(memoryMetadata.intent, "") + " " + GetOr(memoryMetadata.action, "");
      var memoryEntities := ExtractEntities(fullText, find);
      var names := NamesOf(memoryEntities);
      var taskBoost;
      matched, taskBoost := MatchNames(order, taskEntities, names);
      taskImportance := Boosted(baseImportance, taskBoost);
    }

    /** The loop of `score_memories_for_task`: every memory scored, in input order. */
    method ScoreEach(memories: seq<Candidate>, taskEntities: map<string, real>, order: seq<string>, find: Finder)
      returns (scored: seq<TaskScored>)
      requires Listing(order, taskEntities.Keys)
      ensures scored == ScoreAll(memories, taskEntities, order, find)
    {
      scored := [];
      for i := 0 to |memories|
        invariant scored == ScoreAll(memories[..i], taskEntities, order, find)
      {
        var c := memories[i];
        assert Init(memories[..i + 1]) == memories[..i] && Last(memories[..i + 1]) == c;
        var taskImp, matched := ScoreMemoryForTask(c.0, c.1, taskEntities, order, c.2, find);
        scored := scored + [TaskScored(c.0, c.1, c.2, taskImp, matched)];
      }
      assert memories[..|memories|] == memories;
    }

    /**
      `score_memories_for_task`: without task entities the memories come
      back in input order at their base importance; otherwise each is
      scored and the list is sorted by task importance, descending, equal
      scores keeping their input order.
    */
    method ScoreMemoriesForTask(queryText: string, memories: seq<Candidate>, maxHops: int, find: Finder)
      returns (r: seq<TaskScored>)
      requires kg.Valid()
      ensures |r| == |memories|
      ensures TaskNames(queryText, find) == {} ==> r == Unscored(memories)
      ensures TaskNames(queryText, find) != {} ==>
        exists order :: Listing(order, TaskRelevance(kg.graph, TaskNames(queryText, find)).Keys) &&
          r == SortDesc(ScoreAll(memories, TaskRelevance(kg.graph, TaskNames(queryText, find)), order, find),
                        ByKey(TaskImportanceOf))
      ensures TaskNames(queryText, find) != {} ==>
        forall i, j :: 0 <= i < j < |r| ==> r[i].taskImportance >= r[j].taskImportance
    {
      var taskEntityList := ExtractTaskEntities(queryText, find);
      if taskEntityList == [] {
        assert TaskNames(queryText, find) == {};
        return Unscored(memories);
      }
      assert taskEntityList[0] in TaskNames(queryText, find);
      assert Elems(taskEntityList) == TaskNames(queryText, find);
      var taskEntities, order := FindRelatedEntities(taskEntityList, maxHops);
      var scored := ScoreEach(memories, taskEntities, order, find);
      ScoreAllEntries(memories, taskEntities, order, find);
      SortByKeyProperties(scored, TaskImportanceOf);
      r := SortDesc(scored, ByKey(TaskImportanceOf));
    }

    /**
      `get_task_context_summary`: the task entities, the 20 most relevant
      related entities with their PageRank score and type, and how many
      entities are related.
    */
    method GetTaskContextSummary(queryText: string, maxHops: int, find: Finder) returns (s: TaskSummary)
      requires kg.Valid()
      ensures s.query == queryText
      ensures Listing(s.taskEntities, TaskNames(queryText, find))
      ensures s.totalRelated == |TaskRelevance(kg.graph, TaskNames(queryText, find))|
      ensures TopRelated(s.relatedEntities, TaskRelevance(kg.graph, TaskNames(queryText, find)),
                         kg.pagerankScores, kg.graph.nodes)
    {
      var taskEntities := ExtractTaskEntities(queryText, find);
      assert Elems(taskEntities) == TaskNames(queryText, find);
      var related, order := FindRelatedEntities(taskEntities, maxHops);
      var pr := kg.pagerankScores;
      var nodes := kg.graph.nodes;
      var entityScores := ScoreEntities(order, related, pr, nodes);
      var sorted := SortDesc(entityScores, ByKey(RelevanceOf));
      SortByKeyProperties(entityScores, RelevanceOf);
      SummaryTop(order, related, pr, nodes, sorted);
      s := TaskSummary(queryText, taskEntities, PyPrefix(sorted, 20), |related|);
    }
  }
}
