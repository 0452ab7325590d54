/**
  The session-start retrieval: what the hook does with the candidates the
  store's similarity query returns (adaptive-K selection with task-context
  scoring), the important recent memories of the session, the five-minute
  knowledge-graph cache and the id de-duplication of the rendered context.

  The embedding model and the store are outside the model: the query's
  answer arrives as a list of hits (`None` when the call raised), the
  clock as a number of seconds.
*/
module SessionStartInjector {
  import opened Support
  import opened MemoryRecords
  import opened EntityExtractor
  import opened KnowledgeGraph
  import opened TaskContextScoring

  /** `MIN_IMPORTANCE`. */
  const MinImportance: real := 5.0

  /** `MIN_SIMILARITY`; declared, but the filter uses `SimilarityFloor`. */
  const MinSimilarity: real := 0.35

  /** The similarity below which a candidate is dropped. */
  const SimilarityFloor: real := 0.4

  /** The similarity from which a candidate is of high quality. */
  const HighSimilarity: real := 0.6

  /** `TOP_K_MEMORIES`. */
  const TopKMemories: int := 20

  /** `RECENT_MEMORIES`. */
  const RecentMemories: int := 4

  /** `KG_CACHE_TTL`, in seconds. */
  const CacheTtl: real := 300.0

  /** How many rows `collection.get` is asked for. */
  const RecentLimit: nat := 1000

  // ---------------------------------------------------------------------
  // Smart summaries
  // ---------------------------------------------------------------------

  /**
    The part of `extract_smart_summary` the core reads: the text, the
    importance (0.0 when absent), the tier (`None` for 'unknown'), the
    timestamp ("" when absent) and the first five file paths.
  */
  datatype Summary = Summary(text: string, importance: real, category: Option<Tier>, timestamp: string,
                             files: seq<string>)

  function SmartSummary(meta: Metadata, document: string): (s: Summary)
    ensures s.text == document && s.importance == GetOr(meta.importanceScore, 0.0)
    ensures s.timestamp == GetOr(meta.timestamp, "") && s.category == meta.importanceCategory
    ensures meta.artifacts.None? ==> s.files == []
    ensures meta.artifacts.Some? ==> var paths := meta.artifacts.value.filePaths;
      |s.files| == (if |paths| <= 5 then |paths| else 5) && s.files == paths[..|s.files|]
  {
    var files := if meta.artifacts.Some? && meta.artifacts.value.filePaths != []
                 then PyPrefix(meta.artifacts.value.filePaths, 5) else [];
    Summary(document, GetOr(meta.importanceScore, 0.0), meta.importanceCategory, GetOr(meta.timestamp, ""), files)
  }

  // ---------------------------------------------------------------------
  // Relevant memories: the specification
  // ---------------------------------------------------------------------

  /** One answer of the similarity query: id, document, metadata and distance. */
  datatype Hit = Hit(id: string, document: string, metadata: Metadata, distance: real)

  /** One memory offered to the session. */
  datatype RelevantMemory = RelevantMemory(id: string, summary: Summary, similarity: real, baseImportance: real,
                                           taskImportance: real, taskBoost: real, matched: seq<(string, real)>,
                                           combinedScore: real)

  /** `1 - distance`, the distance being 0.5 when the answer carries none. */
  function Similarity(h: Hit, hasDistances: bool): real
  {
    1.0 - (if hasDistances then h.distance else 0.5)
  }

  function BaseImportance(h: Hit): real
  {
    GetOr(h.metadata.importanceScore, 0.0)
  }

  /** A candidate is kept unless its importance is below 5.0 or its similarity below 0.4. */
  predicate Admitted(h: Hit, hasDistances: bool)
  {
    !(BaseImportance(h) < MinImportance || Similarity(h, hasDistances) < SimilarityFloor)
  }

  function AdmittedBy(hasDistances: bool): Hit -> bool
  {
    h => Admitted(h, hasDistances)
  }

  /** `document.strip().lower()`. */
  function DocKey(h: Hit): string
  {
    Lower(Strip(h.document, IsSpace))
  }

  /** The admitted candidates, the first of each document key only. */
  function Pool(hits: seq<Hit>, hasDistances: bool): seq<Hit>
  {
    DedupBy(Filter(hits, AdmittedBy(hasDistances)), DocKey)
  }

  predicate IsHigh(h: Hit, hasDistances: bool)
  {
    Similarity(h, hasDistances) >= HighSimilarity
  }

  predicate IsMedium(h: Hit, hasDistances: bool)
  {
    !IsHigh(h, hasDistances) && Similarity(h, hasDistances) >= SimilarityFloor
  }

  /** The test of the high (`high`) or the medium bucket. */
  function BucketBy(hasDistances: bool, high: bool): Hit -> bool
  {
    h => if high then IsHigh(h, hasDistances) else IsMedium(h, hasDistances)
  }

  /** `task_importance / base_importance`, or 1.0 when the base is not positive. */
  function TaskBoost(taskImportance: real, base: real): real
  {
    if base > 0.0 then taskImportance / base else 1.0
  }

  /** The memory the loop makes of a candidate, scored for the task. */
  function ToMemory(h: Hit, hasDistances: bool, rel: map<string, real>, order: seq<string>, find: Finder): RelevantMemory
  {
    var base := BaseImportance(h);
    var sim := Similarity(h, hasDistances);
    var matched := Matches(order, rel, MemoryNames(h.document, h.metadata, find));
    var t := Boosted(base, Boost(matched));
    RelevantMemory(h.id, SmartSummary(h.metadata, h.document), sim, base, t, TaskBoost(t, base), matched, Combined(sim, t))
  }

  /** `similarity * task_importance`. */
  function Combined(similarity: real, taskImportance: real): real
  {
    similarity * taskImportance
  }

  function ToMemoryBy(hasDistances: bool, rel: map<string, real>, order: seq<string>, find: Finder): Hit -> RelevantMemory
  {
    h => ToMemory(h, hasDistances, rel, order, find)
  }

  function CombinedOf(m: RelevantMemory): real
  {
    m.combinedScore
  }

  /** `bucket.sort(key=combined_score, reverse=True)`. */
  function Ranked(ms: seq<RelevantMemory>): seq<RelevantMemory>
  {
    SortDesc(ms, ByKey(CombinedOf))
  }

  /** The adaptive choice over the two ranked buckets. */
  function Select<T>(high: seq<T>, medium: seq<T>, maxResults: int): seq<T>
  {
    if |high| >= 5 then PyPrefix(high, maxResults)
    else if |high| > 0 then PyPrefix(high + PyPrefix(medium, 5), maxResults)
    else if |medium| > 0 then PyPrefix(medium, 3)
    else []
  }

  /** The two ranked buckets of the candidates. */
  function HighBucket(hits: seq<Hit>, hasDistances: bool, rel: map<string, real>, order: seq<string>,
                      find: Finder): seq<RelevantMemory>
  {
    MapSeq(Filter(Pool(hits, hasDistances), BucketBy(hasDistances, true)), ToMemoryBy(hasDistances, rel, order, find))
  }

  function MediumBucket(hits: seq<Hit>, hasDistances: bool, rel: map<string, real>, order: seq<string>,
                        find: Finder): seq<RelevantMemory>
  {
    MapSeq(Filter(Pool(hits, hasDistances), BucketBy(hasDistances, false)), ToMemoryBy(hasDistances, rel, order, find))
  }

  /** What `get_relevant_memories_with_task_context` returns for the candidates `hits`. */
  function RelevantFor(hits: seq<Hit>, hasDistances: bool, rel: map<string, real>, order: seq<string>,
                       find: Finder, maxResults: int): seq<RelevantMemory>
  {
    Select(Ranked(HighBucket(hits, hasDistances, rel, order, find)),
           Ranked(MediumBucket(hits, hasDistances, rel, order, find)), maxResults)
  }

  /** The relevance dictionary of the query: empty when it names no entity. */
  ghost function QueryRelevance(g: DiGraph, queryText: string, find: Finder): map<string, real>
  {
    if TaskNames(queryText, find) == {} then map[] else TaskRelevance(g, TaskNames(queryText, find))
  }

  // ---------------------------------------------------------------------
  // Relevant memories: the loop
  // ---------------------------------------------------------------------

  /** One more candidate: the pool grows by it exactly when it is admitted with a new key. */
  lemma PoolSnoc(hits: seq<Hit>, i: nat, hasDistances: bool)
    requires i < |hits|
    ensures var p := Pool(hits[..i], hasDistances);
      Pool(hits[..i + 1], hasDistances) ==
        if Admitted(hits[i], hasDistances) && DocKey(hits[i]) !in KeysOf(p, DocKey) then p + [hits[i]] else p
  {
    assert Init(hits[..i + 1]) == hits[..i] && Last(hits[..i + 1]) == hits[i];
  }

  /** The keys seen are the keys of the pool. */
  lemma PoolKeys(hits: seq<Hit>, hasDistances: bool)
    ensures KeysOf(Pool(hits, hasDistances), DocKey) == KeysOf(Filter(hits, AdmittedBy(hasDistances)), DocKey)
  {
    DedupByKeys(Filter(hits, AdmittedBy(hasDistances)), DocKey);
  }

  lemma BucketSnoc(p: seq<Hit>, h: Hit, hasDistances: bool, f: Hit -> RelevantMemory)
    ensures MapSeq(Filter(p + [h], BucketBy(hasDistances, true)), f) ==
      MapSeq(Filter(p, BucketBy(hasDistances, true)), f) + (if IsHigh(h, hasDistances) then [f(h)] else [])
    ensures MapSeq(Filter(p + [h], BucketBy(hasDistances, false)), f) ==
      MapSeq(Filter(p, BucketBy(hasDistances, false)), f) + (if IsMedium(h, hasDistances) then [f(h)] else [])
  {
    assert Init(p + [h]) == p && Last(p + [h]) == h;
    var hp := Filter(p, BucketBy(hasDistances, true));
    assert Init(hp + [h]) == hp && Last(hp + [h]) == h;
    var mp := Filter(p, BucketBy(hasDistances, false));
    assert Init(mp + [h]) == mp && Last(mp + [h]) == h;
  }

  /** Scores one admitted candidate for the task and makes its memory. */
  method ScoreCandidate(scorer: TaskContextScorer, h: Hit, hasDistances: bool, rel: map<string, real>,
                        order: seq<string>, find: Finder)
    returns (memory: RelevantMemory)
    requires Listing(order, rel.Keys)
    ensures memory == ToMemory(h, hasDistances, rel, order, find)
  {
    var baseImportance := GetOr(h.metadata.importanceScore, 0.0);
    var similarity := 1.0 - (if hasDistances then h.distance else 0.5);
    var taskImportance, matchedEntities := scorer.ScoreMemoryForTask(h.document, h.metadata, rel, order,
                                                                     baseImportance, find);
    var summary := SmartSummary(h.metadata, h.document);
    var combinedScore := Combined(similarity, taskImportance);
    memory := RelevantMemory(h.id, summary, similarity, baseImportance, taskImportance,
                             TaskBoost(taskImportance, baseImportance), matchedEntities, combinedScore);
    ghost var spec := ToMemory(h, hasDistances, rel, order, find);
    assert spec.id == memory.id;
    assert spec.summary == memory.summary;
    assert spec.similarity == memory.similarity;
    assert spec.baseImportance == memory.baseImportance;
    assert spec.matched == matchedEntities;
    assert spec.taskImportance == taskImportance;
    assert spec.combinedScore == combinedScore;
    assert spec.taskBoost == memory.taskBoost;
  }

  /**
    The candidate loop: skip the inadmissible and the already seen
    documents, score the rest and sort them into the two buckets.
  */
  method BucketCandidates(scorer: TaskContextScorer, hits: seq<Hit>, hasDistances: bool, rel: map<string, real>,
                          order: seq<string>, find: Finder)
    returns (high: seq<RelevantMemory>, medium: seq<RelevantMemory>)
    requires Listing(order, rel.Keys)
    ensures high == HighBucket(hits, hasDistances, rel, order, find)
    ensures medium == MediumBucket(hits, hasDistances, rel, order, find)
  {
    ghost var f := ToMemoryBy(hasDistances, rel, order, find);
    high := [];
    medium := [];
    var seenDocuments: set<string> := {};
    for i := 0 to |hits|
      invariant seenDocuments == KeysOf(Pool(hits[..i], hasDistances), DocKey)
      invariant high == MapSeq(Filter(Pool(hits[..i], hasDistances), BucketBy(hasDistances, true)), f)
      invariant medium == MapSeq(Filter(Pool(hits[..i], hasDistances), BucketBy(hasDistances, false)), f)
    {
      PoolSnoc(hits, i, hasDistances);
      var h := hits[i];
      var baseImportance := GetOr(h.metadata.importanceScore, 0.0);
      var distance := if hasDistances then h.distance else 0.5;
      var similarity := 1.0 - distance;
      if baseImportance < MinImportance || similarity < SimilarityFloor {
        continue;
      }
      var docKey := Lower(Strip(h.document, IsSpace));
      if docKey in seenDocuments {
        continue;
      }
      KeysOfSnoc(Pool(hits[..i], hasDistances), h, DocKey);
      BucketSnoc(Pool(hits[..i], hasDistances), h, hasDistances, f);
      seenDocuments := seenDocuments + {docKey};
      var memory := ScoreCandidate(scorer, h, hasDistances, rel, order, find);
      if similarity >= HighSimilarity {
        high := high + [memory];
      } else if similarity >= SimilarityFloor {
        medium := medium + [memory];
      }
    }
    assert hits[..|hits|] == hits;
  }

  /** The query's entities and, when it names any, their relevance dictionary within two hops. */
  method QueryEntities(scorer: TaskContextScorer, queryText: string, find: Finder)
    returns (related: map<string, real>, order: seq<string>)
    requires scorer.kg.Valid()
    ensures related == QueryRelevance(scorer.kg.graph, queryText, find)
    ensures Listing(order, related.Keys)
  {
    var taskEntities := scorer.ExtractTaskEntities(queryText, find);
    related, order := map[], [];
    if taskEntities != [] {
      assert taskEntities[0] in TaskNames(queryText, find);
      assert Elems(taskEntities) == TaskNames(queryText, find);
      related, order := scorer.FindRelatedEntities(taskEntities, 2);
    } else {
      assert TaskNames(queryText, find) == {};
    }
  }

  /**
    `get_relevant_memories_with_task_context`: the query's entities and
    their related entities give the relevance dictionary, every candidate
    is scored for it, and the adaptive choice picks from the two buckets.
    A query that raised or found nothing gives `[]`.
  */
  method GetRelevantMemoriesWithTaskContext(results: Option<seq<Hit>>, hasDistances: bool, queryText: string,
                                            kg: MemoryKnowledgeGraph, maxResults: int, find: Finder)
    returns (r: seq<RelevantMemory>)
    requires kg.Valid()
    ensures results.None? || results.value == [] ==> r == []
    ensures results.Some? && results.value != [] ==>
      exists order :: Listing(order, QueryRelevance(kg.graph, queryText, find).Keys) &&
        r == RelevantFor(results.value, hasDistances, QueryRelevance(kg.graph, queryText, find), order, find, maxResults)
  {
    if results.None? || results.value == [] {
      return [];
    }
    var hits := results.value;
    var scorer := new TaskContextScorer(kg);
    var related, order := QueryEntities(scorer, queryText, find);
    var high, medium := BucketCandidates(scorer, hits, hasDistances, related, order, find);
    high := SortDesc(high, ByKey(CombinedOf));
    medium := SortDesc(medium, ByKey(CombinedOf));
    r := Select(high, medium, maxResults);
    assert r == RelevantFor(hits, hasDistances, related, order, find, maxResults);
  }

  // ---------------------------------------------------------------------
  // Relevant memories: properties
  // ---------------------------------------------------------------------

  /** The adaptive choice only takes items of the two buckets, at most `max(maxResults, 3)` of them. */
  lemma SelectFrom<T>(high: seq<T>, medium: seq<T>, maxResults: int)
    ensures forall x :: x in Select(high, medium, maxResults) ==> x in high || x in medium
    ensures |high| >= 5 ==> Select(high, medium, maxResults) == PyPrefix(high, maxResults)
    ensures 0 < |high| ==> |Select(high, medium, maxResults)| <= |high| + 5
    ensures |high| == 0 ==> Select(high, medium, maxResults) == PyPrefix(medium, 3)
    ensures 0 < |high| && 0 <= maxResults ==> |Select(high, medium, maxResults)| <= maxResults
  {
    if 0 < |high| < 5 {
      var c := high + PyPrefix(medium, 5);
      forall x | x in PyPrefix(c, maxResults) ensures x in high || x in medium {
        var j :| 0 <= j < |PyPrefix(c, maxResults)| && PyPrefix(c, maxResults)[j] == x;
        assert c[j] == x;
        if j >= |high| {
          assert PyPrefix(medium, 5)[j - |high|] == x;
        }
      }
    } else if |high| >= 5 {
      forall x | x in PyPrefix(high, maxResults) ensures x in high {
        var j :| 0 <= j < |PyPrefix(high, maxResults)| && PyPrefix(high, maxResults)[j] == x;
        assert high[j] == x;
      }
    } else {
      forall x | x in PyPrefix(medium, 3) ensures x in medium {
        var j :| 0 <= j < |PyPrefix(medium, 3)| && PyPrefix(medium, 3)[j] == x;
        assert medium[j] == x;
      }
    }
  }

  /**
    The choice keeps the buckets' order: it is some items of `high`
    followed by some items of `medium`, each run a prefix of its bucket.
  */
  lemma SelectShape<T>(high: seq<T>, medium: seq<T>, maxResults: int)
    ensures var r := Select(high, medium, maxResults);
      exists a, b :: 0 <= a <= |high| && 0 <= b <= |medium| && r == high[..a] + medium[..b]
  {
    var r := Select(high, medium, maxResults);
    if |high| >= 5 {
      assert r == high[..|r|] + medium[..0];
    } else if |high| > 0 {
      var m := PyPrefix(medium, 5);
      var c := high + m;
      if |r| <= |high| {
        assert r == high[..|r|] + medium[..0];
      } else {
        var k := |r| - |high|;
        assert r == c[..|r|] && k <= |m|;
        assert c[..|r|] == high + m[..k];
        assert m[..k] == medium[..k];
        assert r == high[..|high|] + medium[..k];
      }
    } else {
      assert r == high[..0] + medium[..|r|];
    }
  }

  /** Listed by combined score, highest first. */
  ghost predicate ByCombined(ms: seq<RelevantMemory>)
  {
    forall i, j :: 0 <= i < j < |ms| ==> ms[i].combinedScore >= ms[j].combinedScore
  }

  /** No medium memory (similarity below 0.6) comes before a high-quality one. */
  ghost predicate HighFirst(r: seq<RelevantMemory>)
  {
    forall i, j :: 0 <= i < j < |r| && r[j].similarity >= HighSimilarity ==> r[i].similarity >= HighSimilarity
  }

  /** Among memories of the same quality, combined score never rises. */
  ghost predicate RunsRanked(r: seq<RelevantMemory>)
  {
    forall i, j :: 0 <= i < j < |r| && (r[i].similarity >= HighSimilarity <==> r[j].similarity >= HighSimilarity) ==>
      r[i].combinedScore >= r[j].combinedScore
  }

  /** A high-quality memory never follows a medium one, and each run is ranked. */
  lemma SelectOrder(high: seq<RelevantMemory>, medium: seq<RelevantMemory>, maxResults: int)
    requires forall m :: m in high ==> m.similarity >= HighSimilarity
    requires forall m :: m in medium ==> m.similarity < HighSimilarity
    requires ByCombined(high)
    requires ByCombined(medium)
    ensures var r := Select(high, medium, maxResults);
      HighFirst(r) && RunsRanked(r)
  {
    SelectShape(high, medium, maxResults);
    var r := Select(high, medium, maxResults);
    var a, b :| 0 <= a <= |high| && 0 <= b <= |medium| && r == high[..a] + medium[..b];
    RunsOrder(high, medium, a, b);
  }

  lemma RunsOrder(high: seq<RelevantMemory>, medium: seq<RelevantMemory>, a: nat, b: nat)
    requires a <= |high| && b <= |medium|
    requires forall m :: m in high ==> m.similarity >= HighSimilarity
    requires forall m :: m in medium ==> m.similarity < HighSimilarity
    requires ByCombined(high)
    requires ByCombined(medium)
    ensures var r := high[..a] + medium[..b];
      HighFirst(r) && RunsRanked(r)
  {
    var r := high[..a] + medium[..b];
    forall i | 0 <= i < |r| ensures r[i].similarity >= HighSimilarity <==> i < a {
      if i < a {
        assert r[i] == high[i] && high[i] in high;
      } else {
        assert r[i] == medium[i - a] && medium[i - a] in medium;
      }
    }
    forall i, j | 0 <= i < j < |r| && (r[i].similarity >= HighSimilarity <==> r[j].similarity >= HighSimilarity)
      ensures r[i].combinedScore >= r[j].combinedScore
    {
      if j < a {
        assert r[i] == high[i] && r[j] == high[j];
      } else {
        assert r[i] == medium[i - a] && r[j] == medium[j - a];
      }
    }
  }

  /** Every returned memory has importance at least 5.0 and similarity at least 0.4. */
  lemma RelevantAdmitted(hits: seq<Hit>, hasDistances: bool, rel: map<string, real>, order: seq<string>,
                         find: Finder, maxResults: int)
    ensures forall m :: m in RelevantFor(hits, hasDistances, rel, order, find, maxResults) ==>
      m.baseImportance >= MinImportance && m.similarity >= SimilarityFloor
  {
    var hb := HighBucket(hits, hasDistances, rel, order, find);
    var mb := MediumBucket(hits, hasDistances, rel, order, find);
    BucketAdmitted(hits, hasDistances, true, rel, order, find);
    BucketAdmitted(hits, hasDistances, false, rel, order, find);
    RankedMembers(hb);
    RankedMembers(mb);
    SelectFrom(Ranked(hb), Ranked(mb), maxResults);
  }

  /**
    The result lists the high-quality memories (similarity at least 0.6)
    before the medium ones, each run by combined score, highest first.
  */
  lemma RelevantOrdered(hits: seq<Hit>, hasDistances: bool, rel: map<string, real>, order: seq<string>,
                        find: Finder, maxResults: int)
    ensures var r := RelevantFor(hits, hasDistances, rel, order, find, maxResults);
      HighFirst(r) && RunsRanked(r)
  {
    var pool, f := Pool(hits, hasDistances), ToMemoryBy(hasDistances, rel, order, find);
    var hr := Ranked(MapSeq(Filter(pool, BucketBy(hasDistances, true)), f));
    var mr := Ranked(MapSeq(Filter(pool, BucketBy(hasDistances, false)), f));
    BucketRanked(hits, hasDistances, true, rel, order, find);
    BucketRanked(hits, hasDistances, false, rel, order, find);
    assert RelevantFor(hits, hasDistances, rel, order, find, maxResults) == Select(hr, mr, maxResults);
    assert forall m :: m in hr ==> m.similarity >= HighSimilarity;
    assert forall m :: m in mr ==> m.similarity < HighSimilarity;
    SelectOrder(hr, mr, maxResults);
  }

  /** A ranked bucket holds memories of its own quality, by combined score, highest first. */
  lemma BucketRanked(hits: seq<Hit>, hasDistances: bool, high: bool, rel: map<string, real>,
                     order: seq<string>, find: Finder)
    ensures var r := Ranked(MapSeq(Filter(Pool(hits, hasDistances), BucketBy(hasDistances, high)),
                                   ToMemoryBy(hasDistances, rel, order, find)));
      (forall m :: m in r ==> (high <==> m.similarity >= HighSimilarity)) &&
      ByCombined(r)
  {
    BucketAdmitted(hits, hasDistances, high, rel, order, find);
    RankedBucket(MapSeq(Filter(Pool(hits, hasDistances), BucketBy(hasDistances, high)),
                        ToMemoryBy(hasDistances, rel, order, find)));
  }

  /** Ranking a bucket keeps its members and orders them by combined score, highest first. */
  lemma RankedBucket(ms: seq<RelevantMemory>)
    ensures forall m :: m in Ranked(ms) <==> m in ms
    ensures ByCombined(Ranked(ms))
  {
    RankedMembers(ms);
    SortByKeyProperties(ms, CombinedOf);
  }

  /** Every memory of a bucket comes from an admitted candidate of the bucket's quality. */
  lemma BucketAdmitted(hits: seq<Hit>, hasDistances: bool, high: bool, rel: map<string, real>,
                       order: seq<string>, find: Finder)
    ensures forall m: RelevantMemory :: m in MapSeq(Filter(Pool(hits, hasDistances), BucketBy(hasDistances, high)),
                                                    ToMemoryBy(hasDistances, rel, order, find)) ==>
      m.baseImportance >= MinImportance && m.similarity >= SimilarityFloor &&
      (high <==> m.similarity >= HighSimilarity)
  {
    var f := ToMemoryBy(hasDistances, rel, order, find);
    var p := BucketBy(hasDistances, high);
    var admitted := Filter(hits, AdmittedBy(hasDistances));
    BucketMembers(Pool(hits, hasDistances), p, f);
    FilterMembers(hits, AdmittedBy(hasDistances));
    forall m: RelevantMemory | m in MapSeq(Filter(Pool(hits, hasDistances), p), f)
      ensures m.baseImportance >= MinImportance && m.similarity >= SimilarityFloor &&
        (high <==> m.similarity >= HighSimilarity)
    {
      var h :| h in Pool(hits, hasDistances) && p(h) && m == f(h);
      DedupByIn(admitted, DocKey, h);
      assert Admitted(h, hasDistances);
      assert m.baseImportance == BaseImportance(h) && m.similarity == Similarity(h, hasDistances);
    }
  }

  /** Sorting a bucket keeps its members. */
  lemma RankedMembers(ms: seq<RelevantMemory>)
    ensures forall m :: m in Ranked(ms) <==> m in ms
  {
    SortByKeyProperties(ms, CombinedOf);
    assert forall m :: m in Ranked(ms) <==> m in multiset(Ranked(ms));
  }

  /** A bucket holds the memories of the pool's candidates that pass its test. */
  lemma BucketMembers(pool: seq<Hit>, p: Hit -> bool, f: Hit -> RelevantMemory)
    ensures forall m :: m in MapSeq(Filter(pool, p), f) ==> exists h :: h in pool && p(h) && m == f(h)
  {
    FilterMembers(pool, p);
    MapSeqIndex(Filter(pool, p), f);
    forall m | m in MapSeq(Filter(pool, p), f) ensures exists h :: h in pool && p(h) && m == f(h) {
      var i :| 0 <= i < |MapSeq(Filter(pool, p), f)| && MapSeq(Filter(pool, p), f)[i] == m;
      assert Filter(pool, p)[i] in Filter(pool, p);
    }
  }

  /**
    The de-duplication: no two candidates of the pool share a document key,
    each is the first admitted candidate with its key, and every admitted
    candidate's key is represented.
  */
  lemma PoolDistinct(hits: seq<Hit>, hasDistances: bool)
    ensures DistinctBy(Pool(hits, hasDistances), DocKey)
    ensures var a := Filter(hits, AdmittedBy(hasDistances));
      forall h :: h in Pool(hits, hasDistances) ==> DocKey(h) in KeysOf(a, DocKey) && h == FirstWithKey(a, DocKey, DocKey(h))
    ensures forall h :: h in hits && Admitted(h, hasDistances) ==> DocKey(h) in KeysOf(Pool(hits, hasDistances), DocKey)
  {
    var a := Filter(hits, AdmittedBy(hasDistances));
    DedupByKeys(a, DocKey);
    DedupByKeepsFirst(a, DocKey);
    FilterMembers(hits, AdmittedBy(hasDistances));
    forall h | h in hits && Admitted(h, hasDistances) ensures DocKey(h) in KeysOf(Pool(hits, hasDistances), DocKey) {
      assert h in a;
    }
  }

  /** With relevances of at least zero, every memory's scores are consistent. */
  lemma MemoryScores(h: Hit, hasDistances: bool, rel: map<string, real>, order: seq<string>, find: Finder)
    requires Listing(order, rel.Keys)
    requires forall k :: k in rel ==> rel[k] >= 0.0
    ensures BoostConsistent(ToMemory(h, hasDistances, rel, order, find))
  {
    var m := ToMemory(h, hasDistances, rel, order, find);
    var ms := Matches(order, rel, MemoryNames(h.document, h.metadata, find));
    assert m.taskImportance == Boosted(m.baseImportance, Boost(ms));
    assert m.taskBoost == TaskBoost(m.taskImportance, m.baseImportance);
    assert Boost(ms) >= 0.0 by {
      MatchesMembers(order, rel, MemoryNames(h.document, h.metadata, find));
      BoostNonNegative(ms);
    }
    BoostFacts(m, Boost(ms));
  }

  /** A memory that mentions no relevant entity matches nothing and keeps its base importance. */
  lemma MemoryUnmatched(h: Hit, hasDistances: bool, rel: map<string, real>, order: seq<string>, find: Finder)
    requires Listing(order, rel.Keys)
    requires rel.Keys !! MemoryNames(h.document, h.metadata, find)
    ensures var m := ToMemory(h, hasDistances, rel, order, find);
      m.matched == [] && m.taskImportance == m.baseImportance && m.taskBoost == 1.0
  {
    var m := ToMemory(h, hasDistances, rel, order, find);
    var ms := Matches(order, rel, MemoryNames(h.document, h.metadata, find));
    assert ms == [] by {
      assert |ms| == 0 || ms[0] in ms;
      MatchesMembers(order, rel, MemoryNames(h.document, h.metadata, find));
    }
    assert m.taskImportance == Boosted(m.baseImportance, 0.0);
    assert m.taskBoost == TaskBoost(m.taskImportance, m.baseImportance);
    BoostFacts(m, 0.0);
  }

  /** The arithmetic of `base * (1 + boost)` and of `task_boost`. */
  lemma BoostFacts(m: RelevantMemory, boost: real)
    requires m.taskImportance == Boosted(m.baseImportance, boost)
    requires m.taskBoost == TaskBoost(m.taskImportance, m.baseImportance)
    requires boost >= 0.0
    ensures BoostConsistent(m)
    ensures boost == 0.0 ==> m.taskImportance == m.baseImportance && m.taskBoost == 1.0
  {
    var b := m.baseImportance;
    if b >= 0.0 {
      assert b * boost >= 0.0;
    }
    if boost == 0.0 && b > 0.0 {
      assert m.taskImportance == b;
      assert b / b == 1.0;
    }
  }

  /**
    A memory's task importance is never below a non-negative base, and
    `task_boost` is the ratio of the two (1.0 for a base that is not positive).
  */
  ghost predicate BoostConsistent(m: RelevantMemory)
  {
    (m.baseImportance >= 0.0 ==> m.taskImportance >= m.baseImportance) &&
    (m.baseImportance > 0.0 ==> m.taskBoost * m.baseImportance == m.taskImportance) &&
    (m.baseImportance <= 0.0 ==> m.taskBoost == 1.0)
  }

  /** With relevances of at least zero, every returned memory's scores are consistent. */
  lemma RelevantBoosts(hits: seq<Hit>, hasDistances: bool, rel: map<string, real>, order: seq<string>,
                       find: Finder, maxResults: int)
    requires Listing(order, rel.Keys)
    requires forall k :: k in rel ==> rel[k] >= 0.0
    ensures forall m :: m in RelevantFor(hits, hasDistances, rel, order, find, maxResults) ==> BoostConsistent(m)
  {
    var hb := HighBucket(hits, hasDistances, rel, order, find);
    var mb := MediumBucket(hits, hasDistances, rel, order, find);
    BucketBoosts(Pool(hits, hasDistances), BucketBy(hasDistances, true), hasDistances, rel, order, find);
    BucketBoosts(Pool(hits, hasDistances), BucketBy(hasDistances, false), hasDistances, rel, order, find);
    RankedMembers(hb);
    RankedMembers(mb);
    SelectFrom(Ranked(hb), Ranked(mb), maxResults);
  }

  lemma BucketBoosts(pool: seq<Hit>, p: Hit -> bool, hasDistances: bool, rel: map<string, real>, order: seq<string>,
                     find: Finder)
    requires Listing(order, rel.Keys)
    requires forall k :: k in rel ==> rel[k] >= 0.0
    ensures forall m: RelevantMemory :: m in MapSeq(Filter(pool, p), ToMemoryBy(hasDistances, rel, order, find)) ==>
      BoostConsistent(m)
  {
    var f := ToMemoryBy(hasDistances, rel, order, find);
    BucketMembers(pool, p, f);
    forall m: RelevantMemory | m in MapSeq(Filter(pool, p), f) ensures BoostConsistent(m) {
      var h :| h in pool && p(h) && m == f(h);
      MemoryScores(h, hasDistances, rel, order, find);
    }
  }

  /** The relevance dictionary of a query holds only 1.0, 0.5 and 0.25. */
  lemma QueryRelevanceValues(g: DiGraph, queryText: string, find: Finder)
    ensures forall k :: k in QueryRelevance(g, queryText, find) ==> QueryRelevance(g, queryText, find)[k] >= 0.25
  {
    if TaskNames(queryText, find) != {} {
      RelevanceValues(g, TaskNames(queryText, find));
    }
  }

  /** `document.strip().lower()` of a memory. */
  function MemKey(m: RelevantMemory): string
  {
    Lower(Strip(m.summary.text, IsSpace))
  }

  /** No two returned memories share a trimmed, lower-cased document. */
  lemma RelevantDistinct(hits: seq<Hit>, hasDistances: bool, rel: map<string, real>, order: seq<string>,
                         find: Finder, maxResults: int)
    ensures DistinctBy(RelevantFor(hits, hasDistances, rel, order, find, maxResults), MemKey)
  {
    var hb := HighBucket(hits, hasDistances, rel, order, find);
    var mb := MediumBucket(hits, hasDistances, rel, order, find);
    BucketDistinct(hits, hasDistances, true, rel, order, find);
    BucketDistinct(hits, hasDistances, false, rel, order, find);
    DistinctByPerm(hb, Ranked(hb), MemKey);
    DistinctByPerm(mb, Ranked(mb), MemKey);
    BucketsApart(hits, hasDistances, rel, order, find);
    RankedMembers(hb);
    RankedMembers(mb);
    SelectDistinct(Ranked(hb), Ranked(mb), maxResults, MemKey);
  }

  lemma BucketDistinct(hits: seq<Hit>, hasDistances: bool, high: bool, rel: map<string, real>, order: seq<string>,
                       find: Finder)
    ensures DistinctBy(MapSeq(Filter(Pool(hits, hasDistances), BucketBy(hasDistances, high)),
                              ToMemoryBy(hasDistances, rel, order, find)), MemKey)
  {
    var pool := Pool(hits, hasDistances);
    PoolDistinct(hits, hasDistances);
    DistinctByFilter(pool, BucketBy(hasDistances, high), DocKey);
    var f := ToMemoryBy(hasDistances, rel, order, find);
    var s := Filter(pool, BucketBy(hasDistances, high));
    forall h | h in s ensures MemKey(f(h)) == DocKey(h) {
      assert f(h).summary.text == h.document;
    }
    DistinctByMap(s, f, DocKey, MemKey);
  }

  /** A high-quality and a medium memory never share a document key. */
  lemma BucketsApart(hits: seq<Hit>, hasDistances: bool, rel: map<string, real>, order: seq<string>, find: Finder)
    ensures forall x, y ::
      (x in HighBucket(hits, hasDistances, rel, order, find) && y in MediumBucket(hits, hasDistances, rel, order, find))
      ==> MemKey(x) != MemKey(y)
  {
    var pool := Pool(hits, hasDistances);
    var f := ToMemoryBy(hasDistances, rel, order, find);
    PoolDistinct(hits, hasDistances);
    BucketMembers(pool, BucketBy(hasDistances, true), f);
    BucketMembers(pool, BucketBy(hasDistances, false), f);
    forall x, y | x in HighBucket(hits, hasDistances, rel, order, find) &&
      y in MediumBucket(hits, hasDistances, rel, order, find)
      ensures MemKey(x) != MemKey(y)
    {
      var hx :| hx in pool && BucketBy(hasDistances, true)(hx) && x == f(hx);
      var hy :| hy in pool && BucketBy(hasDistances, false)(hy) && y == f(hy);
      assert IsHigh(hx, hasDistances) && !IsHigh(hy, hasDistances);
      DistinctByApart(pool, DocKey, hx, hy);
      assert x.summary.text == hx.document && y.summary.text == hy.document;
    }
  }

  /** The choice keeps the keys distinct when the two buckets share none. */
  lemma SelectDistinct<T, K>(high: seq<T>, medium: seq<T>, maxResults: int, key: T -> K)
    requires DistinctBy(high, key) && DistinctBy(medium, key)
    requires forall x, y :: x in high && y in medium ==> key(x) != key(y)
    ensures DistinctBy(Select(high, medium, maxResults), key)
  {
    SelectShape(high, medium, maxResults);
    var a, b :| 0 <= a <= |high| && 0 <= b <= |medium| &&
      Select(high, medium, maxResults) == high[..a] + medium[..b];
    assert DistinctBy(high[..a], key) by {
      forall i, j | 0 <= i < j < a ensures key(high[..a][i]) != key(high[..a][j]) {
        assert high[..a][i] == high[i] && high[..a][j] == high[j];
      }
    }
    assert DistinctBy(medium[..b], key) by {
      forall i, j | 0 <= i < j < b ensures key(medium[..b][i]) != key(medium[..b][j]) {
        assert medium[..b][i] == medium[i] && medium[..b][j] == medium[j];
      }
    }
    forall x, y | x in high[..a] && y in medium[..b] ensures key(x) != key(y) {
      assert x in high && y in medium;
    }
    DistinctByConcat(high[..a], medium[..b], key);
  }

  // ---------------------------------------------------------------------
  // Important recent memories
  // ---------------------------------------------------------------------

  /** One recent memory: its id and summary. */
  datatype RecentMemory = RecentMemory(id: string, summary: Summary)

  /** A row is shown when its importance (0.0 when absent) is at least 5.0. */
  predicate Important(row: StoredMemory)
  {
    GetOr(row.metadata.importanceScore, 0.0) >= MinImportance
  }

  function ToRecent(row: StoredMemory): RecentMemory
  {
    RecentMemory(row.id, SmartSummary(row.metadata, row.document))
  }

  function TimestampOf(m: RecentMemory): string
  {
    m.summary.timestamp
  }

  /** The important rows, newest timestamp string first (stable), the first `n` of them. */
  function RecentFor(rows: seq<StoredMemory>, n: int): seq<RecentMemory>
  {
    PyPrefix(SortDesc(MapSeq(Filter(rows, Important), ToRecent), ByStringKey(TimestampOf)), n)
  }

  /**
    `get_important_recent_memories`: the session's rows (at most 1000, as
    the store is asked for), the important ones summarised, sorted by
    timestamp and cut to `n`. A store call that raised gives `[]`.
  */
  method GetImportantRecentMemories(store: Option<seq<StoredMemory>>, sessionId: string, n: int)
    returns (r: seq<RecentMemory>)
    ensures store.None? ==> r == []
    ensures store.Some? ==> r == RecentFor(Take(SessionRows(store.value, sessionId), RecentLimit), n)
  {
    if store.None? {
      return [];
    }
    var rows := Take(SessionRows(store.value, sessionId), RecentLimit);
    if rows == [] {
      return [];
    }
    var memories: seq<RecentMemory> := [];
    for i := 0 to |rows|
      invariant memories == MapSeq(Filter(rows[..i], Important), ToRecent)
    {
      assert Init(rows[..i + 1]) == rows[..i] && Last(rows[..i + 1]) == rows[i];
      var importance := GetOr(rows[i].metadata.importanceScore, 0.0);
      if importance >= MinImportance {
        var summary := SmartSummary(rows[i].metadata, rows[i].document);
        ghost var kept := Filter(rows[..i], Important);
        assert Init(kept + [rows[i]]) == kept && Last(kept + [rows[i]]) == rows[i];
        memories := memories + [RecentMemory(rows[i].id, summary)];
      }
    }
    assert rows[..|rows|] == rows;
    memories := SortDesc(memories, ByStringKey(TimestampOf));
    r := PyPrefix(memories, n);
  }

  /**
    At most `n` recent memories, each of importance at least 5.0 and of
    the session's rows, newest timestamp string first.
  */
  lemma RecentShape(rows: seq<StoredMemory>, n: int)
    ensures var r := RecentFor(rows, n);
      (n >= 0 ==> |r| <= n) &&
      (forall m :: m in r ==> m.summary.importance >= MinImportance) &&
      (forall m :: m in r ==> exists row :: row in rows && m == ToRecent(row)) &&
      (forall i, j :: 0 <= i < j < |r| ==> LexLe(TimestampOf(r[j]), TimestampOf(r[i])))
  {
    var ms := MapSeq(Filter(rows, Important), ToRecent);
    var sorted := SortDesc(ms, ByStringKey(TimestampOf));
    var r := RecentFor(rows, n);
    ByStringKeyIsTotalPreorder(TimestampOf);
    SortDescSorted(ms, ByStringKey(TimestampOf));
    FilterMembers(rows, Important);
    MapSeqIndex(Filter(rows, Important), ToRecent);
    forall m | m in r ensures m in ms {
      assert m in multiset(sorted);
    }
    forall m | m in ms ensures m.summary.importance >= MinImportance && exists row :: row in rows && m == ToRecent(row) {
      var i :| 0 <= i < |ms| && ms[i] == m;
      assert Filter(rows, Important)[i] in Filter(rows, Important);
    }
    forall i, j | 0 <= i < j < |r| ensures LexLe(TimestampOf(r[j]), TimestampOf(r[i])) {
      assert r[i] == sorted[i] && r[j] == sorted[j];
      assert ByStringKey(TimestampOf)(sorted[i], sorted[j]);
    }
  }

  /**
    Nothing newer is left out: an important row missing from the result
    means `n` memories were returned, none with an older timestamp.
  */
  lemma RecentComplete(rows: seq<StoredMemory>, n: nat, row: StoredMemory)
    requires row in rows && Important(row) && ToRecent(row) !in RecentFor(rows, n)
    ensures |RecentFor(rows, n)| == n
    ensures forall m :: m in RecentFor(rows, n) ==> LexLe(TimestampOf(ToRecent(row)), TimestampOf(m))
  {
    var kept := Filter(rows, Important);
    var ms := MapSeq(kept, ToRecent);
    var sorted := SortDesc(ms, ByStringKey(TimestampOf));
    ByStringKeyIsTotalPreorder(TimestampOf);
    SortDescSorted(ms, ByStringKey(TimestampOf));
    FilterMembers(rows, Important);
    MapSeqIndex(kept, ToRecent);
    var i :| 0 <= i < |kept| && kept[i] == row;
    assert ms[i] == ToRecent(row);
    assert ToRecent(row) in multiset(sorted);
    TopKeepsBy(sorted, ByStringKey(TimestampOf), n, ToRecent(row));
  }

  // ---------------------------------------------------------------------
  // The rendered context
  // ---------------------------------------------------------------------

  /** The relevant memories `format_enhanced_context` renders: those whose id is not among the recent ones. */
  function UniqueRelevant(recent: seq<RecentMemory>, relevant: seq<RelevantMemory>): (r: seq<RelevantMemory>)
  {
    Filter(relevant, (m: RelevantMemory) => forall x :: x in recent ==> x.id != m.id)
  }

  /**
    No rendered relevant memory repeats a recent id, every relevant memory
    with a new id is rendered, and they keep their order.
  */
  lemma UniqueRelevantSound(recent: seq<RecentMemory>, relevant: seq<RelevantMemory>)
    ensures forall m, x :: m in UniqueRelevant(recent, relevant) && x in recent ==> m.id != x.id
    ensures forall m :: m in relevant && (forall x :: x in recent ==> x.id != m.id) ==> m in UniqueRelevant(recent, relevant)
    ensures Subseq(UniqueRelevant(recent, relevant), relevant)
  {
    FilterMembers(relevant, (m: RelevantMemory) => forall x :: x in recent ==> x.id != m.id);
  }

  // ---------------------------------------------------------------------
  // The knowledge-graph cache
  // ---------------------------------------------------------------------

  /**
    The module globals `_kg_cache` and `_kg_cache_time`. The clock reading
    and the PageRank computation are parameters.
  */
  class GraphCache {
    var cache: Option<MemoryKnowledgeGraph>
    var cacheTime: real

    ghost predicate Valid()
      reads this, if cache.Some? then {cache.value} else {}
    {
      cache.Some? ==> cache.value.Valid()
    }

    constructor()
      ensures Valid()
      ensures cache == None && cacheTime == 0.0
    {
      cache := None;
      cacheTime := 0.0;
    }

    /**
      `get_or_build_knowledge_graph`: the cached graph while it is under
      five minutes old, otherwise a graph built afresh from all the rows
      and scored, which becomes the cache.
    */
    method GetOrBuildKnowledgeGraph(currentTime: real, rows: Option<seq<StoredMemory>>, find: Finder,
                                    pagerank: DiGraph -> Option<map<string, real>>)
      returns (kg: MemoryKnowledgeGraph)
      requires Valid()
      requires forall g :: pagerank(g).Some? ==> pagerank(g).value.Keys == g.nodes.Keys
      modifies this
      ensures Valid() && kg.Valid()
      ensures old(cache).Some? && currentTime - old(cacheTime) < CacheTtl ==>
        kg == old(cache).value && cache == old(cache) && cacheTime == old(cacheTime) && unchanged(kg)
      ensures !(old(cache).Some? && currentTime - old(cacheTime) < CacheTtl) ==>
        fresh(kg) && cache == Some(kg) && cacheTime == currentTime &&
        kg.graph == (if rows.Some? && rows.value != [] then BuiltGraph(rows.value, find) else EmptyGraph) &&
        kg.entityToMemories == (if rows.Some? && rows.value != [] then IndexRows(map[], rows.value, find) else map[]) &&
        (kg.graph.nodes != map[] && pagerank(kg.graph).Some? ==> kg.pagerankScores == pagerank(kg.graph).value) &&
        (kg.graph.nodes != map[] && pagerank(kg.graph).None? ==>
          kg.pagerankScores.Keys == kg.graph.nodes.Keys && forall n :: n in kg.pagerankScores ==> kg.pagerankScores[n] == 1.0) &&
        (kg.graph.nodes == map[] ==> kg.pagerankScores == map[])
    {
      if cache.Some? && currentTime - cacheTime < CacheTtl {
        return cache.value;
      }
      kg := new MemoryKnowledgeGraph();
      kg.BuildFromMemories(rows, find);
      kg.ComputeCentrality(pagerank(kg.graph));
      cache := Some(kg);
      cacheTime := currentTime;
    }
  }
}
