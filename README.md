# Memory hooks: retrieval and eviction core, in Dafny

This project models the part of the memory hooks that turns stored memory
records into a ranked, variable-size selection for a new session and keeps
each session's store bounded. It covers seven components, one Dafny module
each, plus two shared modules:

- `Support` (support.dfy): an Option type, Python's clamped slices, `in` on
  strings, order-preserving filtering and de-duplication, the stable
  descending sort behind `list.sort(key=..., reverse=True)`, and sums over
  dictionary values.
- `MemoryRecords` (memory_records.dfy): a stored row (id, document, metadata,
  embedding), the metadata keys the hooks read, the session filter of the
  store, and the age of a timestamp in whole days.
- `EntityExtractor` (entity_extractor.dfy):
  seven pattern families give typed entities with a fixed confidence and a
  bounded context. Entities are de-duplicated by (type, lower-cased name).
  Four rules derive relationships from name-in-context containment.
- `KnowledgeGraph` (knowledge_graph.dfy): the class `MemoryKnowledgeGraph`,
  whose graph, entity-to-memory index and PageRank scores are updated in
  place. It includes the node and edge loops with their access and
  co-occurrence counters, the breadth-first search over successors and
  predecessors (proved to return exactly the nodes within `max_hops`
  undirected steps), the importance boost, the top-entity selection and the
  statistics.
- `TaskContextScoring` (task_context_scorer.dfy): the relevance map (1.0,
  0.5, 0.25 by graph distance, merged by maximum) and the task importance
  `base * (1 + sum of matched relevances)`. A Python dictionary is a `map`
  plus the sequence of its keys in insertion order.
- `MemoryScorer` (memory_scorer.dfy): ten signals summed into a score, the
  recency decay, the four tiers, and `score_chunks`.
- `SessionStartInjector` (sessionstart_memory_injector.dfy): admission,
  de-duplication, task-context scoring, the two quality buckets and the
  adaptive-K choice; the important recent memories; the five-minute graph
  cache (the class `GraphCache` holds the module globals); and the id
  de-duplication of the rendered context.
- `MemoryPruning` (memory_pruner.dfy): the three-stage eviction cascade (old
  and unimportant, near-duplicate, over capacity), dry run and execution,
  and the pass over all sessions. The class `MemoryPruner` holds the store
  snapshot, which an executed pass replaces.
- `MemoryClustering` (memory_clustering.dfy): grouping by the labels a
  clustering assigns, keyword-and-files summaries, and the parent/child rule
  of the cluster hierarchy.

Every loop of the source that the model covers is a Dafny method with a
loop, proved against a specification function; the properties the hooks
promise are proved as lemmas about those functions.

Everything outside the program is a parameter:
- the store is a sequence of rows, or `None` when it could not be opened;
- each regular-expression family is an abstract matcher (`Finder` for the
  entity patterns, `Search` for the scorer's patterns);
- the clock is a parameter, with a timestamp parser;
- the recency decay `0.5 ** (days / 30)` is a function `decay`;
- PageRank, the cosine similarity of two embeddings, the clustering's
  labels and the distance between cluster centroids are all parameters.

## Model

| member | source | states |
|---|---|---|
| EntityExtractor.ContextOf | claude-memory-system/hooks/entity_extractor.py:111 | the context is a contiguous slice of the text, no longer than the match plus the window on each side |
| EntityExtractor.MakeEntity | claude-memory-system/hooks/entity_extractor.py:104-184 | an entity carries its family's type and fixed confidence (between 0 and 1), a context slice inside the family's window, and for BUG and DECISION the matched text cut to 100 characters |
| EntityExtractor.ExtractEntities | claude-memory-system/hooks/entity_extractor.py:98-186 | the loops over families, patterns and matches return exactly the entities of every match of every pattern, family by family |
| EntityExtractor.MatchesToEntities | claude-memory-system/hooks/entity_extractor.py:105-113 | one entity per match of a pattern, in match order |
| EntityExtractor.MatchEntitiesMembers | claude-memory-system/hooks/entity_extractor.py:105-113 | an entity comes from a pattern's matches exactly when it is the entity of one of them |
| EntityExtractor.PatternEntitiesMembers | claude-memory-system/hooks/entity_extractor.py:104-105 | an entity comes from a family's first n patterns exactly when one of those patterns has a match yielding it |
| EntityExtractor.FamiliesEntitiesMembers | claude-memory-system/hooks/entity_extractor.py:98-186 | an entity comes from a list of families exactly when a pattern of one of them has a match yielding it |
| EntityExtractor.EntitiesAreMatches | claude-memory-system/hooks/entity_extractor.py:98-186 | an entity is extracted exactly when some pattern matches and yields it; each has its family's confidence and a context that is a slice of the text |
| EntityExtractor.NoMatchNoEntities | claude-memory-system/hooks/entity_extractor.py:98-186 | text on which no pattern matches yields no entities |
| EntityExtractor.NoMatchFamilies | claude-memory-system/hooks/entity_extractor.py:103-184 | no matches, no entities from any list of families |
| EntityExtractor.NoMatchPatterns | claude-memory-system/hooks/entity_extractor.py:104-105 | no matches, no entities from any prefix of a family's patterns |
| EntityExtractor.MatchEntitiesTyped | claude-memory-system/hooks/entity_extractor.py:108-109 | every entity of a pattern has that pattern's family as its type |
| EntityExtractor.PatternEntitiesTyped | claude-memory-system/hooks/entity_extractor.py:104-113 | every entity of a family has that family as its type |
| EntityExtractor.FamiliesEntitiesOrdered | claude-memory-system/hooks/entity_extractor.py:103-184 | the entities of the first f families come grouped in family order, each from one of those families |
| EntityExtractor.EntitiesInFamilyOrder | claude-memory-system/hooks/entity_extractor.py:103-184 | the output is grouped by family: FILE, FUNCTION, CLASS, BUG, FEATURE, DECISION, TOOL |
| EntityExtractor.ExtractRelationships | claude-memory-system/hooks/entity_extractor.py:188-249 | the four nested passes (MODIFIES, FIXES, USES, IMPLEMENTS) return exactly the relationships of the rules, pass by pass |
| EntityExtractor.RowMembers | claude-memory-system/hooks/entity_extractor.py:200-207 | one inner loop emits a relationship exactly for each other entity on which the pass's rule fires |
| EntityExtractor.PassMembers | claude-memory-system/hooks/entity_extractor.py:197-207 | one pass emits a relationship exactly for each pair of entities on which its rule fires |
| EntityExtractor.KindsMembers | claude-memory-system/hooks/entity_extractor.py:196-247 | a list of passes emits exactly the relationships of its passes' rules |
| EntityExtractor.RelationshipsAreRules | claude-memory-system/hooks/entity_extractor.py:188-249 | a relationship is emitted exactly when a rule fires on a pair of entities; its kind fixes its confidence; its endpoints are entity names; a FIXES edge goes from a FEATURE to a BUG name cut to 50 characters |
| EntityExtractor.NoEntitiesNoRelationships | claude-memory-system/hooks/entity_extractor.py:188-249 | no entities, no relationships |
| EntityExtractor.DeduplicateEntities | claude-memory-system/hooks/entity_extractor.py:251-263 | the loop with its `seen` set keeps the first entity of each (type, lower-cased name) key, in input order |
| EntityExtractor.DedupEntitiesProperties | claude-memory-system/hooks/entity_extractor.py:251-263 | the kept entities have distinct keys, cover every key of the input, are each the first entity with their key, and stand in input order |
| EntityExtractor.EntitiesFromMemory | claude-memory-system/hooks/entity_extractor.py:266-279 | the entities of a memory are extracted from its document plus intent, action and outcome, have distinct keys, and the relationships are exactly the rules firing among them |
| EntityExtractor.ExtractEntitiesFromMemory | claude-memory-system/hooks/entity_extractor.py:266-279 | runs extraction, de-duplication and relationship extraction in turn, giving the result above |
| KnowledgeGraph.AddNodeWf | claude-memory-system/hooks/knowledge_graph.py:112-123 | one node step keeps the graph well formed, adds exactly the entity's name as a node and leaves the edges alone |
| KnowledgeGraph.AddNodesShape | claude-memory-system/hooks/knowledge_graph.py:112-123 | the node loop keeps the graph well formed; afterwards the node names are the old ones plus the entity names, and the edges are unchanged |
| KnowledgeGraph.AddNodesExisting | claude-memory-system/hooks/knowledge_graph.py:120-123 | a node already present keeps its type and confidence and gains one access for every entity with its name |
| KnowledgeGraph.AddNodesAbsent | claude-memory-system/hooks/knowledge_graph.py:112-119 | a name neither present nor among the entities does not become a node |
| KnowledgeGraph.AddNodesFresh | claude-memory-system/hooks/knowledge_graph.py:113-123 | a new node takes the type and confidence of the first entity with its name; its access count is the number of memories indexed under the name plus one for each repeat of the name |
| KnowledgeGraph.AddNodesLaw | claude-memory-system/hooks/knowledge_graph.py:112-123 | the node loop's whole effect: one node per distinct name, existing nodes bumped by the name's count, new nodes set from the first entity; edges untouched |
| KnowledgeGraph.AddEdgesHas | claude-memory-system/hooks/knowledge_graph.py:126-138 | an edge exists after the loop exactly when it existed before, or some relationship joins two existing nodes that way |
| KnowledgeGraph.AddEdgesExisting | claude-memory-system/hooks/knowledge_graph.py:128-130 | an existing edge gains one co-occurrence per relationship along it and keeps its type and confidence |
| KnowledgeGraph.AddEdgesFresh | claude-memory-system/hooks/knowledge_graph.py:131-138 | a new edge takes the first relationship's type and confidence, and its co-occurrence counts every relationship along it |
| KnowledgeGraph.AddEdgesLaw | claude-memory-system/hooks/knowledge_graph.py:126-138 | the edge loop's whole effect: nodes unchanged, an edge for each relationship between two nodes, counted co-occurrences; relationships to missing nodes are dropped |
| KnowledgeGraph.PairCountPositive | claude-memory-system/hooks/knowledge_graph.py:126-138 | a new edge's co-occurrence is at least one |
| KnowledgeGraph.IndexMemory | claude-memory-system/hooks/knowledge_graph.py:84-87 | the inner loop appends the memory id under each entity's name, in order, creating a list for a name not yet indexed |
| KnowledgeGraph.IndexEntitiesAppends | claude-memory-system/hooks/knowledge_graph.py:84-87 | indexing appends to whatever the index already held under each name, and a name of an extracted entity receives at least one id |
| KnowledgeGraph.IndexRowsAppends | claude-memory-system/hooks/knowledge_graph.py:80-87 | over all memories, each name's list is the old list followed by the ids of this build: a rebuild on the same object does not start over |
| KnowledgeGraph.IndexRowsCovers | claude-memory-system/hooks/knowledge_graph.py:80-87 | every name of an extracted entity has at least one memory id indexed |
| KnowledgeGraph.RebuildDoublesIndex | claude-memory-system/hooks/knowledge_graph.py:80-87 | building twice from the same memories on one object lists every memory id twice under each name |
| KnowledgeGraph.FreshBuildAccessCounts | claude-memory-system/hooks/knowledge_graph.py:80-123 | after a build on a fresh object the graph is well formed and every node has an access count of at least one |
| KnowledgeGraph.BallMono | claude-memory-system/hooks/knowledge_graph.py:217-243 | the set reachable within i steps grows with i |
| KnowledgeGraph.BallStep | claude-memory-system/hooks/knowledge_graph.py:235-241 | a neighbour (successor or predecessor) of a node within k steps is within k + 1 steps |
| KnowledgeGraph.BallPred | claude-memory-system/hooks/knowledge_graph.py:235-241 | a node first reached at k + 1 steps is a node adjacent to one reached within k |
| KnowledgeGraph.RelatedEmpty | claude-memory-system/hooks/knowledge_graph.py:220-232 | a name that is not a node, or a hop limit of zero or less, relates to nothing |
| KnowledgeGraph.RelatedAreNodes | claude-memory-system/hooks/knowledge_graph.py:224-243 | the related set holds only nodes and never the starting entity |
| KnowledgeGraph.DepthIsDistance | claude-memory-system/hooks/knowledge_graph.py:226-241 | a recorded depth is the first radius at which the node is reachable, hence no larger than any radius reaching it |
| KnowledgeGraph.VisitNeighbors | claude-memory-system/hooks/knowledge_graph.py:235-241 | the neighbour loop marks and queues every unvisited successor or predecessor one hop further, keeping the search invariant; unvisited nodes plus queue length stay constant |
| KnowledgeGraph.SearchStart | claude-memory-system/hooks/knowledge_graph.py:224-226 | the initial visited set, queue and depth satisfy the search invariant |
| KnowledgeGraph.SearchSkip | claude-memory-system/hooks/knowledge_graph.py:229-232 | popping an entry at the hop limit keeps the search invariant |
| KnowledgeGraph.SearchAdmit | claude-memory-system/hooks/knowledge_graph.py:238-241 | admitting an unvisited neighbour keeps the search invariant, recording it at one hop more |
| KnowledgeGraph.SearchEnd | claude-memory-system/hooks/knowledge_graph.py:228-243 | once the queue is empty, the related set is exactly the nodes within max_hops undirected steps, other than the start |
| KnowledgeGraph.SearchResult | claude-memory-system/hooks/knowledge_graph.py:228-243 | at the end of the search the visited set is exactly the ball of radius max_hops around the start |
| KnowledgeGraph.ScoredItemsMembers | claude-memory-system/hooks/knowledge_graph.py:204-210 | the scored items are exactly the (node, score) pairs of the PageRank map |
| KnowledgeGraph.TopEntitiesFacts | claude-memory-system/hooks/knowledge_graph.py:204-215 | the top entities are in descending score order with distinct names, each scored and of the requested type; no dropped candidate outscores a kept one; there are min(limit, candidates) of them, or all but the last -limit for a negative limit |
| KnowledgeGraph.TopEntitiesShape | claude-memory-system/hooks/knowledge_graph.py:204-215 | any reordering of the filtered items, cut at `limit`, has distinct names and min(limit, candidates) entries, or all but the last -limit for a negative limit |
| KnowledgeGraph.TopEntitiesSpec | claude-memory-system/hooks/knowledge_graph.py:197-215 | on a well-formed graph the ranking is by score descending with distinct names, each entry a scored node of the requested type, and no dropped candidate outscores a kept one |
| KnowledgeGraph.TopEntitiesSize | claude-memory-system/hooks/knowledge_graph.py:197-215 | on a well-formed graph the ranking keeps min(limit, candidates) entries, or all but the last -limit for a negative limit |
| KnowledgeGraph.TopEntitiesCount | claude-memory-system/hooks/knowledge_graph.py:204-210 | the filtered items name each scored node of the requested type exactly once |
| KnowledgeGraph.ScoredItemsDistinct | claude-memory-system/hooks/knowledge_graph.py:210 | `pagerank_scores.items()` never names a node twice |
| KnowledgeGraph.TopEntityCandidate | claude-memory-system/hooks/knowledge_graph.py:204-210 | every scored node of the requested type is a candidate of the sort |
| KnowledgeGraph.TypeCountsSum | claude-memory-system/hooks/knowledge_graph.py:257-260 | the type counts add up to the number of nodes counted |
| KnowledgeGraph.MemoryKnowledgeGraph.constructor | claude-memory-system/hooks/knowledge_graph.py:35-40 | a new object holds an empty graph, an empty index and no PageRank scores |
| KnowledgeGraph.MemoryKnowledgeGraph.BuildFromMemories | claude-memory-system/hooks/knowledge_graph.py:42-106 | no memories leaves everything as it was; otherwise the index gains every memory id under its entities' names and the graph gains the nodes and edges of all extracted entities and relationships; PageRank scores are untouched |
| KnowledgeGraph.MemoryKnowledgeGraph.BuildGraphFromEntities | claude-memory-system/hooks/knowledge_graph.py:108-138 | the graph becomes the node loop followed by the edge loop applied to the old graph, reading the access counts from the index |
| KnowledgeGraph.MemoryKnowledgeGraph.ComputeCentrality | claude-memory-system/hooks/knowledge_graph.py:140-175 | an empty graph keeps the old scores; otherwise the scores are the PageRank result, or 1.0 for every node when PageRank fails |
| KnowledgeGraph.MemoryKnowledgeGraph.GetEntityImportance | claude-memory-system/hooks/knowledge_graph.py:177-195 | an unscored entity keeps its base; a scored one gets base times (1 + 10 × PageRank), never below the base when both are non-negative |
| KnowledgeGraph.MemoryKnowledgeGraph.GetTopEntities | claude-memory-system/hooks/knowledge_graph.py:197-215 | no scores gives nothing; min(limit, candidates) entries (all but the last -limit for a negative limit), by score descending, with distinct names, each scored and of the requested type, and no omitted entity of that type scores above a returned one |
| KnowledgeGraph.MemoryKnowledgeGraph.DefaultEntityImportance | claude-memory-system/hooks/knowledge_graph.py:177-195 | with the default base of 10, an unscored entity gets 10 and each unit of PageRank adds 100 |
| KnowledgeGraph.MemoryKnowledgeGraph.DefaultTopEntities | claude-memory-system/hooks/knowledge_graph.py:197-215 | with the default limit, the 20 best-scored candidates (all of them when fewer), by score descending, with distinct names |
| KnowledgeGraph.MemoryKnowledgeGraph.GetRelatedEntities | claude-memory-system/hooks/knowledge_graph.py:217-243 | the breadth-first search returns exactly the nodes within max_hops undirected steps of the entity, excluding the entity itself |
| KnowledgeGraph.TypeCountsTotal | claude-memory-system/hooks/knowledge_graph.py:257-265 | on a well-formed graph the per-type counts add up to the number of nodes |
| KnowledgeGraph.MemoryKnowledgeGraph.GetStatistics | claude-memory-system/hooks/knowledge_graph.py:250-268 | an empty graph gives the error; otherwise the node and edge counts and per-type node counts that add up to the node count |
| TaskContextScoring.VisitRelevance | hooks/task_context_scorer.py:63-78 | one task entity's turn takes the relevance map for the entities before it to the map for the entities including it |
| TaskContextScoring.VisitsIsRelevance | hooks/task_context_scorer.py:61-80 | the loop over task entities yields, whatever their order, 1.0 for a task entity that is a node, else 0.5 for a node one step from one, else 0.25 for a node two steps from one, and nothing else |
| TaskContextScoring.NearMono | hooks/task_context_scorer.py:69-78 | a node one step from a task entity is also within two steps, so the 0.25 pass never lowers a 0.5 |
| TaskContextScoring.RelevanceValues | hooks/task_context_scorer.py:61-80 | every relevance is 1.0, 0.5 or 0.25, and only graph nodes have one |
| TaskContextScoring.RaiseAll | hooks/task_context_scorer.py:70-78 | the inner loop sets each listed neighbour to the value when it is missing or lower, and appends first-time names to the dictionary's key order |
| TaskContextScoring.ListingCard | hooks/task_context_scorer.py:48 | a list of distinct names is as long as the set of those names |
| TaskContextScoring.MatchesMembers | hooks/task_context_scorer.py:115-118 | the matched pairs are exactly the dictionary entries whose names the memory mentions, each once |
| TaskContextScoring.MatchesBoostSum | hooks/task_context_scorer.py:112-117 | the task boost is the sum of the relevances of the entities the memory mentions, whatever the dictionary order |
| TaskContextScoring.BoostNonNegative | hooks/task_context_scorer.py:112-117 | non-negative relevances give a non-negative boost |
| TaskContextScoring.TaskImportanceUnboosted | hooks/task_context_scorer.py:115-121 | a memory mentioning no relevant entity keeps its base importance, and a zero base stays zero |
| TaskContextScoring.TaskImportanceGrows | hooks/task_context_scorer.py:115-121 | with non-negative relevances and base, scoring never lowers a memory's importance |
| TaskContextScoring.ScoreAllIndex | hooks/task_context_scorer.py:155-158 | every memory is scored on its own, one entry per memory, in input order |
| TaskContextScoring.ScoreAllEntries | hooks/task_context_scorer.py:155-158 | each entry keeps its document, metadata and base, and its task importance is base × (1 + sum of the relevances it mentions) |
| TaskContextScoring.EntityScoresMembers | hooks/task_context_scorer.py:176-184 | the summary entries are exactly one per related entity, with pagerank 0.0 when unscored and type unknown when not a node |
| TaskContextScoring.SummaryTop | hooks/task_context_scorer.py:186-192 | the first 20 after sorting by relevance are ordered, each the entry of a different related entity, and a related entity is missing only when 20 at least as relevant are listed |
| TaskContextScoring.EntityScoresDistinct | hooks/task_context_scorer.py:175-184 | the entries of the related entities carry distinct names |
| TaskContextScoring.MatchNames | hooks/task_context_scorer.py:112-118 | the loop returns the dictionary entries the memory mentions, in key order, and their summed relevance |
| TaskContextScoring.ScoreEntities | hooks/task_context_scorer.py:176-184 | the loop builds one entry per related entity, in dictionary order |
| TaskContextScoring.TaskContextScorer.constructor | hooks/task_context_scorer.py:37-39 | the scorer keeps the graph it was given |
| TaskContextScoring.TaskContextScorer.ExtractTaskEntities | hooks/task_context_scorer.py:41-48 | the result lists each distinct name of the query's extracted entities exactly once |
| TaskContextScoring.TaskContextScorer.FindRelatedEntities | hooks/task_context_scorer.py:50-80 | the relevance dictionary is exactly the layered map (1.0, 0.5, 0.25) of the task entities, and its key order lists its keys once each; max_hops is ignored as in the source |
| TaskContextScoring.TaskContextScorer.ScoreMemoryForTask | hooks/task_context_scorer.py:82-123 | the matched entities are the dictionary entries found in the document, intent and action, and the task importance is base × (1 + their summed relevance) |
| TaskContextScoring.TaskContextScorer.ScoreEach | hooks/task_context_scorer.py:155-158 | every memory is scored, in input order |
| TaskContextScoring.TaskContextScorer.ScoreMemoriesForTask | hooks/task_context_scorer.py:125-163 | one result per memory; without task entities every memory keeps its base and matches nothing; otherwise the scored memories are stably sorted by task importance, descending |
| TaskContextScoring.TaskContextScorer.GetTaskContextSummary | hooks/task_context_scorer.py:165-194 | the summary holds the query, the distinct task entities, the count of related entities, and the top 20 related entities as above |
| MemoryScorer.ToolTerm | claude-memory-system/hooks/memory_scorer.py:95-98 | the tool term lies in [0, 15]: 0 without tool uses, 3 per use for one to four uses, 15 from five uses on |
| MemoryScorer.AddSignal | claude-memory-system/hooks/memory_scorer.py:56-59 | the loop over a signal's expressions, stopping at the first match, adds the signal's weight exactly when one of them matches the signal's text |
| MemoryScorer.SignalScore | claude-memory-system/hooks/memory_scorer.py:41-110 | steps 1 to 9 add up to the weights of the signals that fire, each once, plus the tool term |
| MemoryScorer.ScoreChunk | claude-memory-system/hooks/memory_scorer.py:39-123 | the score is the undecayed score multiplied by the decay of its age in whole days when the timestamp parses, and left as it is otherwise |
| MemoryScorer.FiredTotalAll | claude-memory-system/hooks/memory_scorer.py:49-110 | the fired weights are the sum of the nine signals' contributions, each counted once |
| MemoryScorer.FiredTotalBounds | claude-memory-system/hooks/memory_scorer.py:49-110 | the fired weights lie between zero and the sum of all the weights |
| MemoryScorer.FiredTotalMono | claude-memory-system/hooks/memory_scorer.py:49-110 | when every signal firing on one chunk also fires on another, the second gets at least the first's weights |
| MemoryScorer.FiredTotalNone | claude-memory-system/hooks/memory_scorer.py:49-110 | when no signal fires, the fired weights are zero |
| MemoryScorer.WeightTotalAll | claude-memory-system/hooks/memory_scorer.py:22-33 | the nine fixed signal weights add up to 58 |
| MemoryScorer.ToolTermBounds | claude-memory-system/hooks/memory_scorer.py:95-98 | the tool term lies in [0, 15], never falls as the tool count grows, and reaches 15 from five uses on |
| MemoryScorer.UndecayedBounds | claude-memory-system/hooks/memory_scorer.py:41-110 | before decay, a score lies in [0, 73] |
| MemoryScorer.QuietChunkScoresZero | claude-memory-system/hooks/memory_scorer.py:41-123 | a chunk that matches no expression and has no tool uses scores 0, whatever its age |
| MemoryScorer.UndecayedMono | claude-memory-system/hooks/memory_scorer.py:41-110 | more firing signals and more tool uses never give a lower undecayed score |
| MemoryScorer.DecayFacts | claude-memory-system/hooks/memory_scorer.py:112-121 | a missing or unparsable timestamp leaves the score unchanged; age 0 keeps it; age 30 days halves it |
| MemoryScorer.DecayedBounds | claude-memory-system/hooks/memory_scorer.py:112-121 | a decay factor in (0, 1] never raises a score and keeps it non-negative |
| MemoryScorer.ChunkScoreBounds | claude-memory-system/hooks/memory_scorer.py:39-123 | with a positive decay that is at most 1 from age 0 on, every score is non-negative, and at most 73 unless the timestamp lies in the future |
| MemoryScorer.DecayedBoundsAnyAge | claude-memory-system/hooks/memory_scorer.py:112-121 | a positive decay keeps a score non-negative; for an absent or non-negative age it keeps a score of at most 73 within 73 |
| MemoryScorer.FutureTimestampRaises | claude-memory-system/hooks/memory_scorer.py:112-121 | a timestamp in the future, whose factor exceeds 1, raises a positive score above its undecayed value |
| MemoryScorer.DecayedRaises | claude-memory-system/hooks/memory_scorer.py:121 | a factor above 1 raises a positive score |
| MemoryScorer.CategorizeImportance | claude-memory-system/hooks/memory_scorer.py:125-135 | critical exactly from 20, high exactly in [10, 20), medium exactly in [5, 10), low exactly below 5 |
| MemoryScorer.CategorizeMonotone | claude-memory-system/hooks/memory_scorer.py:125-135 | a higher score never lands in a lower tier |
| MemoryScorer.ScoreChunks | claude-memory-system/hooks/memory_scorer.py:138-157 | one entry per (chunk, metadata) pair, stopping at the shorter list, each the scored entry of its pair, in order; with no metadata list, one entry per chunk, scored with empty metadata |
| MemoryScorer.ScoredAllIndex | claude-memory-system/hooks/memory_scorer.py:143-155 | each pair is scored on its own, one entry per pair, in input order |
| MemoryScorer.ScoreEntry | claude-memory-system/hooks/memory_scorer.py:144-155 | the entry keeps the chunk, and its metadata is the input's with importance_score and importance_category added |
| MemoryScorer.WithImportanceKeeps | claude-memory-system/hooks/memory_scorer.py:147-154 | the other metadata entries are kept, the score is recorded, and the tier is critical exactly from 20 |
| SessionStartInjector.SmartSummary | claude-memory-system/hooks/sessionstart_memory_injector.py:93-113 | the summary carries the document, the importance (0.0 when absent), the tier, the timestamp ("" when absent) and the first five file paths (all of them when fewer; none without artifacts) |
| SessionStartInjector.PoolSnoc | claude-memory-system/hooks/sessionstart_memory_injector.py:228-236 | one more candidate enters the pool exactly when it is admitted and its trimmed, lower-cased document has not been seen |
| SessionStartInjector.PoolKeys | claude-memory-system/hooks/sessionstart_memory_injector.py:232-236 | the set of seen documents is the set of keys of the pooled candidates |
| SessionStartInjector.ScoreCandidate | claude-memory-system/hooks/sessionstart_memory_injector.py:238-255 | the memory carries the candidate's id, summary, similarity and base importance, the task importance and matches of the task scorer, combined score = similarity × task importance, and task boost = task / base (1.0 for a base that is not positive) |
| SessionStartInjector.BucketCandidates | claude-memory-system/hooks/sessionstart_memory_injector.py:221-265 | the loop skips inadmissible and already-seen documents and yields the ranked high bucket (similarity ≥ 0.6) and medium bucket (0.4 to 0.6) of the rest |
| SessionStartInjector.QueryEntities | claude-memory-system/hooks/sessionstart_memory_injector.py:210-211 | the relevance dictionary is empty when the query names no entity, and otherwise the task scorer's related entities within two hops |
| SessionStartInjector.GetRelevantMemoriesWithTaskContext | claude-memory-system/hooks/sessionstart_memory_injector.py:175-292 | no answer gives nothing; otherwise the result is the adaptive choice over the two ranked buckets of the answers, scored with the query's relevance dictionary |
| SessionStartInjector.SelectFrom | claude-memory-system/hooks/sessionstart_memory_injector.py:267-279 | the choice takes only bucket items; with five or more high ones it is the first max_results of them; with none it is the first three medium ones; otherwise it has at most max_results items, and at most five more than the high bucket |
| SessionStartInjector.SelectShape | claude-memory-system/hooks/sessionstart_memory_injector.py:267-279 | the result is a prefix of the high bucket followed by a prefix of the medium bucket |
| SessionStartInjector.SelectOrder | claude-memory-system/hooks/sessionstart_memory_injector.py:263-279 | no medium-quality memory precedes a high-quality one, and each run is in combined-score order |
| SessionStartInjector.RelevantAdmitted | claude-memory-system/hooks/sessionstart_memory_injector.py:224-230 | every returned memory has importance at least 5.0 and similarity at least 0.4 |
| SessionStartInjector.RelevantOrdered | claude-memory-system/hooks/sessionstart_memory_injector.py:257-279 | in the result, high-quality memories come first and memories of the same quality are ranked by combined score, highest first |
| SessionStartInjector.BucketAdmitted | claude-memory-system/hooks/sessionstart_memory_injector.py:221-261 | every memory of a bucket comes from an admitted candidate of that bucket's quality |
| SessionStartInjector.RankedMembers | claude-memory-system/hooks/sessionstart_memory_injector.py:263-265 | sorting a bucket keeps exactly its members |
| SessionStartInjector.PoolDistinct | claude-memory-system/hooks/sessionstart_memory_injector.py:232-236 | pooled candidates have distinct keys, each is the first admitted candidate with its key, and every admitted candidate's key is represented |
| SessionStartInjector.MemoryScores | claude-memory-system/hooks/sessionstart_memory_injector.py:239-252 | with non-negative relevances, a memory's task importance is at least its base and its task boost is their ratio |
| SessionStartInjector.MemoryUnmatched | claude-memory-system/hooks/sessionstart_memory_injector.py:239-252 | a memory mentioning no relevant entity matches nothing and keeps its base importance |
| SessionStartInjector.BoostFacts | claude-memory-system/hooks/sessionstart_memory_injector.py:244-252 | base × (1 + boost) is never below a non-negative base; a zero boost leaves the base and a task boost of 1.0 |
| SessionStartInjector.RelevantBoosts | claude-memory-system/hooks/sessionstart_memory_injector.py:238-286 | with non-negative relevances, every returned memory's scores are consistent as above |
| SessionStartInjector.QueryRelevanceValues | claude-memory-system/hooks/sessionstart_memory_injector.py:210-211 | the query's relevance dictionary holds values of at least 0.25 |
| SessionStartInjector.RelevantDistinct | claude-memory-system/hooks/sessionstart_memory_injector.py:232-236 | no two returned memories share a trimmed, lower-cased document |
| SessionStartInjector.BucketsApart | claude-memory-system/hooks/sessionstart_memory_injector.py:232-261 | a high-quality and a medium-quality memory never share a document key |
| SessionStartInjector.SelectDistinct | claude-memory-system/hooks/sessionstart_memory_injector.py:267-279 | the adaptive choice keeps keys distinct when the two buckets share none |
| SessionStartInjector.GetImportantRecentMemories | claude-memory-system/hooks/sessionstart_memory_injector.py:146-172 | a store call that fails gives nothing; otherwise the session's rows (at most 1000), those of importance at least 5.0 summarised, newest timestamp first, cut to n |
| SessionStartInjector.RecentShape | claude-memory-system/hooks/sessionstart_memory_injector.py:157-168 | at most n memories, each of importance at least 5.0 and made from one of the rows, newest timestamp string first |
| SessionStartInjector.RecentComplete | claude-memory-system/hooks/sessionstart_memory_injector.py:157-168 | an important row left out means n memories were returned, none with an older timestamp |
| SessionStartInjector.UniqueRelevantSound | claude-memory-system/hooks/sessionstart_memory_injector.py:402-404 | no rendered relevant memory repeats a recent id, every relevant memory with a new id is rendered, and the order is kept |
| SessionStartInjector.GraphCache.constructor | claude-memory-system/hooks/sessionstart_memory_injector.py:54-56 | the cache starts empty at time 0 |
| SessionStartInjector.GraphCache.GetOrBuildKnowledgeGraph | claude-memory-system/hooks/sessionstart_memory_injector.py:69-90 | a cached graph younger than 300 seconds is returned unchanged; otherwise a fresh graph is built from all memories, its centrality computed, and it is cached with the current time |
| MemoryPruning.MarkOldUnimportant | hooks/memory_pruner.py:57-76 | the loop marks, in row order, the rows whose timestamp parses, older than 90 whole days, scoring below 3.0, and not critical or older than 365 days |
| MemoryPruning.Stage1Marks | hooks/memory_pruner.py:57-76 | strategy 1 marks exactly the ids of the aged-out rows, in row order, each with a reason, none twice when the ids are distinct |
| MemoryPruning.Stage1Reasons | hooks/memory_pruner.py:69-73 | an aged-out row is recorded with its age in whole days and its score |
| MemoryPruning.ScanPartners | hooks/memory_pruner.py:87-111 | the inner loop compares row i with each later unmarked row and marks the lower-scoring one of a pair more than 0.95 similar (the later one on a tie) unless it is already marked |
| MemoryPruning.MarkRedundant | hooks/memory_pruner.py:79-111 | the outer loop runs the inner one for each row not marked before its turn |
| MemoryPruning.PairStepGrows | hooks/memory_pruner.py:99-111 | one comparison keeps earlier marks and justifies any new mark by a near-duplicate pair, after which the two rows are not both unmarked near-duplicates |
| MemoryPruning.Stage2Properties | hooks/memory_pruner.py:78-111 | after strategy 2 no two unmarked rows are more than 0.95 similar, earlier marks and reasons are kept, and every new mark is the lower-scoring row of a near-duplicate pair with the pair's similarity as its reason |
| MemoryPruning.Stage2DropsBothCopies | hooks/memory_pruner.py:83-111 | a row marked while its own partners are scanned still marks its later near-duplicates: with rows a, b, c, a loses to b and then c loses to a, so c goes although its only near-copy a goes too |
| MemoryPruning.MarkOverCapacity | hooks/memory_pruner.py:113-127 | when more than 500 rows are unmarked, the unmarked rows ranked by score (stable, highest first) past the first 500 are marked with their scores |
| MemoryPruning.MarkAllIds | hooks/memory_pruner.py:125-127 | marking the capacity cut appends its ids in order |
| MemoryPruning.UnmarkedCount | hooks/memory_pruner.py:114-121 | with distinct ids, the unmarked rows number the rows less the marked ids |
| MemoryPruning.Stage3Capacity | hooks/memory_pruner.py:113-127 | strategy 3 keeps earlier marks and reasons, marks only row ids and none twice, and leaves exactly 500 unmarked when more were left; otherwise it marks nothing |
| MemoryPruning.OverflowFacts | hooks/memory_pruner.py:117-127 | the capacity cut is the ranking past 500, has distinct ids, and strategy 3 appends exactly its ids |
| MemoryPruning.Stage3Reason | hooks/memory_pruner.py:125-127 | a row strategy 3 marks is recorded with its own score |
| MemoryPruning.Stage3Keeps | hooks/memory_pruner.py:113-127 | every row strategy 3 leaves unmarked scores at least as high as every row it marks |
| MemoryPruning.CollectMarks | hooks/memory_pruner.py:57-127 | the three strategies run in order; strategy 2 only when embeddings were returned |
| MemoryPruning.PruneMarks | hooks/memory_pruner.py:53-127 | the marks of one pass: each with a reason, none twice, only ids of the session's rows, the aged-out ids first, at most 500 rows left, and with embeddings no two unmarked rows more than 0.95 similar |
| MemoryPruning.PruneModes | hooks/memory_pruner.py:129-144 | a dry run reports the same pruned and kept counts as a real run, the two add up to the total, at most 500 are kept, and reasons are given for exactly the marked ids; a real run fails only when the store refuses a non-empty deletion |
| MemoryPruning.RemoveOtherSession | hooks/memory_pruner.py:129-134 | deleting one session's marked ids leaves ids distinct and every other session's rows unchanged |
| MemoryPruning.PrunedByAdd | hooks/memory_pruner.py:161-164 | recording one more session's result adds its pruned count to the total |
| MemoryPruning.KeepsOtherSession | hooks/memory_pruner.py:161-164 | one session's pass leaves ids distinct and other sessions' rows as they were |
| MemoryPruning.MemoryPruner.constructor | hooks/memory_pruner.py:31-37 | the pruner holds the collection, or none when it could not be opened |
| MemoryPruning.MemoryPruner.PruneSessionMemories | hooks/memory_pruner.py:39-144 | no collection gives the error; otherwise the result is the pass over the session's rows (nothing found, a failed deletion, or the totals with reasons on a dry run) and the store loses exactly the marked ids on a successful real run |
| MemoryPruning.MemoryPruner.PruneAllSessions | hooks/memory_pruner.py:146-171 | no collection gives the error; an empty store gives zero totals; otherwise every session named in the store is pruned once, each detail is that session's pass over its original rows, and the total is the sum of their pruned counts; a dry run changes nothing |
| MemoryPruning.MemoryPruner.PruneEach | hooks/memory_pruner.py:161-164 | the loop over session ids records one result per session and keeps the running total equal to their pruned counts |
| MemoryPruning.MemoryPruner.GetPruningStatistics | hooks/memory_pruner.py:173-178 | a named session gives its dry run; otherwise the dry-run report of all sessions: a missing or empty store as such, else one dry-run outcome per session and their total; the store is left unchanged |
| MemoryClustering.GroupByLabel | hooks/memory_clustering.py:81-88 | the loop files each memory (id, document, metadata) under its label in input order, and lists the labels in first-appearance order, as the defaultdict keeps them |
| MemoryClustering.GroupsSnoc | hooks/memory_clustering.py:83-88 | one more memory is appended to its label's cluster, creating the cluster when the label is new |
| MemoryClustering.GroupPartition | hooks/memory_clustering.py:81-88 | with distinct ids, a memory is in a label's cluster exactly when its own label is that label |
| MemoryClustering.GroupSizes | hooks/memory_clustering.py:81-88 | the cluster sizes add up to the number of memories |
| MemoryClustering.OrderFacts | hooks/memory_clustering.py:82-99 | the key order lists exactly the cluster labels, once each, and there are as many clusters as distinct labels |
| MemoryClustering.CountFacts | hooks/memory_clustering.py:117-124 | the word counts hold exactly the words longer than four characters, each with its number of occurrences, and the key order lists each of them once |
| MemoryClustering.CountWords | hooks/memory_clustering.py:121-124 | the counting loop computes the word frequencies and their insertion order |
| MemoryClustering.RankedFacts | hooks/memory_clustering.py:127 | the ranking holds each word of the text longer than four characters exactly once, with its number of occurrences, by count descending |
| MemoryClustering.KeywordsShape | hooks/memory_clustering.py:126-128 | at most five keywords, each longer than four characters and in the text, distinct, with non-increasing counts |
| MemoryClustering.KeywordsComplete | hooks/memory_clustering.py:126-128 | a long word that is not a keyword means five keywords were chosen, each at least as frequent as it |
| MemoryClustering.FilesMembers | hooks/memory_clustering.py:130-135 | a path is among the files exactly when it is one of the first three file paths of some memory's artifacts |
| MemoryClustering.CollectFiles | hooks/memory_clustering.py:131-135 | the loop collects the first three file paths of every memory |
| MemoryClustering.GeneralWorkWhen | hooks/memory_clustering.py:137-144 | a cluster is "General work" exactly when no word is longer than four characters and no memory names a file |
| MemoryClustering.Summarize | hooks/memory_clustering.py:116-144 | one cluster's summary: its keywords and files, or "General work" when there are neither |
| MemoryClustering.SummariesFacts | hooks/memory_clustering.py:113-146 | there is one summary per listed cluster, and each is that cluster's summary |
| MemoryClustering.GenerateSummaries | hooks/memory_clustering.py:111-146 | the loop over the clusters yields every cluster's summary |
| MemoryClustering.SortedLabelsFacts | hooks/memory_clustering.py:151-164 | the sorted labels are exactly the distinct labels, in ascending order |
| MemoryClustering.NearestFacts | hooks/memory_clustering.py:171-177 | the nearest other label is one of the candidates, no candidate is closer, and among equally close ones it is the lowest (argmin takes the first) |
| MemoryClustering.PlaceAllFacts | hooks/memory_clustering.py:171-183 | a placed label is a root exactly when it has no parent, and is a child of p exactly when its parent is p |
| MemoryClustering.EachLabelOnce | hooks/memory_clustering.py:161-186 | every label is placed exactly once, either as a root or under a single parent, and only labels appear |
| MemoryClustering.ParentRule | hooks/memory_clustering.py:171-183 | with more than one cluster, a label's parent is the lowest of its nearest other labels when that distance is below 0.3; a label is a root exactly when every other label is at least 0.3 away |
| MemoryClustering.SingleCluster | hooks/memory_clustering.py:184-186 | a single cluster is the root and has no children |
| MemoryClustering.MutualChildren | hooks/memory_clustering.py:171-183 | two labels nearest to each other below 0.3 are each other's children, and neither is a root |
| MemoryClustering.BuildHierarchy | hooks/memory_clustering.py:148-188 | the loop over the sorted labels builds the hierarchy the placement rule gives, and a single cluster becomes the root |
| MemoryClustering.MutualPairHasNoRoot | hooks/memory_clustering.py:171-183 | two clusters 0.1 apart give no root at all, each the other's child |
| MemoryClustering.ClusterMapSizes | hooks/memory_clustering.py:100-107 | each cluster's size is the length of its member list |
| MemoryClustering.ClusterMemories | hooks/memory_clustering.py:31-109 | the method returns the outcome: an error without a collection, an error with fewer than two memories, and otherwise the clustering of the session's memories |
| MemoryClustering.Assemble | hooks/memory_clustering.py:81-109 | grouping, summaries and hierarchy assembled into the result for the given labels |
| MemoryClustering.OutcomeErrors | hooks/memory_clustering.py:45-79 | the no-collection error occurs exactly when there is no collection; the not-enough error exactly when the session has fewer than two memories; otherwise the result is the clustering of the labels the fit returns, an explicit count capped at the number of memories |
| MemoryClustering.ClusteredCounts | hooks/memory_clustering.py:96-107 | the total is the number of memories, the cluster keys are exactly the labels, num_clusters is the number of clusters, and the sizes add up to the total |
| MemoryClustering.ClusteredMembers | hooks/memory_clustering.py:81-107 | every memory is in its label's cluster, and every cluster member is a memory with that label |
| MemoryClustering.ClusteredHierarchy | hooks/memory_clustering.py:91-107 | every label is placed in the hierarchy exactly once, as a root when it has no parent and as a child of its parent otherwise; each cluster's summary is its members' summary and its size their number |

## Left out

- Store and embedding I/O is not modelled. This covers ChromaDB `get`, `query` and `delete`, the sentence-transformer model, and the session and limit arguments of the queries. The rows or hits a query returns are inputs. A deletion is a yes/no answer of the store.
- Library numerics are inputs, not computations, because they are floating-point library code:
  - PageRank is an optional map, with `None` when the solver raised;
  - betweenness and degree centrality, `avg_degree` and `density` are not computed;
  - the pruner's cosine similarity is a function of two embeddings;
  - the clustering's `fit_predict` and the centroid distances are functions;
  - the centroid means are not computed.
- Floating point: scores are exact reals, so rounding and the formatting of reasons to one or two decimals are not modelled.
- Python regular-expression semantics are abstract. Each pattern is an uninterpreted matcher, and its flags are part of the matcher. What the code does with a match is modelled.
- The clock and `datetime.fromisoformat` are parameters (a current time and a parser that may fail). The power `0.5 ** (days / 30)` is a function known only at 0 days (1) and 30 days (0.5).
- `s.lower()` is modelled on ASCII letters only: Unicode case mapping is not available.
- Hook entry points are not modelled: `main()`, JSON on stdin and stdout, `print`, `debug_log`, the markdown of `format_memory_entry` and `format_enhanced_context` (apart from its id de-duplication), and `save_graph`.
- Exceptions are modelled only where the code turns them into a result: a store that cannot be opened, a query that raised (giving `[]`), a failed deletion, and PageRank that fails. Other exceptions are not modelled.
- Concurrency: the graph cache is a plain global with no locking. Only its sequential time-to-live decision is modelled.
- Iteration order of sets: `list(set(...))` in `extract_task_entities`, the list returned by `get_related_entities`, and the order in which `prune_all_sessions` visits session ids are not modelled. The model gives a listing of the set, the set itself, and a visit in any order.
- The artifacts entry is modelled as already decoded (its `file_paths` list). The store writes it as a JSON string, on which the clustering's `.get` would raise.
- `get_cluster_for_query` is not part of this model, because it loads the embedding model and queries the store.
- Cluster keys stay integers: the result's `str(k)` keys are not modelled.
- `cluster_summaries.get(k, "")` always finds the key, so its default is not modelled.
- MemoryClustering.Summarize: the summary is the keyword list and the set of every memory's first three file paths. The rendered "Topics: … | Files: …" string is not modelled. Which three files `list(files)[:3]` shows depends on set order, so that is not modelled either.
- SessionStartInjector.SmartSummary: only the text, importance, tier, timestamp and first five files are modelled. The bug, decision and function lists are presentation that the core never reads.
- KnowledgeGraph.MemoryKnowledgeGraph.GetStatistics: `avg_degree` and `density` are not modelled (networkx numerics).
- KnowledgeGraph.MemoryKnowledgeGraph.ComputeCentrality: the betweenness and degree attributes written on nodes are not modelled. No other member reads them.
- MemoryPruning.Stage2Properties: does not promise that every row deleted as a near-duplicate keeps a surviving near-copy. The loop keeps marking from a row that was itself marked during its own scan, so this fails. `MemoryPruning.Stage2DropsBothCopies` gives three rows where both members of a near-duplicate pair are deleted.
- Pruning reasons are a datatype holding the age, score or similarity, not the formatted strings.
- `MIN_SIMILARITY` (0.35) is declared but never used. The filter's literal 0.4 is modelled.
- MemoryScorer.ChunkScoreBounds: the upper bound of 73 is promised only for an absent or non-negative age. A timestamp in the future gives a negative age, where `0.5 ** (days / 30)` exceeds 1, and `MemoryScorer.FutureTimestampRaises` shows the score then rises above its undecayed value.
- EntityExtractor.ContextOf: the bound on the context's length is stated for matches whose start does not exceed their end, which holds for every Python match. The matcher is uninterpreted, so nothing else guarantees it.
- EntityExtractor.MakeEntity: the same bound on the entity's context, under the same condition on the match.
- The default `max_hops=2` of `get_related_entities`, `find_related_entities` and `get_task_context_summary` has no entry point of its own, because every call inside the core passes the hop count explicitly. The defaults of `get_entity_importance` and `get_top_entities` are modelled as `DefaultEntityImportance` and `DefaultTopEntities`.
