/**
  The importance scorer: ten signals read from a memory chunk's intent,
  action and outcome add fixed weights to a score, which a recency decay
  then scales, and four tiers categorise the result.

  Python's regular expressions are an abstract predicate `Search`: pattern
  `Pattern(s, i)` is the `i`-th expression of signal `s`'s family, and
  `search(p, text)` says whether `re.search` finds it in `text`. The power
  `0.5 ** (days / 30)` is a function `decay` of the whole days.
*/
module MemoryScorer {
  import opened Support
  import opened MemoryRecords

  /** The signals that carry a fixed weight; the tool term is separate. */
  datatype Signal =
    | DecisionMarker | ErrorResolution | FileCreation | FileModification | TestSuccess
    | Learning | UserDirective | CodeSnippet | DiagramReference

  /** `WEIGHTS`. */
  function Weight(s: Signal): real
  {
    match s
    case DecisionMarker => 10.0
    case ErrorResolution => 8.0
    case FileCreation => 6.0
    case FileModification => 4.0
    case TestSuccess => 5.0
    case Learning => 7.0
    case UserDirective => 9.0
    case CodeSnippet => 4.0
    case DiagramReference => 5.0
  }

  /** `WEIGHTS["tool_use_frequency"]`, per tool use. */
  const ToolWeight: real := 3.0

  /** The cap of the tool term. */
  const ToolCap: real := 15.0

  /** `RECENCY_DECAY_DAYS`, the half-life. */
  const HalfLifeDays: int := 30

  /** How many regular expressions the signal's family holds. */
  function FamilySize(s: Signal): nat
  {
    match s
    case DecisionMarker => 4
    case ErrorResolution => 4
    case Learning => 3
    case _ => 1
  }

  datatype Pattern = Pattern(signal: Signal, index: nat)

  /** `re.search(pattern, text) is not None`. */
  type Search = (Pattern, string) -> bool

  /** A chunk: its `intent`, `action` and `outcome` entries, each possibly absent. */
  datatype Chunk = Chunk(intent: Option<string>, action: Option<string>, outcome: Option<string>)

  function Intent(c: Chunk): string { Lower(GetOr(c.intent, "")) }
  function Action(c: Chunk): string { Lower(GetOr(c.action, "")) }
  function Outcome(c: Chunk): string { Lower(GetOr(c.outcome, "")) }

  /** `f"{intent} {action} {outcome}"`, lower-cased. */
  function Combined(c: Chunk): string
  {
    Intent(c) + " " + Action(c) + " " + Outcome(c)
  }

  /**
    The text each signal looks at: file operations only the action, test
    success only the outcome, a user directive only the intent, the rest
    all three.
  */
  function Scope(s: Signal, c: Chunk): string
  {
    match s
    case FileCreation => Action(c)
    case FileModification => Action(c)
    case TestSuccess => Outcome(c)
    case UserDirective => Intent(c)
    case _ => Combined(c)
  }

  /** Some expression of the signal's family matches `text`. */
  ghost predicate FamilyMatches(s: Signal, text: string, search: Search)
  {
    exists i :: 0 <= i < FamilySize(s) && search(Pattern(s, i), text)
  }

  /** A signal fires when some expression of its family matches its text. */
  ghost predicate Fires(s: Signal, c: Chunk, search: Search)
  {
    FamilyMatches(s, Scope(s, c), search)
  }

  /** The signals in the order the scorer checks them. */
  const AllSignals: seq<Signal> := [DecisionMarker, ErrorResolution, FileCreation, FileModification,
                                    TestSuccess, Learning, UserDirective, CodeSnippet, DiagramReference]

  /** The weight a signal adds: its own when it fires, nothing otherwise. */
  ghost function Contribution(s: Signal, c: Chunk, search: Search): real
  {
    if Fires(s, c, search) then Weight(s) else 0.0
  }

  /** The weights of the signals of `ss` that fire, each counted once. */
  ghost function FiredTotal(ss: seq<Signal>, c: Chunk, search: Search): real
    decreases |ss|
  {
    if ss == [] then 0.0 else FiredTotal(Init(ss), c, search) + Contribution(Last(ss), c, search)
  }

  /** The weights of `ss`, all added. */
  function WeightTotal(ss: seq<Signal>): real
    decreases |ss|
  {
    if ss == [] then 0.0 else WeightTotal(Init(ss)) + Weight(Last(ss))
  }

  /** `min(tool_count * 3, 15)` when `tool_count > 0`, otherwise nothing. */
  function ToolTerm(toolCount: int): (r: real)
    ensures 0.0 <= r <= ToolCap
    ensures toolCount <= 0 ==> r == 0.0
    ensures 0 < toolCount < 5 ==> r == 3.0 * toolCount as real
    ensures toolCount >= 5 ==> r == ToolCap
  {
    if toolCount > 0 then
      var t := toolCount as real * ToolWeight;
      if t <= ToolCap then t else ToolCap
    else 0.0
  }

  /** The score before decay: the fired weights plus the tool term. */
  ghost function Undecayed(c: Chunk, meta: Metadata, search: Search): real
  {
    FiredTotal(AllSignals, c, search) + ToolTerm(GetOr(meta.toolCount, 0))
  }

  /** What `score_chunk` returns: the undecayed score, times the decay when the timestamp parses. */
  ghost function ChunkScore(c: Chunk, meta: Metadata, search: Search, clock: Clock, decay: int -> real): real
  {
    Decayed(Undecayed(c, meta, search), AgeDays(clock, meta.timestamp), decay)
  }

  /** The score times the decay of its age, when the age is known. */
  function Decayed(score: real, age: Option<int>, decay: int -> real): real
  {
    match age
    case Some(days) => score * decay(days)
    case None => score
  }

  /**
    One signal of `score_chunk`: the `for … break` loop over its family,
    or the single `if` of a one-expression family, adding its weight when
    an expression matches.
  */
  method AddSignal(score: real, s: Signal, text: string, search: Search, ghost c: Chunk) returns (r: real)
    requires text == Scope(s, c)
    ensures r == score + Contribution(s, c, search)
  {
    r := score;
    var i := 0;
    while i < FamilySize(s)
      invariant 0 <= i <= FamilySize(s)
      invariant !exists k :: 0 <= k < i && search(Pattern(s, k), text)
    {
      if search(Pattern(s, i), text) {
        r := r + Weight(s);
        return;
      }
      i := i + 1;
    }
  }

  /** `MemoryScorer.score_chunk`: the signals, then the recency decay. */
  method ScoreChunk(c: Chunk, meta: Metadata, search: Search, clock: Clock, decay: int -> real)
    returns (score: real)
    ensures score == ChunkScore(c, meta, search, clock, decay)
  {
    score := SignalScore(c, meta, search);
    var days := AgeDays(clock, meta.timestamp);
    ghost var undecayed := score;
    if days.Some? {
      score := score * decay(days.value);
    }
    DecayedIs(undecayed, Undecayed(c, meta, search), days, decay, score);
  }

  /** `score *= decay_factor` when the age is known computes `Decayed`. */
  lemma DecayedIs(s: real, u: real, age: Option<int>, decay: int -> real, r: real)
    requires s == u
    requires r == if age.Some? then s * decay(age.value) else s
    ensures r == Decayed(u, age, decay)
  {
  }

  /** Steps 1 to 9 of `score_chunk`: the weights of the signals that fire, and the tool term. */
  method SignalScore(c: Chunk, meta: Metadata, search: Search) returns (score: real)
    ensures score == Undecayed(c, meta, search)
  {
    score := 0.0;
    var intent := Lower(GetOr(c.intent, ""));
    var action := Lower(GetOr(c.action, ""));
    var outcome := Lower(GetOr(c.outcome, ""));
    var combined := intent + " " + action + " " + outcome;
    assert combined == Combined(c) && action == Action(c) && outcome == Outcome(c) && intent == Intent(c);

    score := AddSignal(score, DecisionMarker, combined, search, c);
    score := AddSignal(score, ErrorResolution, combined, search, c);
    score := AddSignal(score, FileCreation, action, search, c);
    score := AddSignal(score, FileModification, action, search, c);
    score := AddSignal(score, TestSuccess, outcome, search, c);
    score := AddSignal(score, Learning, combined, search, c);

    var toolCount := GetOr(meta.toolCount, 0);
    if toolCount > 0 {
      var t := toolCount as real * ToolWeight;
      score := score + if t <= ToolCap then t else ToolCap;
    }

    score := AddSignal(score, UserDirective, intent, search, c);
    score := AddSignal(score, CodeSnippet, combined, search, c);
    score := AddSignal(score, DiagramReference, combined, search, c);
    FiredTotalAll(c, search);
  }

  /** `FiredTotal` over the nine signals, one contribution each. */
  lemma FiredTotalAll(c: Chunk, search: Search)
    ensures FiredTotal(AllSignals, c, search) ==
      Contribution(DecisionMarker, c, search) + Contribution(ErrorResolution, c, search) +
      Contribution(FileCreation, c, search) + Contribution(FileModification, c, search) +
      Contribution(TestSuccess, c, search) + Contribution(Learning, c, search) +
      Contribution(UserDirective, c, search) + Contribution(CodeSnippet, c, search) +
      Contribution(DiagramReference, c, search)
  {
    var all := AllSignals;
    assert all[..0] == [];
    FiredTotalStep(all, 0, c, search);
    FiredTotalStep(all, 1, c, search);
    FiredTotalStep(all, 2, c, search);
    FiredTotalStep(all, 3, c, search);
    FiredTotalStep(all, 4, c, search);
    FiredTotalStep(all, 5, c, search);
    FiredTotalStep(all, 6, c, search);
    FiredTotalStep(all, 7, c, search);
    FiredTotalStep(all, 8, c, search);
    assert all[..9] == all;
  }

  /** One more signal of the list adds its contribution. */
  lemma FiredTotalStep(ss: seq<Signal>, k: nat, c: Chunk, search: Search)
    requires k < |ss|
    ensures FiredTotal(ss[..k + 1], c, search) == FiredTotal(ss[..k], c, search) + Contribution(ss[k], c, search)
  {
    assert Init(ss[..k + 1]) == ss[..k] && Last(ss[..k + 1]) == ss[k];
  }

  // ---------------------------------------------------------------------
  // Properties of the score
  // ---------------------------------------------------------------------

  /** The fired weights lie between nothing and all the weights. */
  lemma {:induction false} FiredTotalBounds(ss: seq<Signal>, c: Chunk, search: Search)
    ensures 0.0 <= FiredTotal(ss, c, search) <= WeightTotal(ss)
    decreases |ss|
  {
    if ss != [] {
      FiredTotalBounds(Init(ss), c, search);
    }
  }

  /** Firing more signals never lowers the fired weights. */
  lemma {:induction false} FiredTotalMono(ss: seq<Signal>, c1: Chunk, s1: Search, c2: Chunk, s2: Search)
    requires forall s :: s in ss && Fires(s, c1, s1) ==> Fires(s, c2, s2)
    ensures FiredTotal(ss, c1, s1) <= FiredTotal(ss, c2, s2)
    decreases |ss|
  {
    if ss != [] {
      InitLast(ss);
      FiredTotalMono(Init(ss), c1, s1, c2, s2);
    }
  }

  /** With no signal firing, nothing is added. */
  lemma {:induction false} FiredTotalNone(ss: seq<Signal>, c: Chunk, search: Search)
    requires forall s :: s in ss ==> !Fires(s, c, search)
    ensures FiredTotal(ss, c, search) == 0.0
    decreases |ss|
  {
    if ss != [] {
      InitLast(ss);
      FiredTotalNone(Init(ss), c, search);
    }
  }

  /** One more signal of the list adds its weight. */
  lemma WeightTotalStep(ss: seq<Signal>, k: nat)
    requires k < |ss|
    ensures WeightTotal(ss[..k + 1]) == WeightTotal(ss[..k]) + Weight(ss[k])
  {
    assert Init(ss[..k + 1]) == ss[..k] && Last(ss[..k + 1]) == ss[k];
  }

  /** The nine weights add up to 58. */
  lemma WeightTotalAll()
    ensures WeightTotal(AllSignals) == 58.0
  {
    var all := AllSignals;
    assert all[..0] == [];
    WeightTotalStep(all, 0);
    WeightTotalStep(all, 1);
    WeightTotalStep(all, 2);
    WeightTotalStep(all, 3);
    WeightTotalStep(all, 4);
    WeightTotalStep(all, 5);
    WeightTotalStep(all, 6);
    WeightTotalStep(all, 7);
    WeightTotalStep(all, 8);
    assert all[..9] == all;
  }

  /** The tool term lies in [0, 15] and grows with the tool count. */
  lemma ToolTermBounds(t1: int, t2: int)
    requires t1 <= t2
    ensures 0.0 <= ToolTerm(t1) <= ToolTerm(t2) <= ToolCap
    ensures t2 >= 5 ==> ToolTerm(t2) == ToolCap
  {
  }

  /**
    Without decay the score lies in [0, 73]: the nine weights add to 58 and
    the tool term to at most 15.
  */
  lemma UndecayedBounds(c: Chunk, meta: Metadata, search: Search)
    ensures 0.0 <= Undecayed(c, meta, search) <= 73.0
  {
    FiredTotalBounds(AllSignals, c, search);
    WeightTotalAll();
    ToolTermBounds(GetOr(meta.toolCount, 0), GetOr(meta.toolCount, 0));
  }

  /** A chunk no expression matches, without tool uses and timestamp, scores 0. */
  lemma QuietChunkScoresZero(c: Chunk, meta: Metadata, search: Search, clock: Clock, decay: int -> real)
    requires forall s :: !Fires(s, c, search)
    requires GetOr(meta.toolCount, 0) <= 0
    ensures ChunkScore(c, meta, search, clock, decay) == 0.0
  {
    FiredTotalNone(AllSignals, c, search);
    assert Undecayed(c, meta, search) == 0.0;
    var age := AgeDays(clock, meta.timestamp);
    if age.Some? {
      assert 0.0 * decay(age.value) == 0.0;
    }
  }

  /** More signals and more tool uses never give a lower undecayed score. */
  lemma UndecayedMono(c1: Chunk, m1: Metadata, s1: Search, c2: Chunk, m2: Metadata, s2: Search)
    requires forall s :: Fires(s, c1, s1) ==> Fires(s, c2, s2)
    requires GetOr(m1.toolCount, 0) <= GetOr(m2.toolCount, 0)
    ensures Undecayed(c1, m1, s1) <= Undecayed(c2, m2, s2)
  {
    FiredTotalMono(AllSignals, c1, s1, c2, s2);
    ToolTermBounds(GetOr(m1.toolCount, 0), GetOr(m2.toolCount, 0));
  }

  /**
    A missing, empty or unparsable timestamp leaves the score as it is; a
    memory of age 0 keeps it too, one 30 days old has it halved.
  */
  lemma DecayFacts(c: Chunk, meta: Metadata, search: Search, clock: Clock, decay: int -> real)
    requires decay(0) == 1.0 && decay(HalfLifeDays) == 0.5
    ensures AgeDays(clock, meta.timestamp) == None ==>
      ChunkScore(c, meta, search, clock, decay) == Undecayed(c, meta, search)
    ensures AgeDays(clock, meta.timestamp) == Some(0) ==>
      ChunkScore(c, meta, search, clock, decay) == Undecayed(c, meta, search)
    ensures AgeDays(clock, meta.timestamp) == Some(HalfLifeDays) ==>
      ChunkScore(c, meta, search, clock, decay) == Undecayed(c, meta, search) / 2.0
  {
  }

  /** A decay in (0, 1] keeps a score in [0, 73] there. */
  lemma DecayedBounds(u: real, age: Option<int>, decay: int -> real)
    requires 0.0 <= u <= 73.0
    requires age.Some? ==> 0.0 < decay(age.value) <= 1.0
    ensures 0.0 <= Decayed(u, age, decay) <= u
  {
    if age.Some? {
      var f := decay(age.value);
      assert u * f <= u * 1.0 by {
        assert u * (1.0 - f) >= 0.0;
      }
    }
  }

  /**
    With a positive decay that is at most 1 for ages of 0 days and more,
    every score is non-negative, and it stays within 73 unless the timestamp
    lies in the future.
  */
  lemma ChunkScoreBounds(c: Chunk, meta: Metadata, search: Search, clock: Clock, decay: int -> real)
    requires forall d :: 0.0 < decay(d)
    requires forall d :: d >= 0 ==> decay(d) <= 1.0
    ensures 0.0 <= ChunkScore(c, meta, search, clock, decay)
    ensures var age := AgeDays(clock, meta.timestamp);
      (age == None || age.value >= 0) ==> ChunkScore(c, meta, search, clock, decay) <= 73.0
  {
    UndecayedBounds(c, meta, search);
    DecayedBoundsAnyAge(Undecayed(c, meta, search), AgeDays(clock, meta.timestamp), decay);
  }

  /** A positive decay keeps a score non-negative; one at most 1 for the age keeps it within the bound. */
  lemma DecayedBoundsAnyAge(u: real, age: Option<int>, decay: int -> real)
    requires 0.0 <= u <= 73.0
    requires forall d :: 0.0 < decay(d)
    requires forall d :: d >= 0 ==> decay(d) <= 1.0
    ensures 0.0 <= Decayed(u, age, decay)
    ensures (age == None || age.value >= 0) ==> Decayed(u, age, decay) <= 73.0
  {
    if age == None || age.value >= 0 {
      DecayedBounds(u, age, decay);
    } else {
      assert u * decay(age.value) >= 0.0;
    }
  }

  /**
    A timestamp in the future gives a negative age, where the factor
    `0.5 ** (age / 30)` exceeds 1: a score with any signal then rises above
    its undecayed value.
  */
  lemma FutureTimestampRaises(c: Chunk, meta: Metadata, search: Search, clock: Clock, decay: int -> real)
    requires forall d :: d < 0 ==> decay(d) > 1.0
    requires Undecayed(c, meta, search) > 0.0
    requires AgeDays(clock, meta.timestamp).Some? && AgeDays(clock, meta.timestamp).value < 0
    ensures ChunkScore(c, meta, search, clock, decay) > Undecayed(c, meta, search)
  {
    DecayedRaises(Undecayed(c, meta, search), AgeDays(clock, meta.timestamp).value, decay);
  }

  /** A factor above 1 raises a positive score. */
  lemma DecayedRaises(u: real, days: int, decay: int -> real)
    requires decay(days) > 1.0 && u > 0.0
    ensures Decayed(u, Some(days), decay) > u
  {
    assert u * decay(days) - u == u * (decay(days) - 1.0);
    assert u * (decay(days) - 1.0) > 0.0;
  }

  // ---------------------------------------------------------------------
  // Categories
  // ---------------------------------------------------------------------

  /** `categorize_importance`. */
  function CategorizeImportance(score: real): (t: Tier)
    ensures t == Critical <==> score >= 20.0
    ensures t == High <==> 10.0 <= score < 20.0
    ensures t == Medium <==> 5.0 <= score < 10.0
    ensures t == Low <==> score < 5.0
  {
    if score >= 20.0 then Critical
    else if score >= 10.0 then High
    else if score >= 5.0 then Medium
    else Low
  }

  /** Tiers from `Low` = 0 to `Critical` = 3. */
  function Rank(t: Tier): nat
  {
    match t
    case Low => 0
    case Medium => 1
    case High => 2
    case Critical => 3
  }

  /** A higher score never falls in a lower tier. */
  lemma CategorizeMonotone(a: real, b: real)
    requires a <= b
    ensures Rank(CategorizeImportance(a)) <= Rank(CategorizeImportance(b))
  {
  }

  // ---------------------------------------------------------------------
  // Scoring a list of chunks
  // ---------------------------------------------------------------------

  /** A chunk with its metadata, to which the score and its tier are added. */
  datatype ScoredChunk = ScoredChunk(chunk: Chunk, metadata: Metadata)

  /** `metadatas or [{}] * len(chunks)`: an absent or empty list means empty metadata for every chunk. */
  function MetadataFor(chunks: seq<Chunk>, metadatas: seq<Metadata>): seq<Metadata>
  {
    if metadatas == [] then seq(|chunks|, i => EmptyMetadata) else metadatas
  }

  /** The metadata with `importance_score` and `importance_category` set for `score`. */
  function WithImportance(meta: Metadata, score: real): Metadata
  {
    meta.(importanceScore := Some(score), importanceCategory := Some(CategorizeImportance(score)))
  }

  /** The entry `score_chunks` makes of one chunk and its metadata. */
  ghost function ScoredEntry(c: Chunk, meta: Metadata, search: Search, clock: Clock, decay: int -> real): ScoredChunk
  {
    ScoredChunk(c, WithImportance(meta, ChunkScore(c, meta, search, clock, decay)))
  }

  /** The entries of the pairs of `cs` and `ms`, in order. */
  ghost function ScoredAll(cs: seq<Chunk>, ms: seq<Metadata>, search: Search, clock: Clock, decay: int -> real)
    : seq<ScoredChunk>
    requires |cs| == |ms|
  {
    MapPairs(cs, ms, (c, m) => ScoredEntry(c, m, search, clock, decay))
  }

  /** `score_chunks`: one entry per (chunk, metadata) pair, `zip` stopping at the shorter list. */
  method ScoreChunks(chunks: seq<Chunk>, metadatas: seq<Metadata>, search: Search, clock: Clock, decay: int -> real)
    returns (scored: seq<ScoredChunk>)
    ensures var ms := MetadataFor(chunks, metadatas);
      var n := if |chunks| <= |ms| then |chunks| else |ms|;
      scored == ScoredAll(chunks[..n], ms[..n], search, clock, decay)
    ensures |scored| == if metadatas == [] || |chunks| <= |metadatas| then |chunks| else |metadatas|
    ensures forall i :: 0 <= i < |scored| ==>
      scored[i] == ScoredEntry(chunks[i], if metadatas == [] then EmptyMetadata else metadatas[i], search, clock, decay)
  {
    var ms := MetadataFor(chunks, metadatas);
    var n := if |chunks| <= |ms| then |chunks| else |ms|;
    scored := [];
    for i := 0 to n
      invariant scored == ScoredAll(chunks[..i], ms[..i], search, clock, decay)
    {
      assert Init(chunks[..i + 1]) == chunks[..i] && Last(chunks[..i + 1]) == chunks[i];
      assert Init(ms[..i + 1]) == ms[..i] && Last(ms[..i + 1]) == ms[i];
      var entry := ScoreEntry(chunks[i], ms[i], search, clock, decay);
      scored := scored + [entry];
    }
    ScoredAllIndex(chunks[..n], ms[..n], search, clock, decay);
  }

  /** `ScoredAll` scores each pair on its own, in order. */
  lemma ScoredAllIndex(cs: seq<Chunk>, ms: seq<Metadata>, search: Search, clock: Clock, decay: int -> real)
    requires |cs| == |ms|
    ensures |ScoredAll(cs, ms, search, clock, decay)| == |cs|
    ensures forall i :: 0 <= i < |cs| ==>
      ScoredAll(cs, ms, search, clock, decay)[i] == ScoredEntry(cs[i], ms[i], search, clock, decay)
  {
    MapPairsIndex(cs, ms, (c, m) => ScoredEntry(c, m, search, clock, decay));
  }

  /** The body of the `score_chunks` loop: `{"chunk": …, "metadata": {**metadata, …}}`. */
  method ScoreEntry(c: Chunk, meta: Metadata, search: Search, clock: Clock, decay: int -> real)
    returns (entry: ScoredChunk)
    ensures entry == ScoredEntry(c, meta, search, clock, decay)
  {
    var score := ScoreChunk(c, meta, search, clock, decay);
    var category := CategorizeImportance(score);
    entry := ScoredChunk(c, meta.(importanceScore := Some(score), importanceCategory := Some(category)));
  }

  /**
    Every scored entry keeps the other metadata entries, and its tier is
    the category of its score.
  */
  lemma WithImportanceKeeps(meta: Metadata, score: real)
    ensures var m := WithImportance(meta, score);
      m.sessionId == meta.sessionId && m.timestamp == meta.timestamp && m.intent == meta.intent &&
      m.action == meta.action && m.outcome == meta.outcome && m.toolCount == meta.toolCount &&
      m.artifacts == meta.artifacts && m.importanceScore == Some(score) &&
      (m.importanceCategory == Some(Critical) <==> score >= 20.0)
  {
  }
}
