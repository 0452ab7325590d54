/**
  The memory pruner: a three-stage eviction cascade over the rows one
  session holds in the store (old and unimportant, near-duplicate, over
  capacity), reported in a dry run or carried out.

  The store is a snapshot of its rows (`None` when the collection could
  not be opened); the cosine similarity of two embeddings, the clock and
  the store's answer to a deletion are parameters.
*/
module MemoryPruning {
  import opened Support
  import opened MemoryRecords

  /** `MAX_MEMORIES_PER_SESSION`. */
  const MaxMemoriesPerSession: nat := 500

  /** `OLD_MEMORY_DAYS`. */
  const OldMemoryDays: int := 90

  /** `LOW_IMPORTANCE_THRESHOLD`. */
  const LowImportanceThreshold: real := 3.0

  /** `REDUNDANCY_THRESHOLD`. */
  const RedundancyThreshold: real := 0.95

  /** `KEEP_CRITICAL_DAYS`. */
  const KeepCriticalDays: int := 365

  /** The cosine similarity numpy computes for two embeddings. */
  type Cosine = (seq<real>, seq<real>) -> real

  /** Why a memory is pruned. */
  datatype Reason = OldAndUnimportant(ageDays: int, score: real) | Redundant(similarity: real) | OverCapacity(score: real)

  /** `memories_to_delete` and `pruning_reasons`. */
  datatype Marks = Marks(ids: seq<string>, reasons: map<string, Reason>)

  const NoMarks := Marks([], map[])

  /** Appends `id` to the deletion list and records its reason. */
  function Mark(m: Marks, id: string, r: Reason): Marks
  {
    Marks(m.ids + [id], m.reasons[id := r])
  }

  /** `importance_score`, 0.0 when absent. */
  function Score(row: StoredMemory): real
  {
    GetOr(row.metadata.importanceScore, 0.0)
  }

  predicate IsCritical(row: StoredMemory)
  {
    row.metadata.importanceCategory == Some(Critical)
  }

  /** Every marked id has a reason, and only marked ids have one. */
  ghost predicate Coherent(m: Marks)
  {
    forall x :: x in m.reasons <==> x in m.ids
  }

  function RowId(row: StoredMemory): string
  {
    row.id
  }

  function Ident(x: string): string
  {
    x
  }

  /** No id is marked twice. */
  ghost predicate NoRepeats(s: seq<string>)
  {
    DistinctBy(s, Ident)
  }

  /** `r` keeps the marks of `m`, in order, with their reasons. */
  ghost predicate Extends(m: Marks, r: Marks)
  {
    m.ids <= r.ids &&
    forall x :: x in m.reasons ==> x in r.reasons && r.reasons[x] == m.reasons[x]
  }

  lemma ExtendsIn(m: Marks, r: Marks, x: string)
    requires Extends(m, r) && x in m.ids
    ensures x in r.ids
  {
    var k :| 0 <= k < |m.ids| && m.ids[k] == x;
    assert r.ids[k] == x;
  }

  lemma IdsDistinct(rows: seq<StoredMemory>)
    ensures DistinctIds(rows) <==> DistinctBy(rows, RowId)
  {
  }

  /** Marking an id not marked yet keeps the ids free of repeats. */
  lemma MarkFresh(m: Marks, id: string, r: Reason)
    requires NoRepeats(m.ids) && id !in m.ids
    ensures NoRepeats(Mark(m, id, r).ids)
  {
    var s := Mark(m, id, r).ids;
    forall i, j | 0 <= i < j < |s| ensures s[i] != s[j] {
      if j == |m.ids| {
        assert s[i] == m.ids[i];
      } else {
        assert s[i] == m.ids[i] && s[j] == m.ids[j];
      }
    }
  }

  // ---------------------------------------------------------------------
  // Stage 1: old and unimportant
  // ---------------------------------------------------------------------

  /**
    A row is pruned for its age when its timestamp parses, it is more than
    90 whole days old, it scores below 3.0, and it is not critical or is
    more than 365 days old.
  */
  predicate AgePruned(row: StoredMemory, clock: Clock)
  {
    var age := AgeDays(clock, row.metadata.timestamp);
    age.Some? && age.value > OldMemoryDays && Score(row) < LowImportanceThreshold &&
    (!IsCritical(row) || age.value > KeepCriticalDays)
  }

  function Stage1(rows: seq<StoredMemory>, clock: Clock): Marks
    decreases |rows|
  {
    if rows == [] then NoMarks else
    var m := Stage1(Init(rows), clock);
    var row := Last(rows);
    if AgePruned(row, clock)
    then Mark(m, row.id, OldAndUnimportant(AgeDays(clock, row.metadata.timestamp).value, Score(row)))
    else m
  }

  /** Strategy 1 of `prune_session_memories`. */
  method MarkOldUnimportant(rows: seq<StoredMemory>, clock: Clock) returns (m: Marks)
    ensures m == Stage1(rows, clock)
  {
    m := NoMarks;
    for i := 0 to |rows|
      invariant m == Stage1(rows[..i], clock)
    {
      assert Init(rows[..i + 1]) == rows[..i] && Last(rows[..i + 1]) == rows[i];
      var row := rows[i];
      var timestamp := row.metadata.timestamp;
      var importanceScore := GetOr(row.metadata.importanceScore, 0.0);
      if timestamp.Some? && timestamp.value != "" {
        var memoryTime := clock.parse(timestamp.value);
        if memoryTime.Some? {
          var ageDays := (clock.now - memoryTime.value) / MicrosPerDay;
          if ageDays > OldMemoryDays && importanceScore < LowImportanceThreshold {
            if row.metadata.importanceCategory != Some(Critical) || ageDays > KeepCriticalDays {
              m := Mark(m, row.id, OldAndUnimportant(ageDays, importanceScore));
            }
          }
        }
      }
    }
    assert rows[..|rows|] == rows;
  }

  function AgedOut(clock: Clock): StoredMemory -> bool
  {
    (row: StoredMemory) => AgePruned(row, clock)
  }

  /**
    Stage 1 marks exactly the ids of the rows that aged out, in row order,
    each with a reason, and marks none twice when the ids are distinct.
  */
  lemma {:induction false} Stage1Marks(rows: seq<StoredMemory>, clock: Clock)
    ensures Stage1(rows, clock).ids == MapSeq(Filter(rows, AgedOut(clock)), RowId)
    ensures Coherent(Stage1(rows, clock))
    ensures DistinctIds(rows) ==> NoRepeats(Stage1(rows, clock).ids)
    decreases |rows|
  {
    if rows != [] {
      Stage1Marks(Init(rows), clock);
      var f := Filter(Init(rows), AgedOut(clock));
      if AgePruned(Last(rows), clock) {
        assert Init(f + [Last(rows)]) == f && Last(f + [Last(rows)]) == Last(rows);
      }
    }
    if DistinctIds(rows) {
      IdsDistinct(rows);
      DistinctByFilter(rows, AgedOut(clock), RowId);
      FilterMembers(rows, AgedOut(clock));
      DistinctByMap(Filter(rows, AgedOut(clock)), RowId, RowId, Ident);
    }
  }

  /**
    A row that aged out is recorded with its age in whole days and its
    score, when the ids are distinct.
  */
  lemma {:induction false} Stage1Reasons(rows: seq<StoredMemory>, clock: Clock, row: StoredMemory)
    requires DistinctIds(rows) && row in rows && AgePruned(row, clock)
    ensures row.id in Stage1(rows, clock).reasons
    ensures Stage1(rows, clock).reasons[row.id] == OldAndUnimportant(AgeDays(clock, row.metadata.timestamp).value, Score(row))
    decreases |rows|
  {
    if row != Last(rows) {
      InitLast(rows);
      var k :| 0 <= k < |rows| && rows[k] == row;
      assert k < |rows| - 1;
      assert Init(rows)[k] == row;
      assert DistinctIds(Init(rows)) by {
        forall i, j | 0 <= i < j < |Init(rows)| ensures Init(rows)[i].id != Init(rows)[j].id {
          assert Init(rows)[i] == rows[i] && Init(rows)[j] == rows[j];
        }
      }
      Stage1Reasons(Init(rows), clock, row);
      assert Last(rows).id != row.id;
    }
  }

  // ---------------------------------------------------------------------
  // Stage 2: near-duplicates
  // ---------------------------------------------------------------------

  /**
    Row `i` against a later row `j`: an unmarked `j` more than 0.95 similar
    to `i` marks the lower scoring of the two, `j` on a tie, unless it is
    marked already.
  */
  function PairStep(rows: seq<StoredMemory>, cos: Cosine, i: nat, j: nat, m: Marks): Marks
    requires i < j < |rows|
  {
    if rows[j].id in m.ids then m
    else
      var similarity := cos(rows[i].embedding, rows[j].embedding);
      if similarity > RedundancyThreshold then
        var victim := if Score(rows[i]) >= Score(rows[j]) then rows[j].id else rows[i].id;
        if victim in m.ids then m else Mark(m, victim, Redundant(similarity))
      else m
  }

  /** Row `i` against the rows `i + 1 .. k - 1`. */
  function Partners(rows: seq<StoredMemory>, cos: Cosine, i: nat, k: nat, m: Marks): Marks
    requires i < k <= |rows|
    decreases k
  {
    if k == i + 1 then m else PairStep(rows, cos, i, k - 1, Partners(rows, cos, i, k - 1, m))
  }

  /** The rows `0 .. k - 1` against their later rows; a row marked before its turn is skipped. */
  function Stage2(rows: seq<StoredMemory>, cos: Cosine, k: nat, m: Marks): Marks
    requires k <= |rows|
    decreases k
  {
    if k == 0 then m else
    var m' := Stage2(rows, cos, k - 1, m);
    if rows[k - 1].id in m'.ids then m' else Partners(rows, cos, k - 1, |rows|, m')
  }

  /** The inner loop of strategy 2, over the partners of row `i`. */
  method ScanPartners(rows: seq<StoredMemory>, cos: Cosine, i: nat, m0: Marks) returns (m: Marks)
    requires i < |rows|
    ensures m == Partners(rows, cos, i, |rows|, m0)
  {
    m := m0;
    for j := i + 1 to |rows|
      invariant m == Partners(rows, cos, i, j, m0)
    {
      if rows[j].id in m.ids {
        continue;
      }
      var similarity := cos(rows[i].embedding, rows[j].embedding);
      if similarity > RedundancyThreshold {
        var scoreI := GetOr(rows[i].metadata.importanceScore, 0.0);
        var scoreJ := GetOr(rows[j].metadata.importanceScore, 0.0);
        var toDelete := if scoreI >= scoreJ then rows[j].id else rows[i].id;
        if toDelete !in m.ids {
          m := Mark(m, toDelete, Redundant(similarity));
        }
      }
    }
  }

  /** Strategy 2 of `prune_session_memories`. */
  method MarkRedundant(rows: seq<StoredMemory>, cos: Cosine, m0: Marks) returns (m: Marks)
    ensures m == Stage2(rows, cos, |rows|, m0)
  {
    m := m0;
    for i := 0 to |rows|
      invariant m == Stage2(rows, cos, i, m0)
    {
      if rows[i].id in m.ids {
        continue;
      }
      m := ScanPartners(rows, cos, i, m);
    }
  }

  /** Rows `i < j` are near-duplicates and `x` is the one of them the pair marks. */
  ghost predicate RedundantPair(rows: seq<StoredMemory>, cos: Cosine, i: int, j: int, x: string)
  {
    0 <= i < j < |rows| && cos(rows[i].embedding, rows[j].embedding) > RedundancyThreshold &&
    x == (if Score(rows[i]) >= Score(rows[j]) then rows[j].id else rows[i].id)
  }

  /**
    Every id `r` marks beyond `m` is the lower scoring row of a
    near-duplicate pair (the later one on a tie), recorded with the pair's
    similarity.
  */
  ghost predicate Justified(rows: seq<StoredMemory>, cos: Cosine, m: Marks, r: Marks)
  {
    forall x :: x in r.ids && x !in m.ids ==>
      x in r.reasons &&
      exists i, j :: RedundantPair(rows, cos, i, j, x) && r.reasons[x] == Redundant(cos(rows[i].embedding, rows[j].embedding))
  }

  /** What stage 2 keeps true of the marks from one step to the next. */
  ghost predicate Grows(rows: seq<StoredMemory>, cos: Cosine, m: Marks, r: Marks)
  {
    Coherent(r) && Extends(m, r) && Justified(rows, cos, m, r) && (NoRepeats(m.ids) ==> NoRepeats(r.ids))
  }

  /** Rows `i` and `j` are not both left unmarked while being near-duplicates. */
  ghost predicate Settled(rows: seq<StoredMemory>, cos: Cosine, i: nat, j: nat, r: Marks)
    requires i < |rows| && j < |rows|
  {
    rows[i].id in r.ids || rows[j].id in r.ids || cos(rows[i].embedding, rows[j].embedding) <= RedundancyThreshold
  }

  lemma SettledMono(rows: seq<StoredMemory>, cos: Cosine, i: nat, j: nat, r: Marks, r': Marks)
    requires i < |rows| && j < |rows| && Settled(rows, cos, i, j, r) && Extends(r, r')
    ensures Settled(rows, cos, i, j, r')
  {
    if rows[i].id in r.ids {
      ExtendsIn(r, r', rows[i].id);
    } else if rows[j].id in r.ids {
      ExtendsIn(r, r', rows[j].id);
    }
  }

  lemma GrowsTrans(rows: seq<StoredMemory>, cos: Cosine, m1: Marks, m2: Marks, m3: Marks)
    requires Coherent(m2) && Grows(rows, cos, m1, m2) && Grows(rows, cos, m2, m3)
    ensures Grows(rows, cos, m1, m3)
  {
    assert m1.ids <= m3.ids by {
      assert m3.ids[..|m1.ids|] == m2.ids[..|m1.ids|];
    }
    forall x | x in m3.ids && x !in m1.ids
      ensures x in m3.reasons
      ensures exists i, j :: RedundantPair(rows, cos, i, j, x) && m3.reasons[x] == Redundant(cos(rows[i].embedding, rows[j].embedding))
    {
      if x in m2.ids {
        var i, j :| RedundantPair(rows, cos, i, j, x) && m2.reasons[x] == Redundant(cos(rows[i].embedding, rows[j].embedding));
        assert RedundantPair(rows, cos, i, j, x) && m3.reasons[x] == Redundant(cos(rows[i].embedding, rows[j].embedding));
      }
    }
  }

  lemma PairStepGrows(rows: seq<StoredMemory>, cos: Cosine, i: nat, j: nat, m: Marks)
    requires i < j < |rows| && Coherent(m)
    ensures Grows(rows, cos, m, PairStep(rows, cos, i, j, m))
    ensures Settled(rows, cos, i, j, PairStep(rows, cos, i, j, m))
  {
    var r := PairStep(rows, cos, i, j, m);
    if rows[j].id !in m.ids {
      var similarity := cos(rows[i].embedding, rows[j].embedding);
      var victim := if Score(rows[i]) >= Score(rows[j]) then rows[j].id else rows[i].id;
      if similarity > RedundancyThreshold && victim !in m.ids {
        assert RedundantPair(rows, cos, i, j, victim);
        assert r.ids[..|m.ids|] == m.ids;
        if NoRepeats(m.ids) {
          MarkFresh(m, victim, Redundant(similarity));
        }
      }
    }
  }

  lemma GrowsRefl(rows: seq<StoredMemory>, cos: Cosine, m: Marks)
    requires Coherent(m)
    ensures Grows(rows, cos, m, m)
  {
  }

  lemma {:induction false} PartnersGrows(rows: seq<StoredMemory>, cos: Cosine, i: nat, k: nat, m: Marks)
    requires i < k <= |rows| && Coherent(m)
    ensures Grows(rows, cos, m, Partners(rows, cos, i, k, m))
    decreases k
  {
    if k == i + 1 {
      GrowsRefl(rows, cos, m);
    } else {
      PartnersGrows(rows, cos, i, k - 1, m);
      GrowsThenStep(rows, cos, i, k - 1, m, Partners(rows, cos, i, k - 1, m));
    }
  }

  lemma GrowsThenStep(rows: seq<StoredMemory>, cos: Cosine, i: nat, j: nat, m: Marks, m1: Marks)
    requires i < j < |rows| && Grows(rows, cos, m, m1)
    ensures Grows(rows, cos, m, PairStep(rows, cos, i, j, m1))
  {
    PairStepGrows(rows, cos, i, j, m1);
    GrowsTrans(rows, cos, m, m1, PairStep(rows, cos, i, j, m1));
  }

  lemma {:induction false} PartnersSettle(rows: seq<StoredMemory>, cos: Cosine, i: nat, k: nat, m: Marks)
    requires i < k <= |rows| && Coherent(m)
    ensures forall j :: i < j < k ==> Settled(rows, cos, i, j, Partners(rows, cos, i, k, m))
    decreases k
  {
    if k > i + 1 {
      var m1 := Partners(rows, cos, i, k - 1, m);
      var r := PairStep(rows, cos, i, k - 1, m1);
      PartnersSettle(rows, cos, i, k - 1, m);
      assert Coherent(m1) by {
        PartnersGrows(rows, cos, i, k - 1, m);
      }
      assert Extends(m1, r) && Settled(rows, cos, i, k - 1, r) by {
        PairStepGrows(rows, cos, i, k - 1, m1);
      }
      forall j | i < j < k - 1 ensures Settled(rows, cos, i, j, r) {
        SettledMono(rows, cos, i, j, m1, r);
      }
    }
  }

  /**
    Stage 2 over the first `k` rows: every id it marks comes from a
    near-duplicate pair, earlier marks and reasons stay, and no near-
    duplicate pair whose first row is among the `k` is left unmarked.
  */
  lemma {:induction false} Stage2Grows(rows: seq<StoredMemory>, cos: Cosine, k: nat, m: Marks)
    requires k <= |rows| && Coherent(m)
    ensures Grows(rows, cos, m, Stage2(rows, cos, k, m))
    ensures SettledBelow(rows, cos, k, Stage2(rows, cos, k, m))
    decreases k
  {
    if k == 0 {
      GrowsRefl(rows, cos, m);
    } else {
      var m1 := Stage2(rows, cos, k - 1, m);
      Stage2Grows(rows, cos, k - 1, m);
      if rows[k - 1].id !in m1.ids {
        Stage2Step(rows, cos, k, m, m1);
      } else {
        SettledSkip(rows, cos, k, m1);
      }
    }
  }

  /** No near-duplicate pair whose first row is among the first `k` is left with both rows unmarked. */
  ghost predicate SettledBelow(rows: seq<StoredMemory>, cos: Cosine, k: nat, r: Marks)
  {
    forall i, j :: 0 <= i < k && i < j < |rows| ==> Settled(rows, cos, i, j, r)
  }

  /** A row already marked settles every pair it starts. */
  lemma SettledSkip(rows: seq<StoredMemory>, cos: Cosine, k: nat, r: Marks)
    requires 0 < k <= |rows| && SettledBelow(rows, cos, k - 1, r) && rows[k - 1].id in r.ids
    ensures SettledBelow(rows, cos, k, r)
  {
  }

  /** Scanning the partners of row `k - 1` keeps what stage 2 has established for the rows before it. */
  lemma Stage2Step(rows: seq<StoredMemory>, cos: Cosine, k: nat, m: Marks, m1: Marks)
    requires 0 < k <= |rows| && Coherent(m) && Grows(rows, cos, m, m1) && SettledBelow(rows, cos, k - 1, m1)
    ensures Grows(rows, cos, m, Partners(rows, cos, k - 1, |rows|, m1))
    ensures SettledBelow(rows, cos, k, Partners(rows, cos, k - 1, |rows|, m1))
  {
    var r := Partners(rows, cos, k - 1, |rows|, m1);
    PartnersGrows(rows, cos, k - 1, |rows|, m1);
    PartnersSettle(rows, cos, k - 1, |rows|, m1);
    GrowsTrans(rows, cos, m, m1, r);
    forall i, j | 0 <= i < k - 1 && i < j < |rows| ensures Settled(rows, cos, i, j, r) {
      SettledMono(rows, cos, i, j, m1, r);
    }
  }

  /**
    After stage 2 no two rows left unmarked are more than 0.95 similar;
    every id it adds is the lower scoring row of such a pair.
  */
  lemma Stage2Properties(rows: seq<StoredMemory>, cos: Cosine, m: Marks)
    requires Coherent(m)
    ensures Grows(rows, cos, m, Stage2(rows, cos, |rows|, m))
    ensures forall i, j :: 0 <= i < j < |rows| && rows[i].id !in Stage2(rows, cos, |rows|, m).ids && rows[j].id !in Stage2(rows, cos, |rows|, m).ids ==>
      cos(rows[i].embedding, rows[j].embedding) <= RedundancyThreshold
  {
    var r := Stage2(rows, cos, |rows|, m);
    Stage2Grows(rows, cos, |rows|, m);
    forall i, j | 0 <= i < j < |rows| && rows[i].id !in r.ids && rows[j].id !in r.ids
      ensures cos(rows[i].embedding, rows[j].embedding) <= RedundancyThreshold
    {
      assert Settled(rows, cos, i, j, r);
    }
  }

  /** A similarity under which every embedding equal to `[1.0]` nearly copies every other one. */
  function NearCopies(): Cosine
  {
    (a: seq<real>, b: seq<real>) => if a == [1.0] || b == [1.0] then 0.99 else 0.0
  }

  function Row(id: string, score: real, embedding: seq<real>): StoredMemory
  {
    StoredMemory(id, "", EmptyMetadata.(importanceScore := Some(score)), embedding)
  }

  /**
    A row marked while its own partners are scanned still marks its later
    near-duplicates: "a" loses to "b", then "c" loses to "a", so "c" goes
    although the one row it nearly copies goes too.
  */
  lemma Stage2DropsBothCopies()
    ensures var rows := [Row("a", 5.0, [1.0]), Row("b", 10.0, [0.0]), Row("c", 1.0, [0.0])];
      Stage2(rows, NearCopies(), 3, NoMarks).ids == ["a", "c"] &&
      NearCopies()(rows[1].embedding, rows[2].embedding) <= RedundancyThreshold
  {
    var rows := [Row("a", 5.0, [1.0]), Row("b", 10.0, [0.0]), Row("c", 1.0, [0.0])];
    var cos := NearCopies();
    assert Stage2(rows, cos, 0, NoMarks) == NoMarks;
    var ma := Mark(NoMarks, "a", Redundant(0.99));
    assert PairStep(rows, cos, 0, 1, NoMarks) == ma;
    assert Partners(rows, cos, 0, 2, NoMarks) == ma;
    var mac := Mark(ma, "c", Redundant(0.99));
    assert PairStep(rows, cos, 0, 2, ma) == mac;
    assert Partners(rows, cos, 0, 3, NoMarks) == mac;
    assert Stage2(rows, cos, 1, NoMarks) == mac;
    assert PairStep(rows, cos, 1, 2, mac) == mac;
    assert Partners(rows, cos, 1, 3, mac) == mac;
    assert Stage2(rows, cos, 2, NoMarks) == mac;
    assert Stage2(rows, cos, 3, NoMarks) == mac;
  }

  // ---------------------------------------------------------------------
  // Stage 3: capacity
  // ---------------------------------------------------------------------

  function ScoredRow(row: StoredMemory): (string, real)
  {
    (row.id, Score(row))
  }

  function ScoreOf(x: (string, real)): real
  {
    x.1
  }

  function UnmarkedBy(m: Marks): StoredMemory -> bool
  {
    (row: StoredMemory) => row.id !in m.ids
  }

  /** The unmarked rows with their scores, highest score first (stable). */
  function Ranking(rows: seq<StoredMemory>, m: Marks): seq<(string, real)>
  {
    SortDesc(MapSeq(Filter(rows, UnmarkedBy(m)), ScoredRow), ByKey(ScoreOf))
  }

  /** Marks every id of `xs`, in order, as over capacity. */
  function MarkAll(m: Marks, xs: seq<(string, real)>): Marks
    decreases |xs|
  {
    if xs == [] then m else Mark(MarkAll(m, Init(xs)), Last(xs).0, OverCapacity(Last(xs).1))
  }

  /** Past the first 500 of the ranking, when more than 500 rows remain by count. */
  function Stage3(rows: seq<StoredMemory>, m: Marks): Marks
  {
    if |rows| - |m.ids| > MaxMemoriesPerSession
    then MarkAll(m, PySlice(Ranking(rows, m), MaxMemoriesPerSession, |Ranking(rows, m)|))
    else m
  }

  /** Strategy 3 of `prune_session_memories`. */
  method MarkOverCapacity(rows: seq<StoredMemory>, m0: Marks) returns (m: Marks)
    ensures m == Stage3(rows, m0)
  {
    m := m0;
    var remaining := |rows| - |m.ids|;
    if remaining > MaxMemoriesPerSession {
      var scoredMemories: seq<(string, real)> := [];
      for i := 0 to |rows|
        invariant scoredMemories == MapSeq(Filter(rows[..i], UnmarkedBy(m0)), ScoredRow)
      {
        assert Init(rows[..i + 1]) == rows[..i] && Last(rows[..i + 1]) == rows[i];
        if rows[i].id !in m.ids {
          ghost var kept := Filter(rows[..i], UnmarkedBy(m0));
          assert Init(kept + [rows[i]]) == kept && Last(kept + [rows[i]]) == rows[i];
          scoredMemories := scoredMemories + [(rows[i].id, GetOr(rows[i].metadata.importanceScore, 0.0))];
        }
      }
      assert rows[..|rows|] == rows;
      scoredMemories := SortDesc(scoredMemories, ByKey(ScoreOf));
      var tail := PySlice(scoredMemories, MaxMemoriesPerSession, |scoredMemories|);
      for k := 0 to |tail|
        invariant m == MarkAll(m0, tail[..k])
      {
        assert Init(tail[..k + 1]) == tail[..k] && Last(tail[..k + 1]) == tail[k];
        m := Mark(m, tail[k].0, OverCapacity(tail[k].1));
      }
      assert tail[..|tail|] == tail;
    }
  }

  function PairId(x: (string, real)): string
  {
    x.0
  }

  /** Every marked id is the id of one of the rows. */
  ghost predicate OfRows(ids: seq<string>, rows: seq<StoredMemory>)
  {
    forall x :: x in ids ==> x in KeysOf(rows, RowId)
  }

  /** Marking a list appends its ids in order. */
  lemma {:induction false} MarkAllIds(m: Marks, xs: seq<(string, real)>)
    ensures MarkAll(m, xs).ids == m.ids + MapSeq(xs, PairId)
    decreases |xs|
  {
    if xs != [] {
      MarkAllIds(m, Init(xs));
    }
  }

  /** Marking a list keeps the reasons of the ids it does not mark again. */
  lemma {:induction false} MarkAllKeeps(m: Marks, xs: seq<(string, real)>)
    ensures Coherent(m) ==> Coherent(MarkAll(m, xs))
    ensures forall x :: x in m.reasons && x !in MapSeq(xs, PairId) ==>
      x in MarkAll(m, xs).reasons && MarkAll(m, xs).reasons[x] == m.reasons[x]
    decreases |xs|
  {
    if xs != [] {
      MarkAllKeeps(m, Init(xs));
      assert MapSeq(xs, PairId) == MapSeq(Init(xs), PairId) + [Last(xs).0];
    }
  }

  /** Marking a list with distinct ids records each one's score as its reason. */
  lemma {:induction false} MarkAllReasons(m: Marks, xs: seq<(string, real)>)
    requires DistinctBy(xs, PairId)
    ensures forall y :: y in xs ==> y.0 in MarkAll(m, xs).reasons && MarkAll(m, xs).reasons[y.0] == OverCapacity(y.1)
    decreases |xs|
  {
    if xs != [] {
      var p, z := Init(xs), Last(xs);
      InitLast(xs);
      assert DistinctBy(p, PairId) by {
        forall i, j | 0 <= i < j < |p| ensures p[i].0 != p[j].0 {
          assert p[i] == xs[i] && p[j] == xs[j];
        }
      }
      MarkAllReasons(m, p);
      forall y | y in p ensures y.0 != z.0 {
        var k :| 0 <= k < |p| && p[k] == y;
        assert xs[k] == y && xs[|xs| - 1] == z;
      }
    }
  }

  /** The ids of the unmarked rows are the row ids that are not marked. */
  lemma UnmarkedKeys(rows: seq<StoredMemory>, m: Marks)
    ensures KeysOf(Filter(rows, UnmarkedBy(m)), RowId) == KeysOf(rows, RowId) - KeysOf(m.ids, Ident)
  {
    var u := Filter(rows, UnmarkedBy(m));
    FilterMembers(rows, UnmarkedBy(m));
    forall x ensures x in KeysOf(u, RowId) <==> x in KeysOf(rows, RowId) && x !in KeysOf(m.ids, Ident) {
      if x in KeysOf(u, RowId) {
        var v :| v in u && v.id == x;
        assert v in rows && v.id !in m.ids;
      }
      if x in KeysOf(rows, RowId) && x !in KeysOf(m.ids, Ident) {
        var v :| v in rows && v.id == x;
        assert v in u;
      }
    }
  }

  /** A set split in two disjoint parts has as many items as the parts together. */
  lemma SplitCard(all: set<string>, marked: set<string>)
    requires marked <= all
    ensures |all - marked| == |all| - |marked|
  {
    assert all == (all - marked) + marked && (all - marked) * marked == {};
  }

  /** With distinct ids, the unmarked rows number the rows less the marks. */
  lemma UnmarkedCount(rows: seq<StoredMemory>, m: Marks)
    requires DistinctIds(rows) && NoRepeats(m.ids) && OfRows(m.ids, rows)
    ensures |Filter(rows, UnmarkedBy(m))| == |rows| - |m.ids|
  {
    var u := Filter(rows, UnmarkedBy(m));
    var all, marked := KeysOf(rows, RowId), KeysOf(m.ids, Ident);
    assert |all| == |rows| by {
      IdsDistinct(rows);
      DistinctByCard(rows, RowId);
    }
    assert |marked| == |m.ids| by {
      DistinctByCard(m.ids, Ident);
    }
    assert |KeysOf(u, RowId)| == |u| by {
      IdsDistinct(rows);
      DistinctByFilter(rows, UnmarkedBy(m), RowId);
      DistinctByCard(u, RowId);
    }
    assert marked <= all by {
      forall x | x in marked ensures x in all {
        var y :| y in m.ids && Ident(y) == x;
      }
    }
    UnmarkedKeys(rows, m);
    SplitCard(all, marked);
  }

  /** The facts about the ranking stage 3 uses. */
  lemma RankingFacts(rows: seq<StoredMemory>, m: Marks)
    requires DistinctIds(rows)
    ensures var u := Filter(rows, UnmarkedBy(m));
      |Ranking(rows, m)| == |u| &&
      DistinctBy(Ranking(rows, m), PairId) &&
      SortedBy(Ranking(rows, m), ByKey(ScoreOf)) &&
      (forall y :: y in Ranking(rows, m) ==> exists row :: row in u && y == ScoredRow(row)) &&
      (forall row :: row in u ==> ScoredRow(row) in Ranking(rows, m))
  {
    var u := Filter(rows, UnmarkedBy(m));
    var s := MapSeq(u, ScoredRow);
    var r := Ranking(rows, m);
    IdsDistinct(rows);
    DistinctByFilter(rows, UnmarkedBy(m), RowId);
    DistinctByMap(u, ScoredRow, RowId, PairId);
    SortByKeyProperties(s, ScoreOf);
    DistinctByPerm(s, r, PairId);
    ByKeyIsTotalPreorder(ScoreOf);
    SortDescSorted(s, ByKey(ScoreOf));
    forall y | y in r ensures exists row :: row in u && y == ScoredRow(row) {
      assert y in multiset(r);
      MapSeqIn(u, ScoredRow, y);
    }
    forall row | row in u ensures ScoredRow(row) in r {
      MapSeqHas(u, ScoredRow, row);
      assert ScoredRow(row) in multiset(s);
    }
  }

  /** Two rows with one id are one row, when the ids are distinct. */
  lemma SameRow(rows: seq<StoredMemory>, a: StoredMemory, b: StoredMemory)
    requires DistinctIds(rows) && a in rows && b in rows && a.id == b.id
    ensures a == b
  {
    var i :| 0 <= i < |rows| && rows[i] == a;
    var j :| 0 <= j < |rows| && rows[j] == b;
  }

  /** The capacity cut: the ranking past its first 500 entries. */
  function Overflow(rows: seq<StoredMemory>, m: Marks): seq<(string, real)>
  {
    PySlice(Ranking(rows, m), MaxMemoriesPerSession, |Ranking(rows, m)|)
  }

  /** Each id of the capacity cut belongs to an unmarked row. */
  lemma OverflowRows(rows: seq<StoredMemory>, m: Marks)
    requires DistinctIds(rows)
    ensures forall x :: x in MapSeq(Overflow(rows, m), PairId) ==> x !in m.ids && x in KeysOf(rows, RowId)
  {
    var u := Filter(rows, UnmarkedBy(m));
    var ranking := Ranking(rows, m);
    var tail := Overflow(rows, m);
    RankingFacts(rows, m);
    FilterMembers(rows, UnmarkedBy(m));
    forall x | x in MapSeq(tail, PairId) ensures x !in m.ids && x in KeysOf(rows, RowId) {
      MapSeqIn(tail, PairId, x);
      var y :| y in tail && x == y.0;
      assert y in ranking;
      var row :| row in u && y == ScoredRow(row);
      assert row in rows && row.id !in m.ids;
    }
  }

  /**
    Stage 3 keeps the earlier marks and their reasons, marks no id twice
    and only ids of rows, and leaves exactly 500 rows unmarked when more
    than 500 were left; otherwise it marks nothing.
  */
  lemma Stage3Capacity(rows: seq<StoredMemory>, m: Marks)
    requires DistinctIds(rows) && Coherent(m) && NoRepeats(m.ids) && OfRows(m.ids, rows)
    ensures Extends(m, Stage3(rows, m)) && Coherent(Stage3(rows, m))
    ensures NoRepeats(Stage3(rows, m).ids) && OfRows(Stage3(rows, m).ids, rows)
    ensures |rows| - |m.ids| > MaxMemoriesPerSession ==> |rows| - |Stage3(rows, m).ids| == MaxMemoriesPerSession
    ensures |rows| - |m.ids| <= MaxMemoriesPerSession ==> Stage3(rows, m) == m
  {
    if |rows| - |m.ids| > MaxMemoriesPerSession {
      var ranking := Ranking(rows, m);
      var tail := Overflow(rows, m);
      var added := MapSeq(tail, PairId);
      var r := MarkAll(m, tail);
      assert |ranking| == |rows| - |m.ids| && DistinctBy(ranking, PairId) by {
        UnmarkedCount(rows, m);
        RankingFacts(rows, m);
      }
      assert tail == ranking[MaxMemoriesPerSession..];
      MarkAllIds(m, tail);
      MarkAllKeeps(m, tail);
      OverflowRows(rows, m);
      assert NoRepeats(r.ids) by {
        DistinctByDrop(ranking, PairId, MaxMemoriesPerSession);
        DistinctByMap(tail, PairId, PairId, Ident);
        DistinctByConcat(m.ids, added, Ident);
      }
      assert r.ids[..|m.ids|] == m.ids;
    } else {
      assert m.ids[..|m.ids|] == m.ids;
    }
  }

  /** The capacity cut has distinct ids, is the ranking past 500, and marks exactly its ids. */
  lemma OverflowFacts(rows: seq<StoredMemory>, m: Marks)
    requires DistinctIds(rows) && NoRepeats(m.ids) && OfRows(m.ids, rows)
    requires |rows| - |m.ids| > MaxMemoriesPerSession
    ensures |Ranking(rows, m)| == |rows| - |m.ids|
    ensures Overflow(rows, m) == Ranking(rows, m)[MaxMemoriesPerSession..]
    ensures DistinctBy(Overflow(rows, m), PairId)
    ensures Stage3(rows, m) == MarkAll(m, Overflow(rows, m))
    ensures Stage3(rows, m).ids == m.ids + MapSeq(Overflow(rows, m), PairId)
  {
    var ranking := Ranking(rows, m);
    assert |ranking| == |rows| - |m.ids| && DistinctBy(ranking, PairId) by {
      UnmarkedCount(rows, m);
      RankingFacts(rows, m);
    }
    DistinctByDrop(ranking, PairId, MaxMemoriesPerSession);
    MarkAllIds(m, Overflow(rows, m));
  }

  /** When stage 3 runs, a row it marks is in the capacity cut with its score. */
  lemma OverflowOrigin(rows: seq<StoredMemory>, m: Marks, row: StoredMemory)
    requires DistinctIds(rows) && NoRepeats(m.ids) && OfRows(m.ids, rows)
    requires |rows| - |m.ids| > MaxMemoriesPerSession
    requires row in rows && row.id in Stage3(rows, m).ids && row.id !in m.ids
    ensures ScoredRow(row) in Overflow(rows, m)
  {
    var u := Filter(rows, UnmarkedBy(m));
    var tail := Overflow(rows, m);
    OverflowFacts(rows, m);
    MapSeqIn(tail, PairId, row.id);
    var y :| y in tail && row.id == y.0;
    assert y in Ranking(rows, m) by {
      var k :| 0 <= k < |tail| && tail[k] == y;
      assert Ranking(rows, m)[MaxMemoriesPerSession + k] == y;
    }
    assert exists origin :: origin in u && y == ScoredRow(origin) by {
      RankingFacts(rows, m);
    }
    var origin :| origin in u && y == ScoredRow(origin);
    FilterIn(rows, UnmarkedBy(m), origin);
    SameRow(rows, origin, row);
  }

  /** When stage 3 runs, a row it leaves unmarked is among the first 500 of the ranking. */
  lemma KeptInHead(rows: seq<StoredMemory>, m: Marks, kept: StoredMemory)
    requires DistinctIds(rows) && NoRepeats(m.ids) && OfRows(m.ids, rows)
    requires |rows| - |m.ids| > MaxMemoriesPerSession
    requires kept in rows && kept.id !in Stage3(rows, m).ids
    ensures MaxMemoriesPerSession <= |Ranking(rows, m)| && ScoredRow(kept) in Ranking(rows, m)[..MaxMemoriesPerSession]
  {
    var ranking := Ranking(rows, m);
    var tail := Overflow(rows, m);
    var added := MapSeq(tail, PairId);
    OverflowFacts(rows, m);
    assert kept in Filter(rows, UnmarkedBy(m)) by {
      FilterMembers(rows, UnmarkedBy(m));
    }
    assert ScoredRow(kept) in ranking by {
      RankingFacts(rows, m);
    }
    forall z | z in tail ensures z.0 in added {
      MapSeqHas(tail, PairId, z);
    }
    assert ranking == ranking[..MaxMemoriesPerSession] + tail;
  }

  /** When stage 3 runs, a row it marks is recorded with its own score. */
  lemma Stage3Reason(rows: seq<StoredMemory>, m: Marks, row: StoredMemory)
    requires DistinctIds(rows) && NoRepeats(m.ids) && OfRows(m.ids, rows)
    requires |rows| - |m.ids| > MaxMemoriesPerSession
    requires row in rows && row.id in Stage3(rows, m).ids && row.id !in m.ids
    ensures row.id in Stage3(rows, m).reasons && Stage3(rows, m).reasons[row.id] == OverCapacity(Score(row))
  {
    OverflowOrigin(rows, m, row);
    OverflowFacts(rows, m);
    MarkAllReasons(m, Overflow(rows, m));
  }

  /** When stage 3 runs, every row it leaves unmarked scores at least as high as every row it marks. */
  lemma Stage3Keeps(rows: seq<StoredMemory>, m: Marks, row: StoredMemory, kept: StoredMemory)
    requires DistinctIds(rows) && NoRepeats(m.ids) && OfRows(m.ids, rows)
    requires |rows| - |m.ids| > MaxMemoriesPerSession
    requires row in rows && row.id in Stage3(rows, m).ids && row.id !in m.ids
    requires kept in rows && kept.id !in Stage3(rows, m).ids
    ensures Score(kept) >= Score(row)
  {
    var ranking := Ranking(rows, m);
    OverflowOrigin(rows, m, row);
    KeptInHead(rows, m, kept);
    OverflowFacts(rows, m);
    assert ScoreOf(ScoredRow(kept)) >= ScoreOf(ScoredRow(row)) by {
      RankingFacts(rows, m);
      SortedSplit(ranking, ByKey(ScoreOf), MaxMemoriesPerSession);
      assert ByKey(ScoreOf)(ScoredRow(kept), ScoredRow(row));
    }
  }

  // ---------------------------------------------------------------------
  // One session
  // ---------------------------------------------------------------------

  /** The three strategies in order; strategy 2 runs only when the store returned embeddings. */
  function Collect(rows: seq<StoredMemory>, clock: Clock, cos: Cosine, withEmbeddings: bool): Marks
  {
    Stage3(rows, Deduplicated(rows, clock, cos, withEmbeddings))
  }

  /** The marks of strategies 1 and 2. */
  function Deduplicated(rows: seq<StoredMemory>, clock: Clock, cos: Cosine, withEmbeddings: bool): Marks
  {
    var aged := Stage1(rows, clock);
    if withEmbeddings then Stage2(rows, cos, |rows|, aged) else aged
  }

  /** The three strategies of `prune_session_memories`, one after the other. */
  method CollectMarks(rows: seq<StoredMemory>, clock: Clock, cos: Cosine, withEmbeddings: bool) returns (marks: Marks)
    ensures marks == Collect(rows, clock, cos, withEmbeddings)
  {
    marks := MarkOldUnimportant(rows, clock);
    if withEmbeddings {
      marks := MarkRedundant(rows, cos, marks);
    }
    marks := MarkOverCapacity(rows, marks);
  }

  lemma Stage1OfRows(rows: seq<StoredMemory>, clock: Clock)
    ensures OfRows(Stage1(rows, clock).ids, rows)
  {
    Stage1Marks(rows, clock);
    forall x | x in Stage1(rows, clock).ids ensures x in KeysOf(rows, RowId) {
      MapSeqIn(Filter(rows, AgedOut(clock)), RowId, x);
      var row :| row in Filter(rows, AgedOut(clock)) && x == RowId(row);
      FilterIn(rows, AgedOut(clock), row);
    }
  }

  lemma Stage2OfRows(rows: seq<StoredMemory>, cos: Cosine, m: Marks)
    requires Coherent(m) && OfRows(m.ids, rows)
    ensures OfRows(Stage2(rows, cos, |rows|, m).ids, rows)
  {
    var r := Stage2(rows, cos, |rows|, m);
    assert Justified(rows, cos, m, r) by {
      Stage2Properties(rows, cos, m);
    }
    forall x | x in r.ids ensures x in KeysOf(rows, RowId) {
      if x !in m.ids {
        var i, j :| RedundantPair(rows, cos, i, j, x) && r.reasons[x] == Redundant(cos(rows[i].embedding, rows[j].embedding));
        assert rows[i] in rows && rows[j] in rows;
      }
    }
  }

  /**
    The marks of one pass: each with a reason, none twice, only ids of the
    session's rows, the aged-out ids first, at most 500 rows left, and no
    two rows left that are more than 0.95 similar when embeddings were there.
  */
  lemma PruneMarks(rows: seq<StoredMemory>, clock: Clock, cos: Cosine, withEmbeddings: bool)
    requires DistinctIds(rows)
    ensures Coherent(Collect(rows, clock, cos, withEmbeddings))
    ensures NoRepeats(Collect(rows, clock, cos, withEmbeddings).ids)
    ensures OfRows(Collect(rows, clock, cos, withEmbeddings).ids, rows)
    ensures Stage1(rows, clock).ids <= Collect(rows, clock, cos, withEmbeddings).ids
    ensures 0 <= |rows| - |Collect(rows, clock, cos, withEmbeddings).ids| <= MaxMemoriesPerSession
    ensures withEmbeddings ==> Separated(rows, cos, Collect(rows, clock, cos, withEmbeddings))
  {
    var aged := Stage1(rows, clock);
    var distinct := Deduplicated(rows, clock, cos, withEmbeddings);
    var m := Stage3(rows, distinct);
    DeduplicatedFacts(rows, clock, cos, withEmbeddings);
    Stage3Capacity(rows, distinct);
    assert aged.ids <= m.ids by {
      assert m.ids[..|distinct.ids|] == distinct.ids;
      assert m.ids[..|aged.ids|] == distinct.ids[..|aged.ids|];
    }
    UnmarkedCount(rows, m);
    if withEmbeddings {
      SeparatedKept(rows, cos, distinct, m);
    }
  }

  /** Strategies 1 and 2 mark only row ids, each once with a reason; with embeddings they leave no near-duplicates. */
  lemma DeduplicatedFacts(rows: seq<StoredMemory>, clock: Clock, cos: Cosine, withEmbeddings: bool)
    requires DistinctIds(rows)
    ensures var d := Deduplicated(rows, clock, cos, withEmbeddings);
      Coherent(d) && NoRepeats(d.ids) && OfRows(d.ids, rows) && Stage1(rows, clock).ids <= d.ids &&
      (withEmbeddings ==> Separated(rows, cos, d))
  {
    var aged := Stage1(rows, clock);
    assert Coherent(aged) && NoRepeats(aged.ids) && OfRows(aged.ids, rows) by {
      Stage1Marks(rows, clock);
      Stage1OfRows(rows, clock);
    }
    if withEmbeddings {
      Stage2Properties(rows, cos, aged);
      Stage2OfRows(rows, cos, aged);
    }
  }

  /** No two rows left unmarked by `m` are more than 0.95 similar. */
  ghost predicate Separated(rows: seq<StoredMemory>, cos: Cosine, m: Marks)
  {
    forall i, j :: 0 <= i < j < |rows| && rows[i].id !in m.ids && rows[j].id !in m.ids ==>
      cos(rows[i].embedding, rows[j].embedding) <= RedundancyThreshold
  }

  /** Marking more rows keeps the unmarked ones apart. */
  lemma SeparatedKept(rows: seq<StoredMemory>, cos: Cosine, d: Marks, m: Marks)
    requires Separated(rows, cos, d) && Extends(d, m)
    ensures Separated(rows, cos, m)
  {
    forall i, j | 0 <= i < j < |rows| && rows[i].id !in m.ids && rows[j].id !in m.ids
      ensures cos(rows[i].embedding, rows[j].embedding) <= RedundancyThreshold
    {
      if rows[i].id in d.ids {
        ExtendsIn(d, m, rows[i].id);
      }
      if rows[j].id in d.ids {
        ExtendsIn(d, m, rows[j].id);
      }
    }
  }

  datatype PruneError = NoCollection | DeleteFailed

  /** The dictionary `prune_session_memories` returns. */
  datatype PruneResult =
    | Failure(error: PruneError)
    | NoMemories
    | Report(totalMemories: nat, pruned: nat, kept: int, dryRun: bool, reasons: Option<map<string, Reason>>)

  /** `result.get("pruned", 0)`. */
  function PrunedOf(r: PruneResult): nat
  {
    if r.Report? then r.pruned else 0
  }

  /**
    What one session's pass reports: nothing found, a failed deletion, or
    the totals (with the reasons on a dry run). `deleteOk` is the store's
    answer to the deletion of the marked ids.
  */
  function PruneOutcome(rows: seq<StoredMemory>, clock: Clock, cos: Cosine, withEmbeddings: bool, dryRun: bool,
                        deleteOk: seq<string> -> bool): PruneResult
  {
    if rows == [] then NoMemories else
    var m := Collect(rows, clock, cos, withEmbeddings);
    if m.ids != [] && !dryRun && !deleteOk(m.ids) then Failure(DeleteFailed)
    else
      var prunedCount := if m.ids != [] && !dryRun then |m.ids| else 0;
      Report(|rows|, if dryRun then |m.ids| else prunedCount, |rows| - |m.ids|, dryRun,
             if dryRun then Some(m.reasons) else None)
  }

  /**
    A dry run reports what a real run deletes: the same counts, the pruned
    and kept rows adding up to the total, at most 500 kept, and a reason
    for exactly the ids the real run deletes; the real run fails only when
    the store refuses a non-empty deletion.
  */
  lemma PruneModes(rows: seq<StoredMemory>, clock: Clock, cos: Cosine, withEmbeddings: bool, deleteOk: seq<string> -> bool)
    requires DistinctIds(rows) && rows != []
    ensures PruneOutcome(rows, clock, cos, withEmbeddings, true, deleteOk).Report?
    ensures var dry := PruneOutcome(rows, clock, cos, withEmbeddings, true, deleteOk);
      dry.totalMemories == |rows| && dry.pruned + dry.kept == |rows| && 0 <= dry.kept <= MaxMemoriesPerSession &&
      dry.reasons.Some? &&
      forall x :: x in dry.reasons.value <==> x in Collect(rows, clock, cos, withEmbeddings).ids
    ensures var dry := PruneOutcome(rows, clock, cos, withEmbeddings, true, deleteOk);
      var run := PruneOutcome(rows, clock, cos, withEmbeddings, false, deleteOk);
      var ids := Collect(rows, clock, cos, withEmbeddings).ids;
      (run.Failure? <==> ids != [] && !deleteOk(ids)) &&
      (run.Report? ==> run.pruned == dry.pruned && run.kept == dry.kept && run.reasons.None?)
  {
    PruneMarks(rows, clock, cos, withEmbeddings);
  }

  /** Deleting by id: the rows whose ids are not listed. */
  function Remove(store: seq<StoredMemory>, ids: seq<string>): seq<StoredMemory>
  {
    Filter(store, (row: StoredMemory) => row.id !in ids)
  }

  /** The store after one session's pass. */
  function AfterPrune(store: seq<StoredMemory>, sessionId: string, clock: Clock, cos: Cosine, withEmbeddings: bool,
                      dryRun: bool, deleteOk: seq<string> -> bool): seq<StoredMemory>
  {
    var m := Collect(SessionRows(store, sessionId), clock, cos, withEmbeddings);
    if m.ids != [] && !dryRun && deleteOk(m.ids) then Remove(store, m.ids) else store
  }

  lemma IdsDetermineRows(store: seq<StoredMemory>)
    requires DistinctIds(store)
    ensures forall a, b :: a in store && b in store && a.id == b.id ==> a == b
  {
    forall a, b | a in store && b in store && a.id == b.id ensures a == b {
      SameRow(store, a, b);
    }
  }

  /**
    Deleting ids of one session's rows leaves the ids distinct and every
    other session's rows as they were.
  */
  lemma RemoveOtherSession(store: seq<StoredMemory>, s: string, t: string, ids: seq<string>)
    requires DistinctIds(store) && s != t && OfRows(ids, SessionRows(store, s))
    ensures DistinctIds(Remove(store, ids))
    ensures SessionRows(Remove(store, ids), t) == SessionRows(store, t)
  {
    var keep := (row: StoredMemory) => row.id !in ids;
    var inT := (row: StoredMemory) => row.metadata.sessionId == Some(t);
    assert DistinctIds(Remove(store, ids)) by {
      IdsDistinct(store);
      DistinctByFilter(store, keep, RowId);
      IdsDistinct(Remove(store, ids));
    }
    assert forall x :: x in store && inT(x) ==> keep(x) by {
      IdsDetermineRows(store);
      FilterMembers(store, (row: StoredMemory) => row.metadata.sessionId == Some(s));
    }
    FilterFilter(store, keep, inT);
  }

  // ---------------------------------------------------------------------
  // The pruner
  // ---------------------------------------------------------------------

  /** `session_id` values that are set and non-empty, once each. */
  function SessionIds(store: seq<StoredMemory>): set<string>
  {
    set row | row in store && row.metadata.sessionId.Some? && row.metadata.sessionId.value != "" :: row.metadata.sessionId.value
  }

  function PrunedBy(details: map<string, PruneResult>): map<string, int>
  {
    map s | s in details :: PrunedOf(details[s])
  }

  /** Recording one more session's result adds its pruned count to the total. */
  lemma PrunedByAdd(details: map<string, PruneResult>, s: string, r: PruneResult)
    requires s !in details
    ensures SumInt(PrunedBy(details[s := r])) == SumInt(PrunedBy(details)) + PrunedOf(r)
  {
    assert PrunedBy(details[s := r]) == PrunedBy(details)[s := PrunedOf(r)];
    SumIntAdd(PrunedBy(details), s, PrunedOf(r));
  }

  /** The dictionary `prune_all_sessions` returns. */
  datatype AllResult =
    | AllFailure(error: PruneError)
    | NothingStored
    | AllReport(totalPruned: int, sessionsProcessed: nat, sessionDetails: map<string, PruneResult>, dryRun: bool)

  /** What `get_pruning_statistics` returns. */
  datatype Statistics = SessionStatistics(session: PruneResult) | AllStatistics(all: AllResult)

  /**
    `MemoryPruner`: the store's collection (`None` when it could not be
    opened). A collection never holds two rows with one id.
  */
  class MemoryPruner {
    var collection: Option<seq<StoredMemory>>

    ghost predicate Valid()
      reads this
    {
      collection.Some? ==> DistinctIds(collection.value)
    }

    constructor(collection: Option<seq<StoredMemory>>)
      requires collection.Some? ==> DistinctIds(collection.value)
      ensures Valid() && this.collection == collection
    {
      this.collection := collection;
    }

    /** `prune_session_memories`: one pass over a session's rows, reported or carried out. */
    method PruneSessionMemories(sessionId: string, clock: Clock, cos: Cosine, withEmbeddings: bool, dryRun: bool,
                                deleteOk: seq<string> -> bool) returns (result: PruneResult)
      requires Valid()
      modifies this
      ensures Valid()
      ensures old(collection).None? ==> result == Failure(NoCollection) && collection == old(collection)
      ensures old(collection).Some? ==>
        result == PruneOutcome(SessionRows(old(collection).value, sessionId), clock, cos, withEmbeddings, dryRun, deleteOk) &&
        collection == Some(AfterPrune(old(collection).value, sessionId, clock, cos, withEmbeddings, dryRun, deleteOk))
    {
      if collection.None? {
        return Failure(NoCollection);
      }
      var store := collection.value;
      var rows := SessionRows(store, sessionId);
      if |rows| == 0 {
        return NoMemories;
      }
      var marks := CollectMarks(rows, clock, cos, withEmbeddings);
      var prunedCount := 0;
      if |marks.ids| > 0 && !dryRun {
        if !deleteOk(marks.ids) {
          return Failure(DeleteFailed);
        }
        collection := Some(Remove(store, marks.ids));
        prunedCount := |marks.ids|;
        RemoveDistinct(store, marks.ids);
      }
      result := Report(|rows|, if dryRun then |marks.ids| else prunedCount, |rows| - |marks.ids|, dryRun,
                       if dryRun then Some(marks.reasons) else None);
    }

    /** `prune_all_sessions`: one pass per session named in the store. */
    method PruneAllSessions(clock: Clock, cos: Cosine, withEmbeddings: bool, dryRun: bool,
                            deleteOk: seq<string> -> bool) returns (result: AllResult)
      requires Valid()
      modifies this
      ensures Valid()
      ensures old(collection).None? ==> result == AllFailure(NoCollection) && collection == old(collection)
      ensures old(collection) == Some([]) ==> result == NothingStored && collection == old(collection)
      ensures old(collection).Some? && old(collection).value != [] ==>
        result.AllReport? && result.dryRun == dryRun &&
        result.sessionDetails.Keys == SessionIds(old(collection).value) &&
        result.sessionsProcessed == |SessionIds(old(collection).value)| &&
        (forall s :: s in result.sessionDetails ==>
          result.sessionDetails[s] == PruneOutcome(SessionRows(old(collection).value, s), clock, cos, withEmbeddings, dryRun, deleteOk)) &&
        result.totalPruned == SumInt(PrunedBy(result.sessionDetails))
      ensures dryRun ==> collection == old(collection)
    {
      if collection.None? {
        return AllFailure(NoCollection);
      }
      var store := collection.value;
      if |store| == 0 {
        return NothingStored;
      }
      var sessionIds := SessionIds(store);
      var totalPruned, sessionResults := PruneEach(store, sessionIds, clock, cos, withEmbeddings, dryRun, deleteOk);
      result := AllReport(totalPruned, |sessionIds|, sessionResults, dryRun);
    }

    /** The loop of `prune_all_sessions`, over the session ids in any order. */
    method PruneEach(store: seq<StoredMemory>, sessionIds: set<string>, clock: Clock, cos: Cosine, withEmbeddings: bool,
                     dryRun: bool, deleteOk: seq<string> -> bool) returns (totalPruned: int, sessionResults: map<string, PruneResult>)
      requires Valid() && collection == Some(store)
      modifies this
      ensures Valid()
      ensures sessionResults.Keys == sessionIds
      ensures Ledger(store, sessionResults, totalPruned, clock, cos, withEmbeddings, dryRun, deleteOk)
      ensures dryRun ==> collection == Some(store)
    {
      var todo := sessionIds;
      totalPruned := 0;
      sessionResults := map[];
      assert PrunedBy(sessionResults) == map[];
      while todo != {}
        invariant Valid() && collection.Some?
        invariant Progress(collection.value, store, sessionIds, todo, sessionResults, totalPruned, clock, cos, withEmbeddings, dryRun, deleteOk)
        invariant dryRun ==> collection == Some(store)
        decreases |todo|
      {
        var sessionId :| sessionId in todo;
        ghost var before := collection.value;
        var r := PruneSessionMemories(sessionId, clock, cos, withEmbeddings, dryRun, deleteOk);
        ProgressStep(before, store, sessionIds, todo, sessionResults, totalPruned, sessionId, r, clock, cos, withEmbeddings, dryRun, deleteOk);
        sessionResults := sessionResults[sessionId := r];
        totalPruned := totalPruned + PrunedOf(r);
        todo := todo - {sessionId};
      }
    }

    /** `get_pruning_statistics`: a dry run of one session, or of all when none is named. */
    method GetPruningStatistics(sessionId: Option<string>, clock: Clock, cos: Cosine, withEmbeddings: bool,
                                deleteOk: seq<string> -> bool) returns (stats: Statistics)
      requires Valid()
      modifies this
      ensures Valid() && collection == old(collection)
      ensures sessionId.Some? && sessionId.value != "" ==>
        stats.SessionStatistics? &&
        (collection.None? ==> stats.session == Failure(NoCollection)) &&
        (collection.Some? ==> stats.session == PruneOutcome(SessionRows(collection.value, sessionId.value), clock, cos, withEmbeddings, true, deleteOk))
      ensures !(sessionId.Some? && sessionId.value != "") ==>
        stats.AllStatistics? &&
        (collection.None? ==> stats.all == AllFailure(NoCollection)) &&
        (collection == Some([]) ==> stats.all == NothingStored) &&
        (collection.Some? && collection.value != [] ==>
          stats.all.AllReport? && stats.all.dryRun &&
          stats.all.sessionDetails.Keys == SessionIds(collection.value) &&
          stats.all.sessionsProcessed == |SessionIds(collection.value)| &&
          (forall s :: s in stats.all.sessionDetails ==>
            stats.all.sessionDetails[s] == PruneOutcome(SessionRows(collection.value, s), clock, cos, withEmbeddings, true, deleteOk)) &&
          stats.all.totalPruned == SumInt(PrunedBy(stats.all.sessionDetails)))
    {
      if sessionId.Some? && sessionId.value != "" {
        var r := PruneSessionMemories(sessionId.value, clock, cos, withEmbeddings, true, deleteOk);
        stats := SessionStatistics(r);
      } else {
        var r := PruneAllSessions(clock, cos, withEmbeddings, true, deleteOk);
        stats := AllStatistics(r);
      }
    }
  }

  /** The sessions still to visit hold the rows they held at the start. */
  ghost predicate Untouched(current: seq<StoredMemory>, store: seq<StoredMemory>, todo: set<string>)
  {
    forall t :: t in todo ==> SessionRows(current, t) == SessionRows(store, t)
  }

  lemma UntouchedStep(current: seq<StoredMemory>, store: seq<StoredMemory>, todo: set<string>, s: string, clock: Clock,
                      cos: Cosine, withEmbeddings: bool, dryRun: bool, deleteOk: seq<string> -> bool)
    requires DistinctIds(current) && Untouched(current, store, todo) && s in todo
    ensures SessionRows(current, s) == SessionRows(store, s)
    ensures DistinctIds(AfterPrune(current, s, clock, cos, withEmbeddings, dryRun, deleteOk))
    ensures Untouched(AfterPrune(current, s, clock, cos, withEmbeddings, dryRun, deleteOk), store, todo - {s})
  {
    forall t | t in todo - {s}
      ensures SessionRows(AfterPrune(current, s, clock, cos, withEmbeddings, dryRun, deleteOk), t) == SessionRows(store, t)
    {
      KeepsOtherSession(current, s, t, clock, cos, withEmbeddings, dryRun, deleteOk);
    }
    AfterPruneDistinct(current, s, clock, cos, withEmbeddings, dryRun, deleteOk);
  }

  /** The results recorded so far are the passes over the starting rows, and the total is their sum. */
  ghost predicate Ledger(store: seq<StoredMemory>, results: map<string, PruneResult>, total: int, clock: Clock, cos: Cosine,
                         withEmbeddings: bool, dryRun: bool, deleteOk: seq<string> -> bool)
  {
    (forall t :: t in results ==> results[t] == PruneOutcome(SessionRows(store, t), clock, cos, withEmbeddings, dryRun, deleteOk)) &&
    total == SumInt(PrunedBy(results))
  }

  lemma LedgerAdd(store: seq<StoredMemory>, results: map<string, PruneResult>, total: int, s: string, r: PruneResult,
                  clock: Clock, cos: Cosine, withEmbeddings: bool, dryRun: bool, deleteOk: seq<string> -> bool)
    requires Ledger(store, results, total, clock, cos, withEmbeddings, dryRun, deleteOk) && s !in results
    requires r == PruneOutcome(SessionRows(store, s), clock, cos, withEmbeddings, dryRun, deleteOk)
    ensures Ledger(store, results[s := r], total + PrunedOf(r), clock, cos, withEmbeddings, dryRun, deleteOk)
  {
    PrunedByAdd(results, s, r);
  }

  lemma RemoveDistinct(store: seq<StoredMemory>, ids: seq<string>)
    requires DistinctIds(store)
    ensures DistinctIds(Remove(store, ids))
  {
    IdsDistinct(store);
    DistinctByFilter(store, (row: StoredMemory) => row.id !in ids, RowId);
    IdsDistinct(Remove(store, ids));
  }

  /**
    Part way through `prune_all_sessions`: the sessions left to visit hold
    their starting rows, and each visited one has its result recorded.
  */
  ghost predicate Progress(current: seq<StoredMemory>, store: seq<StoredMemory>, sessionIds: set<string>, todo: set<string>,
                           results: map<string, PruneResult>, total: int, clock: Clock, cos: Cosine, withEmbeddings: bool,
                           dryRun: bool, deleteOk: seq<string> -> bool)
  {
    todo <= sessionIds && results.Keys == sessionIds - todo &&
    Untouched(current, store, todo) && Ledger(store, results, total, clock, cos, withEmbeddings, dryRun, deleteOk)
  }

  lemma ProgressStep(current: seq<StoredMemory>, store: seq<StoredMemory>, sessionIds: set<string>, todo: set<string>,
                     results: map<string, PruneResult>, total: int, s: string, r: PruneResult, clock: Clock, cos: Cosine,
                     withEmbeddings: bool, dryRun: bool, deleteOk: seq<string> -> bool)
    requires DistinctIds(current) && s in todo
    requires Progress(current, store, sessionIds, todo, results, total, clock, cos, withEmbeddings, dryRun, deleteOk)
    requires r == PruneOutcome(SessionRows(current, s), clock, cos, withEmbeddings, dryRun, deleteOk)
    ensures DistinctIds(AfterPrune(current, s, clock, cos, withEmbeddings, dryRun, deleteOk))
    ensures Progress(AfterPrune(current, s, clock, cos, withEmbeddings, dryRun, deleteOk), store, sessionIds, todo - {s},
                     results[s := r], total + PrunedOf(r), clock, cos, withEmbeddings, dryRun, deleteOk)
  {
    UntouchedStep(current, store, todo, s, clock, cos, withEmbeddings, dryRun, deleteOk);
    LedgerAdd(store, results, total, s, r, clock, cos, withEmbeddings, dryRun, deleteOk);
  }

  /** A pass over one session leaves the ids distinct. */
  lemma AfterPruneDistinct(store: seq<StoredMemory>, s: string, clock: Clock, cos: Cosine, withEmbeddings: bool,
                           dryRun: bool, deleteOk: seq<string> -> bool)
    requires DistinctIds(store)
    ensures DistinctIds(AfterPrune(store, s, clock, cos, withEmbeddings, dryRun, deleteOk))
  {
    RemoveDistinct(store, Collect(SessionRows(store, s), clock, cos, withEmbeddings).ids);
  }

  /** A pass over one session leaves the ids distinct and the other sessions' rows as they were. */
  lemma KeepsOtherSession(store: seq<StoredMemory>, s: string, t: string, clock: Clock, cos: Cosine, withEmbeddings: bool,
                          dryRun: bool, deleteOk: seq<string> -> bool)
    requires DistinctIds(store) && s != t
    ensures DistinctIds(AfterPrune(store, s, clock, cos, withEmbeddings, dryRun, deleteOk))
    ensures SessionRows(AfterPrune(store, s, clock, cos, withEmbeddings, dryRun, deleteOk), t) == SessionRows(store, t)
  {
    var rows := SessionRows(store, s);
    var inS := (row: StoredMemory) => row.metadata.sessionId == Some(s);
    assert DistinctIds(rows) by {
      IdsDistinct(store);
      DistinctByFilter(store, inS, RowId);
      IdsDistinct(rows);
    }
    PruneMarks(rows, clock, cos, withEmbeddings);
    RemoveOtherSession(store, s, t, Collect(rows, clock, cos, withEmbeddings).ids);
  }
}
