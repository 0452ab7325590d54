/**
  Clustering of one session's memories (hooks/memory_clustering.py): the
  memories are grouped by the labels an agglomerative clustering assigns to
  their embeddings, each group gets a keyword-and-files summary, and the
  groups are arranged in a two-level hierarchy by the distance between their
  centroids.

  The clustering itself (scikit-learn) and the centroid distances (numpy and
  scipy) are parameters: `Fit` gives one label per embedding, and
  `CentroidDistance` gives the cosine distance between the centroids of two
  labels.
*/
module MemoryClustering {
  import opened Support
  import opened MemoryRecords

  /** A cluster whose nearest other cluster is closer than this becomes its child. */
  const HierarchyThreshold: real := 0.3
  /** Number of keywords a summary lists. */
  const MaxKeywords: nat := 5
  /** Keywords are words longer than this. */
  const ShortWordLength: nat := 4
  /** File paths taken from each memory's artifacts. */
  const FilesPerMemory: nat := 3

  datatype ClusterError = NoCollection | NotEnoughMemories

  /** How the number of clusters is chosen: a merge distance, or a fixed count. */
  datatype Criterion = ByThreshold(distanceThreshold: real) | ByCount(nClusters: int)

  /** `fit_predict`: one label per embedding. */
  type Fit = (seq<seq<real>>, Criterion) -> seq<int>

  /** The cosine distance between the centroids of two clusters, by label. */
  type CentroidDistance = (int, int) -> real

  /** An entry of a cluster: the row without its embedding. */
  datatype Member = Member(id: string, document: string, metadata: Metadata)

  /**
    A cluster's summary: its top keywords and the file paths its memories
    touched, or "General work" when there are neither.
  */
  datatype Summary = GeneralWork | Described(keywords: seq<string>, files: set<string>)

  datatype Cluster = Cluster(size: nat, memories: seq<Member>, summary: Summary)

  /** Top-level labels, and the labels placed under each parent label. */
  datatype Hierarchy = Hierarchy(root: seq<int>, children: map<int, seq<int>>)

  datatype ClusterResult =
    | ClusterFailure(error: ClusterError)
    | Clustering(sessionId: string, totalMemories: nat, numClusters: nat,
                 clusters: map<int, Cluster>, order: seq<int>, hierarchy: Hierarchy)

  function Self<T>(x: T): T
  {
    x
  }

  lemma KeysOfSelf<T>(s: seq<T>)
    ensures forall x :: x in KeysOf(s, Self) <==> x in s
  {
    forall x | x in s ensures x in KeysOf(s, Self) {
      assert Self(x) == x;
    }
  }

  // ---------------------------------------------------------------------
  // Grouping the memories by label
  // ---------------------------------------------------------------------

  function MemberOf(row: StoredMemory): Member
  {
    Member(row.id, row.document, row.metadata)
  }

  function Embeddings(rows: seq<StoredMemory>): (r: seq<seq<real>>)
    ensures |r| == |rows|
  {
    seq(|rows|, i requires 0 <= i < |rows| => rows[i].embedding)
  }

  /** The labels in order of first appearance: the key order of the `clusters` dictionary. */
  function LabelOrder(labels: seq<int>): seq<int>
  {
    DedupBy(labels, Self)
  }

  /** The members labelled `l`, in row order. */
  function Group(rows: seq<StoredMemory>, labels: seq<int>, l: int): seq<Member>
    requires |rows| == |labels|
    decreases |rows|
  {
    if rows == [] then [] else
    var g := Group(Init(rows), Init(labels), l);
    if Last(labels) == l then g + [MemberOf(Last(rows))] else g
  }

  /** `clusters`: each label that occurs, with its members. */
  function Groups(rows: seq<StoredMemory>, labels: seq<int>): map<int, seq<Member>>
    requires |rows| == |labels|
  {
    map l | l in labels :: Group(rows, labels, l)
  }

  /**
    The loop that fills `clusters`: each row is appended to the list of its
    label, a label's list being created when the label is first met.
  */
  method GroupByLabel(rows: seq<StoredMemory>, labels: seq<int>) returns (groups: map<int, seq<Member>>, order: seq<int>)
    requires |rows| == |labels|
    ensures groups == Groups(rows, labels)
    ensures order == LabelOrder(labels)
  {
    groups := map[];
    order := [];
    for i := 0 to |rows|
      invariant groups == Groups(rows[..i], labels[..i])
      invariant order == LabelOrder(labels[..i])
    {
      var l := labels[i];
      assert Init(labels[..i + 1]) == labels[..i] && Last(labels[..i + 1]) == l;
      assert Init(rows[..i + 1]) == rows[..i] && Last(rows[..i + 1]) == rows[i];
      GroupsSnoc(rows[..i + 1], labels[..i + 1]);
      KeysOfSelf(order);
      DedupByKeys(labels[..i], Self);
      KeysOfSelf(labels[..i]);
      if l !in groups {
        order := order + [l];
        groups := groups[l := []];
      }
      groups := groups[l := groups[l] + [MemberOf(rows[i])]];
    }
    assert rows[..|rows|] == rows && labels[..|labels|] == labels;
  }

  /** Adding a row extends the group of its label and leaves the others alone. */
  lemma GroupsSnoc(rows: seq<StoredMemory>, labels: seq<int>)
    requires |rows| == |labels| && rows != []
    ensures var g := Groups(Init(rows), Init(labels));
            var l := Last(labels);
            Groups(rows, labels) == g[l := (if l in g then g[l] else []) + [MemberOf(Last(rows))]]
  {
    var g := Groups(Init(rows), Init(labels));
    var l := Last(labels);
    var g' := g[l := (if l in g then g[l] else []) + [MemberOf(Last(rows))]];
    InitLast(labels);
    assert forall x :: x in labels <==> x in Init(labels) || x == l;
    forall x | x in labels ensures Group(rows, labels, x) == g'[x] {
      if x != l {
        assert x in Init(labels);
      } else if l !in g {
        assert l !in Init(labels);
        GroupNone(Init(rows), Init(labels), l);
      }
    }
  }

  lemma {:induction false} GroupNone(rows: seq<StoredMemory>, labels: seq<int>, l: int)
    requires |rows| == |labels| && l !in labels
    ensures Group(rows, labels, l) == []
    decreases |rows|
  {
    if rows != [] {
      InitLast(labels);
      GroupNone(Init(rows), Init(labels), l);
    }
  }

  /** Every row is a member of its own label's group. */
  lemma {:induction false} GroupHas(rows: seq<StoredMemory>, labels: seq<int>, i: nat)
    requires |rows| == |labels| && i < |rows|
    ensures MemberOf(rows[i]) in Group(rows, labels, labels[i])
    decreases |rows|
  {
    InitLast(rows);
    InitLast(labels);
    if i < |rows| - 1 {
      assert Init(rows)[i] == rows[i] && Init(labels)[i] == labels[i];
      GroupHas(Init(rows), Init(labels), i);
    }
  }

  /** Every member of a group is a row carrying that group's label. */
  lemma {:induction false} GroupIn(rows: seq<StoredMemory>, labels: seq<int>, l: int, m: Member)
    requires |rows| == |labels| && m in Group(rows, labels, l)
    ensures exists j :: 0 <= j < |rows| && labels[j] == l && MemberOf(rows[j]) == m
    decreases |rows|
  {
    InitLast(rows);
    InitLast(labels);
    var g := Group(Init(rows), Init(labels), l);
    if m in g {
      GroupIn(Init(rows), Init(labels), l, m);
      var j :| 0 <= j < |Init(rows)| && Init(labels)[j] == l && MemberOf(Init(rows)[j]) == m;
      assert rows[j] == Init(rows)[j] && labels[j] == Init(labels)[j];
    } else {
      assert labels[|rows| - 1] == l && MemberOf(rows[|rows| - 1]) == m;
    }
  }

  /**
    The groups partition the rows: when ids are distinct, a row is a member
    of a group exactly when the group is its label's.
  */
  lemma GroupPartition(rows: seq<StoredMemory>, labels: seq<int>, i: nat, l: int)
    requires |rows| == |labels| && i < |rows| && DistinctIds(rows)
    ensures MemberOf(rows[i]) in Group(rows, labels, l) <==> labels[i] == l
  {
    if labels[i] == l {
      GroupHas(rows, labels, i);
    }
    if MemberOf(rows[i]) in Group(rows, labels, l) {
      GroupIn(rows, labels, l, MemberOf(rows[i]));
      var j :| 0 <= j < |rows| && labels[j] == l && MemberOf(rows[j]) == MemberOf(rows[i]);
      assert rows[j].id == rows[i].id;
      assert j == i;
    }
  }

  ghost function Sizes(groups: map<int, seq<Member>>): map<int, int>
  {
    map l | l in groups :: |groups[l]|
  }

  /** The cluster sizes add up to the number of memories. */
  lemma {:induction false} GroupSizes(rows: seq<StoredMemory>, labels: seq<int>)
    requires |rows| == |labels|
    ensures SumInt(Sizes(Groups(rows, labels))) == |rows|
    decreases |rows|
  {
    if rows == [] {
      assert Sizes(Groups(rows, labels)) == map[];
    } else {
      var g := Groups(Init(rows), Init(labels));
      var l := Last(labels);
      GroupSizes(Init(rows), Init(labels));
      GroupsSnoc(rows, labels);
      var s := Sizes(g);
      assert Sizes(Groups(rows, labels)) == s[l := (if l in s then s[l] else 0) + 1];
      SumIntBump(s, l);
    }
  }

  /**
    The key order lists each label once, and there are as many clusters as
    distinct labels.
  */
  lemma OrderFacts(rows: seq<StoredMemory>, labels: seq<int>)
    requires |rows| == |labels|
    ensures forall l :: l in LabelOrder(labels) <==> l in Groups(rows, labels)
    ensures DistinctBy(LabelOrder(labels), Self)
    ensures |Groups(rows, labels)| == |LabelOrder(labels)| == |set l | l in labels|
  {
    var order := LabelOrder(labels);
    DedupByKeys(labels, Self);
    KeysOfSelf(labels);
    KeysOfSelf(order);
    DistinctByCard(order, Self);
    assert KeysOf(order, Self) == set l | l in labels;
    assert Groups(rows, labels).Keys == set l | l in labels;
  }

  // ---------------------------------------------------------------------
  // Cluster summaries
  // ---------------------------------------------------------------------

  /** Words counted as keywords: those longer than four characters. */
  predicate Long(w: string)
  {
    |w| > ShortWordLength
  }

  /** The words of a cluster: its documents joined by spaces, lower-cased and split on whitespace. */
  function TextWords(ms: seq<Member>): seq<string>
  {
    Words(Lower(Join(seq(|ms|, i requires 0 <= i < |ms| => ms[i].document), " ")))
  }

  /** `word_freq`: the count of each long word, and its keys in insertion order. */
  datatype Tally = Tally(freq: map<string, int>, seen: seq<string>)

  /** The counting loop over the words, one word at a time. */
  function Count(words: seq<string>): Tally
    decreases |words|
  {
    if words == [] then Tally(map[], []) else
    var t := Count(Init(words));
    var w := Last(words);
    if !Long(w) then t
    else if w in t.freq then Tally(t.freq[w := t.freq[w] + 1], t.seen)
    else Tally(t.freq[w := 1], t.seen + [w])
  }

  /**
    The tally counts every long word by its number of occurrences, and its
    key order lists each counted word once.
  */
  lemma {:induction false} CountFacts(words: seq<string>)
    ensures forall w :: w in Count(words).freq <==> Long(w) && w in words
    ensures forall w :: w in Count(words).freq ==> Count(words).freq[w] == multiset(words)[w]
    ensures forall w :: w in Count(words).seen <==> w in Count(words).freq
    ensures DistinctBy(Count(words).seen, Self)
    decreases |words|
  {
    if words != [] {
      var p, w := Init(words), Last(words);
      InitLast(words);
      CountFacts(p);
      assert multiset(words) == multiset(p) + multiset{w};
      var t := Count(p);
      if Long(w) && w !in t.freq {
        forall i, j | 0 <= i < j < |t.seen + [w]| ensures Self((t.seen + [w])[i]) != Self((t.seen + [w])[j]) {
          if j == |t.seen| {
            assert t.seen[i] in t.seen;
          } else {
            assert Self(t.seen[i]) != Self(t.seen[j]);
          }
        }
      }
    }
  }

  /** The loop of `_generate_cluster_summaries` that fills `word_freq`. */
  method CountWords(words: seq<string>) returns (freq: map<string, int>, seen: seq<string>)
    ensures Tally(freq, seen) == Count(words)
  {
    freq := map[];
    seen := [];
    for i := 0 to |words|
      invariant Tally(freq, seen) == Count(words[..i])
    {
      assert Init(words[..i + 1]) == words[..i] && Last(words[..i + 1]) == words[i];
      var w := words[i];
      if Long(w) {
        if w in freq {
          freq := freq[w := freq[w] + 1];
        } else {
          freq := freq[w := 1];
          seen := seen + [w];
        }
      }
    }
    assert words[..|words|] == words;
  }

  datatype WordCount = WordCount(word: string, count: int)

  function CountKey(e: WordCount): real
  {
    e.count as real
  }

  function WordOf(e: WordCount): string
  {
    e.word
  }

  /** `word_freq.items()`, in insertion order. */
  function Entries(t: Tally): (r: seq<WordCount>)
    ensures |r| == |t.seen|
  {
    seq(|t.seen|, i requires 0 <= i < |t.seen| => WordCount(t.seen[i], if t.seen[i] in t.freq then t.freq[t.seen[i]] else 0))
  }

  /** The items sorted by count, descending; equal counts keep their order. */
  function Ranked(words: seq<string>): seq<WordCount>
  {
    SortDesc(Entries(Count(words)), ByKey(CountKey))
  }

  /** `keywords`: the words of the first five ranked items. */
  function Keywords(words: seq<string>): (r: seq<string>)
  {
    var top := PyPrefix(Ranked(words), MaxKeywords);
    seq(|top|, i requires 0 <= i < |top| => top[i].word)
  }

  /** Each item of the tally is a long word of the text with its number of occurrences, and each such word has one. */
  lemma EntriesFacts(words: seq<string>)
    ensures forall e :: e in Entries(Count(words)) ==> Long(e.word) && e.word in words && e.count == multiset(words)[e.word]
    ensures forall w :: Long(w) && w in words ==> WordCount(w, multiset(words)[w]) in Entries(Count(words))
    ensures DistinctBy(Entries(Count(words)), WordOf)
  {
    var t := Count(words);
    var es := Entries(t);
    CountFacts(words);
    forall w | Long(w) && w in words ensures WordCount(w, multiset(words)[w]) in es {
      var i :| 0 <= i < |t.seen| && t.seen[i] == w;
      assert es[i] == WordCount(w, multiset(words)[w]);
    }
    forall i, j | 0 <= i < j < |es| ensures WordOf(es[i]) != WordOf(es[j]) {
      assert Self(t.seen[i]) != Self(t.seen[j]);
    }
  }

  /** The same of the ranking, which is sorted by count. */
  lemma RankedFacts(words: seq<string>)
    ensures forall e :: e in Ranked(words) ==> Long(e.word) && e.word in words && e.count == multiset(words)[e.word]
    ensures forall w :: Long(w) && w in words ==> WordCount(w, multiset(words)[w]) in Ranked(words)
    ensures DistinctBy(Ranked(words), WordOf)
    ensures forall i, j :: 0 <= i < j < |Ranked(words)| ==> Ranked(words)[i].count >= Ranked(words)[j].count
  {
    var es := Entries(Count(words));
    var r := Ranked(words);
    EntriesFacts(words);
    SortByKeyProperties(es, CountKey);
    assert forall e :: e in r <==> e in es by {
      assert forall e :: e in r <==> e in multiset(r);
      assert forall e :: e in es <==> e in multiset(es);
    }
    DistinctByPerm(es, r, WordOf);
    forall i, j | 0 <= i < j < |r| ensures r[i].count >= r[j].count {
      assert CountKey(r[i]) >= CountKey(r[j]);
    }
  }

  /**
    The keywords: at most five distinct long words of the text, in
    descending order of frequency.
  */
  lemma KeywordsShape(words: seq<string>)
    ensures |Keywords(words)| <= MaxKeywords
    ensures forall k :: k in Keywords(words) ==> Long(k) && k in words
    ensures forall i, j :: 0 <= i < j < |Keywords(words)| ==> Keywords(words)[i] != Keywords(words)[j]
    ensures forall i, j :: 0 <= i < j < |Keywords(words)| ==>
              multiset(words)[Keywords(words)[i]] >= multiset(words)[Keywords(words)[j]]
  {
    var r := Ranked(words);
    var top := PyPrefix(r, MaxKeywords);
    var kw := Keywords(words);
    RankedFacts(words);
    forall k | k in kw ensures Long(k) && k in words {
      var i :| 0 <= i < |kw| && kw[i] == k;
      assert r[i] in r;
    }
    forall i, j | 0 <= i < j < |kw| ensures kw[i] != kw[j] && multiset(words)[kw[i]] >= multiset(words)[kw[j]] {
      assert kw[i] == r[i].word && kw[j] == r[j].word;
      assert WordOf(r[i]) != WordOf(r[j]);
      assert r[i] in r && r[j] in r;
    }
  }

  /**
    A long word of the text is left out of the keywords only when five
    keywords are listed, each at least as frequent.
  */
  lemma KeywordsComplete(words: seq<string>, w: string)
    requires Long(w) && w in words && w !in Keywords(words)
    ensures |Keywords(words)| == MaxKeywords
    ensures forall k :: k in Keywords(words) ==> multiset(words)[k] >= multiset(words)[w]
  {
    var r := Ranked(words);
    var top := PyPrefix(r, MaxKeywords);
    var kw := Keywords(words);
    var e := WordCount(w, multiset(words)[w]);
    RankedFacts(words);
    assert e !in top by {
      forall i | 0 <= i < |top| ensures top[i] != e {
        assert kw[i] in kw;
      }
    }
    assert forall i, j :: 0 <= i < j < |r| ==> CountKey(r[i]) >= CountKey(r[j]);
    TopKeeps(r, CountKey, MaxKeywords, e);
    forall k | k in kw ensures multiset(words)[k] >= multiset(words)[w] {
      var i :| 0 <= i < |kw| && kw[i] == k;
      assert top[i] in top && top[i] in r;
    }
  }

  /** The first three file paths of a memory's artifacts, if it has any. */
  function FirstPaths(m: Member): seq<string>
  {
    if m.metadata.artifacts.Some? && m.metadata.artifacts.value.filePaths != [] then
      PyPrefix(m.metadata.artifacts.value.filePaths, FilesPerMemory)
    else []
  }

  /** `files`: the union of the first three paths of every member. */
  function Files(ms: seq<Member>): set<string>
    decreases |ms|
  {
    if ms == [] then {} else Files(Init(ms)) + set p | p in FirstPaths(Last(ms))
  }

  /** A path is listed exactly when it is among the first three of some member. */
  lemma {:induction false} FilesMembers(ms: seq<Member>)
    ensures forall p :: p in Files(ms) <==> exists m :: m in ms && p in FirstPaths(m)
    decreases |ms|
  {
    if ms != [] {
      FilesMembers(Init(ms));
      InitLast(ms);
      assert forall m :: m in ms <==> m in Init(ms) || m == Last(ms);
    }
  }

  /** The loop of `_generate_cluster_summaries` that fills `files`. */
  method CollectFiles(ms: seq<Member>) returns (files: set<string>)
    ensures files == Files(ms)
  {
    files := {};
    for i := 0 to |ms|
      invariant files == Files(ms[..i])
    {
      assert Init(ms[..i + 1]) == ms[..i] && Last(ms[..i + 1]) == ms[i];
      var artifacts := ms[i].metadata.artifacts;
      if artifacts.Some? && artifacts.value.filePaths != [] {
        files := files + set p | p in PyPrefix(artifacts.value.filePaths, FilesPerMemory);
      }
    }
    assert ms[..|ms|] == ms;
  }

  /** The summary of one cluster. */
  function SummaryOf(ms: seq<Member>): Summary
  {
    var keywords := Keywords(TextWords(ms));
    var files := Files(ms);
    if keywords == [] && files == {} then GeneralWork else Described(keywords, files)
  }

  /**
    A cluster is "General work" exactly when its text has no word longer
    than four characters and none of its memories lists a file path.
  */
  lemma GeneralWorkWhen(ms: seq<Member>)
    ensures SummaryOf(ms) == GeneralWork <==>
              (forall w :: w in TextWords(ms) ==> !Long(w)) && (forall m :: m in ms ==> FirstPaths(m) == [])
  {
    var words := TextWords(ms);
    FilesMembers(ms);
    KeywordsShape(words);
    forall w | w in words && Long(w) ensures Keywords(words) != [] {
      if w !in Keywords(words) {
        KeywordsComplete(words, w);
      }
    }
    if Keywords(words) != [] {
      assert Keywords(words)[0] in Keywords(words);
    }
    forall m | m in ms && FirstPaths(m) != [] ensures Files(ms) != {} {
      assert FirstPaths(m)[0] in Files(ms);
    }
  }

  /** The body of the summary loop for one cluster. */
  method Summarize(ms: seq<Member>) returns (summary: Summary)
    ensures summary == SummaryOf(ms)
  {
    var words := TextWords(ms);
    var freq, seen := CountWords(words);
    var top := PyPrefix(SortDesc(Entries(Tally(freq, seen)), ByKey(CountKey)), MaxKeywords);
    var keywords := seq(|top|, i requires 0 <= i < |top| => top[i].word);
    var files := CollectFiles(ms);
    if keywords == [] && files == {} {
      summary := GeneralWork;
    } else {
      summary := Described(keywords, files);
    }
  }

  /** The summaries of the clusters listed in `ks`, one at a time. */
  function Summaries(groups: map<int, seq<Member>>, ks: seq<int>): map<int, Summary>
    requires forall i :: 0 <= i < |ks| ==> ks[i] in groups
    decreases |ks|
  {
    if ks == [] then map[] else
    assert Last(ks) == ks[|ks| - 1];
    assert forall i :: 0 <= i < |Init(ks)| ==> Init(ks)[i] == ks[i];
    Summaries(groups, Init(ks))[Last(ks) := SummaryOf(groups[Last(ks)])]
  }

  /** Each listed cluster has the summary its members determine, and no other has one. */
  lemma {:induction false} SummariesFacts(groups: map<int, seq<Member>>, ks: seq<int>)
    requires forall i :: 0 <= i < |ks| ==> ks[i] in groups
    ensures forall l :: l in Summaries(groups, ks) <==> l in ks
    ensures forall l :: l in Summaries(groups, ks) ==> Summaries(groups, ks)[l] == SummaryOf(groups[l])
    decreases |ks|
  {
    if ks != [] {
      InitLast(ks);
      SummariesFacts(groups, Init(ks));
    }
  }

  /** `_generate_cluster_summaries`: one summary per cluster, in key order. */
  method GenerateSummaries(groups: map<int, seq<Member>>, order: seq<int>) returns (summaries: map<int, Summary>)
    requires forall i :: 0 <= i < |order| ==> order[i] in groups
    ensures summaries == Summaries(groups, order)
  {
    summaries := map[];
    for i := 0 to |order|
      invariant summaries == Summaries(groups, order[..i])
    {
      assert Init(order[..i + 1]) == order[..i] && Last(order[..i + 1]) == order[i];
      assert order[..i + 1][i] == order[i];
      var summary := Summarize(groups[order[i]]);
      summaries := summaries[order[i] := summary];
    }
    assert order[..|order|] == order;
  }

  // ---------------------------------------------------------------------
  // Hierarchy of clusters
  // ---------------------------------------------------------------------

  function Neg(l: int): real
  {
    -(l as real)
  }

  /** `sorted(centroids.keys())`: the distinct labels, ascending. */
  function SortedLabels(labels: seq<int>): seq<int>
  {
    SortDesc(LabelOrder(labels), ByKey(Neg))
  }

  ghost predicate Ascending(keys: seq<int>)
  {
    forall i, j :: 0 <= i < j < |keys| ==> keys[i] < keys[j]
  }

  /** The sorted labels are the labels that occur, each once, in ascending order. */
  lemma SortedLabelsFacts(labels: seq<int>)
    ensures forall l :: l in SortedLabels(labels) <==> l in labels
    ensures Ascending(SortedLabels(labels))
  {
    var order := LabelOrder(labels);
    var keys := SortedLabels(labels);
    DedupByKeys(labels, Self);
    KeysOfSelf(labels);
    KeysOfSelf(order);
    SortByKeyProperties(order, Neg);
    DistinctByPerm(order, keys, Self);
    assert forall l :: l in keys <==> l in order by {
      assert forall l :: l in keys <==> l in multiset(keys);
      assert forall l :: l in order <==> l in multiset(order);
    }
    forall i, j | 0 <= i < j < |keys| ensures keys[i] < keys[j] {
      assert Neg(keys[i]) >= Neg(keys[j]);
      assert Self(keys[i]) != Self(keys[j]);
    }
  }

  lemma AscendingInit(s: seq<int>)
    requires s != [] && Ascending(s)
    ensures Ascending(Init(s))
    ensures forall x :: x in Init(s) ==> x < Last(s)
  {
    var p := Init(s);
    forall i, j | 0 <= i < j < |p| ensures p[i] < p[j] {
      assert p[i] == s[i] && p[j] == s[j];
    }
    forall x | x in p ensures x < Last(s) {
      var i :| 0 <= i < |p| && p[i] == x;
      assert s[i] == x;
    }
  }

  /** `np.argmin` over the candidates: the first one nearest to `l`. */
  function Nearest(dist: CentroidDistance, l: int, cs: seq<int>): int
    requires cs != []
    decreases |cs|
  {
    if |cs| == 1 then cs[0] else
    var c := Nearest(dist, l, Init(cs));
    if dist(l, Last(cs)) < dist(l, c) then Last(cs) else c
  }

  /**
    The nearest candidate is one of them, no other is nearer, and among
    equally near candidates in ascending order it is the lowest.
  */
  lemma {:induction false} NearestFacts(dist: CentroidDistance, l: int, cs: seq<int>)
    requires cs != [] && Ascending(cs)
    ensures Nearest(dist, l, cs) in cs
    ensures forall c :: c in cs ==> dist(l, Nearest(dist, l, cs)) <= dist(l, c)
    ensures forall c :: c in cs && dist(l, c) == dist(l, Nearest(dist, l, cs)) ==> Nearest(dist, l, cs) <= c
    decreases |cs|
  {
    if |cs| > 1 {
      var p, x := Init(cs), Last(cs);
      InitLast(cs);
      assert forall c :: c in cs <==> c in p || c == x;
      AscendingInit(cs);
      NearestFacts(dist, l, p);
    }
  }

  /** The predicate that keeps the labels other than `l`. */
  function Other(l: int): int -> bool
  {
    (k: int) => k != l
  }

  /**
    Where `l` is placed: under its nearest other cluster when that is closer
    than the threshold, and at the top otherwise or when it is the only
    cluster.
  */
  function Parent(keys: seq<int>, dist: CentroidDistance, l: int): Option<int>
  {
    var others := Filter(keys, Other(l));
    if |keys| > 1 && others != [] then
      var c := Nearest(dist, l, others);
      if dist(l, c) < HierarchyThreshold then Some(c) else None
    else None
  }

  function Place(h: Hierarchy, l: int, parent: Option<int>): Hierarchy
  {
    match parent
    case None => Hierarchy(h.root + [l], h.children)
    case Some(p) => Hierarchy(h.root, h.children[p := (if p in h.children then h.children[p] else []) + [l]])
  }

  /** The hierarchy after placing the labels of `todo`, in order. */
  function PlaceAll(keys: seq<int>, dist: CentroidDistance, todo: seq<int>): Hierarchy
    decreases |todo|
  {
    if todo == [] then Hierarchy([], map[]) else
    Place(PlaceAll(keys, dist, Init(todo)), Last(todo), Parent(keys, dist, Last(todo)))
  }

  /** `_build_hierarchy`, given the sorted labels. */
  function HierarchyOf(keys: seq<int>, dist: CentroidDistance): Hierarchy
  {
    PlaceAll(keys, dist, keys)
  }

  /** The labels other than `l` stay in ascending order, and there is one when there are two labels. */
  lemma OthersFacts(keys: seq<int>, l: int)
    requires Ascending(keys)
    ensures Ascending(Filter(keys, Other(l)))
    ensures forall k :: k in Filter(keys, Other(l)) <==> k in keys && k != l
    ensures |keys| > 1 ==> Filter(keys, Other(l)) != []
  {
    var others := Filter(keys, Other(l));
    FilterMembers(keys, Other(l));
    SubseqAscending(others, keys);
    if |keys| > 1 {
      var k := if keys[0] != l then keys[0] else keys[1];
      assert k in keys && Other(l)(k);
    }
  }

  lemma {:induction false} SubseqAscending(a: seq<int>, b: seq<int>)
    requires Subseq(a, b) && Ascending(b)
    ensures Ascending(a)
    decreases |b|
  {
    if a != [] && b != [] {
      InitLast(a);
      InitLast(b);
      AscendingInit(b);
      if Last(a) == Last(b) && Subseq(Init(a), Init(b)) {
        SubseqAscending(Init(a), Init(b));
        forall i, j | 0 <= i < j < |a| ensures a[i] < a[j] {
          if j == |a| - 1 {
            assert a[i] == Init(a)[i];
            SubseqIn(Init(a), Init(b), a[i]);
            var k :| 0 <= k < |Init(b)| && Init(b)[k] == a[i];
            assert b[k] == a[i];
          } else {
            assert a[i] == Init(a)[i] && a[j] == Init(a)[j];
          }
        }
      } else {
        SubseqAscending(a, Init(b));
      }
    }
  }

  /** The labels of `todo` other than the last are distinct from it and from each other. */
  lemma DistinctInit(todo: seq<int>)
    requires todo != [] && DistinctBy(todo, Self)
    ensures DistinctBy(Init(todo), Self) && Last(todo) !in Init(todo)
  {
    var q := Init(todo);
    forall i, j | 0 <= i < j < |q| ensures Self(q[i]) != Self(q[j]) {
      assert q[i] == todo[i] && q[j] == todo[j];
    }
    forall i | 0 <= i < |q| ensures q[i] != Last(todo) {
      assert Self(todo[i]) != Self(todo[|q|]);
    }
  }

  /**
    Each placed label is at the top exactly when it has no parent, and under
    `p` exactly when `p` is its parent.
  */
  lemma {:induction false} PlaceAllFacts(keys: seq<int>, dist: CentroidDistance, todo: seq<int>)
    ensures forall x :: x in PlaceAll(keys, dist, todo).root <==> x in todo && Parent(keys, dist, x) == None
    ensures forall p, x :: p in PlaceAll(keys, dist, todo).children ==>
              (x in PlaceAll(keys, dist, todo).children[p] <==> x in todo && Parent(keys, dist, x) == Some(p))
    ensures forall x :: x in todo && Parent(keys, dist, x).Some? ==> Parent(keys, dist, x).value in PlaceAll(keys, dist, todo).children
    decreases |todo|
  {
    if todo != [] {
      var q, x := Init(todo), Last(todo);
      InitLast(todo);
      assert forall y :: y in todo <==> y in q || y == x;
      PlaceAllFacts(keys, dist, q);
      assert PlaceAll(keys, dist, todo) == Place(PlaceAll(keys, dist, q), x, Parent(keys, dist, x));
    }
  }

  /** Each list of the hierarchy holds a label at most once. */
  lemma {:induction false} PlaceAllDistinct(keys: seq<int>, dist: CentroidDistance, todo: seq<int>)
    requires DistinctBy(todo, Self)
    ensures DistinctBy(PlaceAll(keys, dist, todo).root, Self)
    ensures forall p :: p in PlaceAll(keys, dist, todo).children ==> DistinctBy(PlaceAll(keys, dist, todo).children[p], Self)
    decreases |todo|
  {
    if todo != [] {
      var q, x := Init(todo), Last(todo);
      DistinctInit(todo);
      PlaceAllFacts(keys, dist, q);
      PlaceAllDistinct(keys, dist, q);
      var h := PlaceAll(keys, dist, q);
      assert PlaceAll(keys, dist, todo) == Place(h, x, Parent(keys, dist, x));
      assert x !in h.root;
      forall p | p in h.children ensures DistinctBy(h.children[p] + [x], Self) {
        assert x !in h.children[p];
        SnocDistinct(h.children[p], x);
      }
      SnocDistinct(h.root, x);
    }
  }

  lemma SnocDistinct(s: seq<int>, x: int)
    requires DistinctBy(s, Self) && x !in s
    ensures DistinctBy(s + [x], Self)
  {
    forall i, j | 0 <= i < j < |s + [x]| ensures Self((s + [x])[i]) != Self((s + [x])[j]) {
      if j == |s| {
        assert s[i] in s;
      } else {
        assert Self(s[i]) != Self(s[j]);
      }
    }
  }

  /**
    Every label appears exactly once in the hierarchy: either at the top or
    in the list of exactly one parent; nothing else appears.
  */
  lemma EachLabelOnce(keys: seq<int>, dist: CentroidDistance, l: int)
    requires DistinctBy(keys, Self) && l in keys
    ensures (l in HierarchyOf(keys, dist).root) <==>
              !(exists p :: p in HierarchyOf(keys, dist).children && l in HierarchyOf(keys, dist).children[p])
    ensures forall p, q ::
              (p in HierarchyOf(keys, dist).children && q in HierarchyOf(keys, dist).children &&
               l in HierarchyOf(keys, dist).children[p] && l in HierarchyOf(keys, dist).children[q]) ==> p == q
    ensures forall x :: x in HierarchyOf(keys, dist).root ==> x in keys
    ensures forall p, x :: p in HierarchyOf(keys, dist).children && x in HierarchyOf(keys, dist).children[p] ==> x in keys
    ensures DistinctBy(HierarchyOf(keys, dist).root, Self)
    ensures forall p :: p in HierarchyOf(keys, dist).children ==> DistinctBy(HierarchyOf(keys, dist).children[p], Self)
  {
    PlaceAllFacts(keys, dist, keys);
    PlaceAllDistinct(keys, dist, keys);
  }

  /**
    The parent rule: `p` is the parent of `l` exactly when it is the lowest
    of the other labels nearest to `l` and nearer than the threshold; `l`
    goes to the top exactly when no other label is that near.
  */
  lemma ParentRule(keys: seq<int>, dist: CentroidDistance, l: int, p: int)
    requires Ascending(keys) && l in keys && |keys| > 1
    ensures Parent(keys, dist, l) == Some(p) <==>
              p in keys && p != l && dist(l, p) < HierarchyThreshold &&
              (forall q :: q in keys && q != l ==> dist(l, p) <= dist(l, q)) &&
              (forall q :: q in keys && q != l && dist(l, q) == dist(l, p) ==> p <= q)
    ensures Parent(keys, dist, l) == None <==> forall q :: q in keys && q != l ==> dist(l, q) >= HierarchyThreshold
  {
    var others := Filter(keys, Other(l));
    OthersFacts(keys, l);
    NearestFacts(dist, l, others);
    var c := Nearest(dist, l, others);
    assert c in keys && c != l;
  }

  /** A single cluster is the one label at the top. */
  lemma SingleCluster(keys: seq<int>, dist: CentroidDistance)
    requires |keys| == 1
    ensures HierarchyOf(keys, dist) == Hierarchy(keys, map[])
  {
    assert Init(keys) == [] && Last(keys) == keys[0] && keys == [keys[0]];
    assert PlaceAll(keys, dist, Init(keys)) == Hierarchy([], map[]);
    assert Parent(keys, dist, keys[0]) == None;
  }

  /**
    Two clusters that are each other's parent both end up as children, so
    neither is at the top.
  */
  lemma MutualChildren(keys: seq<int>, dist: CentroidDistance, a: int, b: int)
    requires DistinctBy(keys, Self) && a in keys && b in keys
    requires Parent(keys, dist, a) == Some(b) && Parent(keys, dist, b) == Some(a)
    ensures a !in HierarchyOf(keys, dist).root && b !in HierarchyOf(keys, dist).root
    ensures b in HierarchyOf(keys, dist).children && a in HierarchyOf(keys, dist).children[b]
    ensures a in HierarchyOf(keys, dist).children && b in HierarchyOf(keys, dist).children[a]
  {
    PlaceAllFacts(keys, dist, keys);
  }

  /** `_build_hierarchy` over the sorted labels. */
  method BuildHierarchy(keys: seq<int>, dist: CentroidDistance) returns (h: Hierarchy)
    requires Ascending(keys)
    ensures h == HierarchyOf(keys, dist)
  {
    if |keys| > 1 {
      h := Hierarchy([], map[]);
      for i := 0 to |keys|
        invariant h == PlaceAll(keys, dist, keys[..i])
      {
        assert Init(keys[..i + 1]) == keys[..i] && Last(keys[..i + 1]) == keys[i];
        var current := keys[i];
        OthersFacts(keys, current);
        var closest := Nearest(dist, current, Filter(keys, Other(current)));
        if dist(current, closest) < HierarchyThreshold {
          var siblings := if closest in h.children then h.children[closest] else [];
          h := Hierarchy(h.root, h.children[closest := siblings + [current]]);
        } else {
          h := Hierarchy(h.root + [current], h.children);
        }
      }
      assert keys[..|keys|] == keys;
    } else {
      h := Hierarchy(keys, map[]);
      if keys != [] {
        SingleCluster(keys, dist);
      }
    }
  }

  /**
    Two clusters nearer than the threshold to each other and to nothing
    else: each is placed under the other, and the hierarchy has no top.
  */
  lemma MutualPairHasNoRoot()
    ensures HierarchyOf([0, 1], (a: int, b: int) => 0.1) == Hierarchy([], map[1 := [0], 0 := [1]])
  {
    MutualPair((a: int, b: int) => 0.1);
  }

  lemma MutualPair(dist: CentroidDistance)
    requires dist(0, 1) == 0.1 && dist(1, 0) == 0.1
    ensures HierarchyOf([0, 1], dist) == Hierarchy([], map[1 := [0], 0 := [1]])
  {
    var keys := [0, 1];
    MutualParents(dist);
    var empty := Hierarchy([], map[]);
    assert PlaceAll(keys, dist, []) == empty;
    var h0 := PlaceAll(keys, dist, [0]);
    assert h0 == Place(empty, 0, Some(1)) by {
      assert Init([0]) == [] && Last([0]) == 0;
    }
    assert h0.children == map[1 := [0]] by {
      assert [] + [0] == [0];
    }
    assert HierarchyOf(keys, dist) == Place(h0, 1, Some(0)) by {
      assert Init(keys) == [0] && Last(keys) == 1;
    }
    assert h0.root == [] && 0 !in h0.children;
    assert Place(h0, 1, Some(0)).children == map[1 := [0], 0 := [1]] by {
      assert [] + [1] == [1];
    }
  }

  /** With labels 0 and 1 at distance 0.1 both ways, each is the other's parent. */
  lemma MutualParents(dist: CentroidDistance)
    requires dist(0, 1) == 0.1 && dist(1, 0) == 0.1
    ensures Parent([0, 1], dist, 0) == Some(1) && Parent([0, 1], dist, 1) == Some(0)
  {
    PairOthers();
    assert Nearest(dist, 0, [1]) == 1;
    assert Nearest(dist, 1, [0]) == 0;
  }

  lemma PairOthers()
    ensures Filter([0, 1], Other(0)) == [1] && Filter([0, 1], Other(1)) == [0]
  {
    assert Init([0, 1]) == [0] && Last([0, 1]) == 1;
    assert Init([0]) == [] && Last([0]) == 0;
    assert Filter([0], Other(0)) == [];
    assert Filter([0], Other(1)) == [0];
  }

  // ---------------------------------------------------------------------
  // cluster_memories
  // ---------------------------------------------------------------------

  /** The clustering returns one label per embedding. */
  ghost predicate OneLabelEach(fit: Fit)
  {
    forall e, c :: |fit(e, c)| == |e|
  }

  /** An explicit cluster count is capped at the number of memories. */
  function CriterionFor(nClusters: Option<int>, distanceThreshold: real, n: nat): Criterion
  {
    if nClusters.None? then ByThreshold(distanceThreshold)
    else ByCount(if nClusters.value < n then nClusters.value else n)
  }

  /** The labels the clustering gives the session's memories. */
  function LabelsOf(rows: seq<StoredMemory>, nClusters: Option<int>, distanceThreshold: real, fit: Fit): seq<int>
  {
    fit(Embeddings(rows), CriterionFor(nClusters, distanceThreshold, |rows|))
  }

  /** `cluster_memories` as a function of the store, the clustering and the centroid distances. */
  function Outcome(collection: Option<seq<StoredMemory>>, sessionId: string, nClusters: Option<int>,
                   distanceThreshold: real, fit: Fit, dist: CentroidDistance): ClusterResult
    requires OneLabelEach(fit)
  {
    if collection.None? then ClusterFailure(NoCollection) else
    var rows := SessionRows(collection.value, sessionId);
    if |rows| < 2 then ClusterFailure(NotEnoughMemories) else
    Clustered(sessionId, rows, LabelsOf(rows, nClusters, distanceThreshold, fit), dist)
  }

  /** The result for a session whose memories got `labels`. */
  function Clustered(sessionId: string, rows: seq<StoredMemory>, labels: seq<int>, dist: CentroidDistance): ClusterResult
    requires |rows| == |labels|
  {
    var groups := Groups(rows, labels);
    var order := LabelOrder(labels);
    OrderFacts(rows, labels);
    var summaries := Summaries(groups, order);
    SummariesFacts(groups, order);
    Clustering(sessionId, |rows|, |groups|, ClusterMap(groups, summaries), order, HierarchyOf(SortedLabels(labels), dist))
  }

  /** The `clusters` entry of the result: each group with its size and summary. */
  function ClusterMap(groups: map<int, seq<Member>>, summaries: map<int, Summary>): map<int, Cluster>
    requires forall l :: l in groups ==> l in summaries
  {
    map l | l in groups :: Cluster(|groups[l]|, groups[l], summaries[l])
  }

  lemma ClusterMapSizes(groups: map<int, seq<Member>>, summaries: map<int, Summary>)
    requires forall l :: l in groups ==> l in summaries
    ensures (map l | l in ClusterMap(groups, summaries) :: ClusterMap(groups, summaries)[l].size) == Sizes(groups)
  {
  }

  /** `cluster_memories`: group, summarise, and arrange the session's memories. */
  method ClusterMemories(collection: Option<seq<StoredMemory>>, sessionId: string, nClusters: Option<int>,
                         distanceThreshold: real, fit: Fit, dist: CentroidDistance) returns (r: ClusterResult)
    requires OneLabelEach(fit)
    ensures r == Outcome(collection, sessionId, nClusters, distanceThreshold, fit, dist)
  {
    if collection.None? {
      return ClusterFailure(NoCollection);
    }
    var rows := SessionRows(collection.value, sessionId);
    if |rows| < 2 {
      return ClusterFailure(NotEnoughMemories);
    }
    var labels := fit(Embeddings(rows), CriterionFor(nClusters, distanceThreshold, |rows|));
    r := Assemble(sessionId, rows, labels, dist);
  }

  /** The body of `cluster_memories` once the labels are known. */
  method Assemble(sessionId: string, rows: seq<StoredMemory>, labels: seq<int>, dist: CentroidDistance) returns (r: ClusterResult)
    requires |rows| == |labels|
    ensures r == Clustered(sessionId, rows, labels, dist)
  {
    var groups, order := GroupByLabel(rows, labels);
    assert forall i :: 0 <= i < |order| ==> order[i] in groups by {
      OrderFacts(rows, labels);
    }
    var summaries := GenerateSummaries(groups, order);
    assert forall l :: l in groups ==> l in summaries by {
      OrderFacts(rows, labels);
      SummariesFacts(groups, order);
    }
    var keys := SortedLabels(labels);
    assert Ascending(keys) by {
      SortedLabelsFacts(labels);
    }
    var hierarchy := BuildHierarchy(keys, dist);
    r := Clustering(sessionId, |rows|, |groups|, ClusterMap(groups, summaries), order, hierarchy);
  }

  /**
    The error cases: no collection, or fewer than two memories in the
    session; any other call clusters the session's memories.
  */
  lemma OutcomeErrors(collection: Option<seq<StoredMemory>>, sessionId: string, nClusters: Option<int>,
                      distanceThreshold: real, fit: Fit, dist: CentroidDistance)
    requires OneLabelEach(fit)
    ensures Outcome(collection, sessionId, nClusters, distanceThreshold, fit, dist) == ClusterFailure(NoCollection) <==>
              collection.None?
    ensures Outcome(collection, sessionId, nClusters, distanceThreshold, fit, dist) == ClusterFailure(NotEnoughMemories) <==>
              collection.Some? && |SessionRows(collection.value, sessionId)| < 2
    ensures collection.Some? && |SessionRows(collection.value, sessionId)| >= 2 ==>
              var rows := SessionRows(collection.value, sessionId);
              Outcome(collection, sessionId, nClusters, distanceThreshold, fit, dist) ==
              Clustered(sessionId, rows, LabelsOf(rows, nClusters, distanceThreshold, fit), dist)
  {
  }

  /**
    One cluster per distinct label, listed once each in key order, with
    sizes that add up to the number of memories.
  */
  lemma ClusteredCounts(sessionId: string, rows: seq<StoredMemory>, labels: seq<int>, dist: CentroidDistance)
    requires |rows| == |labels|
    ensures var r := Clustered(sessionId, rows, labels, dist);
            && r.totalMemories == |rows|
            && r.clusters.Keys == (set l | l in labels)
            && r.numClusters == |r.clusters| == |r.order|
            && (forall l :: l in r.order <==> l in r.clusters)
            && DistinctBy(r.order, Self)
            && SumInt(map l | l in r.clusters :: r.clusters[l].size) == r.totalMemories
  {
    var groups := Groups(rows, labels);
    OrderFacts(rows, labels);
    GroupSizes(rows, labels);
    SummariesFacts(groups, LabelOrder(labels));
    ClusterMapSizes(groups, Summaries(groups, LabelOrder(labels)));
  }

  /**
    The clusters partition the memories: every memory is in the cluster of
    its own label, and every member comes from a memory with that label.
  */
  lemma ClusteredMembers(sessionId: string, rows: seq<StoredMemory>, labels: seq<int>, dist: CentroidDistance)
    requires |rows| == |labels|
    ensures var r := Clustered(sessionId, rows, labels, dist);
            && (forall i :: 0 <= i < |rows| ==> labels[i] in r.clusters && MemberOf(rows[i]) in r.clusters[labels[i]].memories)
            && (forall l, m :: l in r.clusters && m in r.clusters[l].memories ==>
                  exists i :: 0 <= i < |rows| && labels[i] == l && MemberOf(rows[i]) == m)
  {
    var r := Clustered(sessionId, rows, labels, dist);
    forall i | 0 <= i < |rows| ensures labels[i] in r.clusters && MemberOf(rows[i]) in r.clusters[labels[i]].memories {
      assert labels[i] in labels;
      GroupHas(rows, labels, i);
    }
    forall l, m | l in r.clusters && m in r.clusters[l].memories
      ensures exists i :: 0 <= i < |rows| && labels[i] == l && MemberOf(rows[i]) == m
    {
      GroupIn(rows, labels, l, m);
    }
  }

  /**
    The hierarchy places every cluster exactly once, at the top or under
    one parent, by the parent rule; each cluster's size and summary are
    those of its members.
  */
  lemma ClusteredHierarchy(sessionId: string, rows: seq<StoredMemory>, labels: seq<int>, dist: CentroidDistance, l: int)
    requires |rows| == |labels|
    requires l in Clustered(sessionId, rows, labels, dist).clusters
    ensures var r := Clustered(sessionId, rows, labels, dist);
            && (l in r.hierarchy.root <==> !(exists p :: p in r.hierarchy.children && l in r.hierarchy.children[p]))
            && (l in r.hierarchy.root <==> Parent(SortedLabels(labels), dist, l) == None)
            && (forall p :: p in r.hierarchy.children && l in r.hierarchy.children[p] <==> Parent(SortedLabels(labels), dist, l) == Some(p))
            && r.clusters[l].summary == SummaryOf(r.clusters[l].memories)
            && r.clusters[l].size == |r.clusters[l].memories|
  {
    var keys := SortedLabels(labels);
    OrderFacts(rows, labels);
    SummariesFacts(Groups(rows, labels), LabelOrder(labels));
    SortedLabelsFacts(labels);
    assert DistinctBy(keys, Self);
    EachLabelOnce(keys, dist, l);
    PlaceAllFacts(keys, dist, keys);
  }
}
