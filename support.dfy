/**
  Shared vocabulary for the memory hooks: an Option type, the slices of
  Python strings and lists the hooks use, Python's `in` on strings, order-
  preserving filtering and de-duplication, a stable descending sort (the
  behaviour of `list.sort(key=..., reverse=True)`), and sums over the
  values of a dictionary.
*/
module Support {

  datatype Option<T> = None | Some(value: T)

  // ---------------------------------------------------------------------
  // Sequences
  // ---------------------------------------------------------------------

  function Last<T>(s: seq<T>): T
    requires |s| > 0
  {
    s[|s| - 1]
  }

  function Init<T>(s: seq<T>): seq<T>
    requires |s| > 0
  {
    s[..|s| - 1]
  }

  lemma InitLast<T>(s: seq<T>)
    requires |s| > 0
    ensures s == Init(s) + [Last(s)]
  {
  }

  /** `[f(x) for x in s]`. */
  function MapSeq<A, B>(s: seq<A>, f: A -> B): (r: seq<B>)
    ensures |r| == |s|
    decreases |s|
  {
    if s == [] then [] else MapSeq(Init(s), f) + [f(Last(s))]
  }

  lemma {:induction false} MapSeqIndex<A, B>(s: seq<A>, f: A -> B)
    ensures forall i :: 0 <= i < |s| ==> MapSeq(s, f)[i] == f(s[i])
    decreases |s|
  {
    if s != [] {
      MapSeqIndex(Init(s), f);
    }
  }

  lemma MapSeqIn<A, B>(s: seq<A>, f: A -> B, y: B)
    requires y in MapSeq(s, f)
    ensures exists x :: x in s && y == f(x)
  {
    MapSeqIndex(s, f);
    var k :| 0 <= k < |s| && MapSeq(s, f)[k] == y;
    assert s[k] in s;
  }

  lemma MapSeqHas<A, B>(s: seq<A>, f: A -> B, x: A)
    requires x in s
    ensures f(x) in MapSeq(s, f)
  {
    MapSeqIndex(s, f);
    var k :| 0 <= k < |s| && s[k] == x;
    assert MapSeq(s, f)[k] == f(x);
  }

  /** `[f(x, y) for x, y in zip(xs, ys)]` on lists of one length. */
  function MapPairs<A, B, C>(xs: seq<A>, ys: seq<B>, f: (A, B) -> C): seq<C>
    requires |xs| == |ys|
    decreases |xs|
  {
    if xs == [] then [] else MapPairs(Init(xs), Init(ys), f) + [f(Last(xs), Last(ys))]
  }

  lemma {:induction false} MapPairsIndex<A, B, C>(xs: seq<A>, ys: seq<B>, f: (A, B) -> C)
    requires |xs| == |ys|
    ensures |MapPairs(xs, ys, f)| == |xs|
    ensures forall i :: 0 <= i < |xs| ==> MapPairs(xs, ys, f)[i] == f(xs[i], ys[i])
    decreases |xs|
  {
    if xs != [] {
      MapPairsIndex(Init(xs), Init(ys), f);
    }
  }

  /** Python's `s[:n]` for a non-negative `n`. */
  function Take<T>(s: seq<T>, n: nat): (r: seq<T>)
    ensures |r| <= n && |r| <= |s|
    ensures |r| == if n <= |s| then n else |s|
    ensures r == s[..|r|]
  {
    if n <= |s| then s[..n] else s
  }

  /** Python's `s[:n]` for any integer `n`: a negative `n` drops the last `-n` items. */
  function PyPrefix<T>(s: seq<T>, n: int): (r: seq<T>)
    ensures |r| <= |s| && r == s[..|r|]
    ensures n >= 0 ==> |r| == if n <= |s| then n else |s|
    ensures n < 0 ==> |r| == if |s| + n >= 0 then |s| + n else 0
  {
    if n >= 0 then Take(s, n)
    else if |s| + n >= 0 then s[..|s| + n]
    else []
  }

  /** `a` is a contiguous piece of `s`. */
  ghost predicate IsSlice<T>(a: seq<T>, s: seq<T>)
  {
    exists i, j :: 0 <= i <= j <= |s| && a == s[i..j]
  }

  /** Python's `s[lo:hi]` for non-negative bounds: clamped to the string, empty when crossed. */
  function PySlice<T>(s: seq<T>, lo: nat, hi: nat): (r: seq<T>)
    ensures IsSlice(r, s)
    ensures lo <= hi ==> |r| <= hi - lo
    ensures lo <= hi <= |s| ==> r == s[lo..hi]
  {
    var h := if hi <= |s| then hi else |s|;
    if lo <= h then s[lo..h] else s[0..0]
  }

  /** `a` keeps some of the items of `b`, in their order in `b`. */
  ghost predicate Subseq<T>(a: seq<T>, b: seq<T>)
    decreases |b|
  {
    a == [] ||
    (b != [] &&
     ((Last(a) == Last(b) && Subseq(Init(a), Init(b))) || Subseq(a, Init(b))))
  }

  lemma {:induction false} SubseqRefl<T>(s: seq<T>)
    ensures Subseq(s, s)
    decreases |s|
  {
    if s != [] {
      SubseqRefl(Init(s));
    }
  }

  /** The items of `s` that satisfy `p`, in order (a Python list comprehension with `if`). */
  function Filter<T>(s: seq<T>, p: T -> bool): (r: seq<T>)
    ensures |r| <= |s|
    decreases |s|
  {
    if s == [] then [] else
    var r := Filter(Init(s), p);
    if p(Last(s)) then r + [Last(s)] else r
  }

  lemma {:induction false} FilterMembers<T>(s: seq<T>, p: T -> bool)
    ensures forall x :: x in Filter(s, p) <==> x in s && p(x)
    ensures forall i :: 0 <= i < |Filter(s, p)| ==> p(Filter(s, p)[i])
    ensures Subseq(Filter(s, p), s)
    decreases |s|
  {
    if s != [] {
      FilterMembers(Init(s), p);
      InitLast(s);
    }
  }

  // ---------------------------------------------------------------------
  // De-duplication keeping the first item of each key
  // ---------------------------------------------------------------------

  function KeysOf<T(==), K(==)>(s: seq<T>, key: T -> K): set<K>
  {
    set x | x in s :: key(x)
  }

  /**
    The items of `s` whose key was not seen before, in order: the loop
    `for x in s: if key(x) not in seen: seen.add(key(x)); out.append(x)`.
  */
  function DedupBy<T(==), K(==)>(s: seq<T>, key: T -> K): seq<T>
    decreases |s|
  {
    if s == [] then [] else
    var r := DedupBy(Init(s), key);
    if key(Last(s)) in KeysOf(r, key) then r else r + [Last(s)]
  }

  /** The first item of `s` whose key is `k`. */
  function FirstWithKey<T(==), K(==)>(s: seq<T>, key: T -> K, k: K): T
    requires k in KeysOf(s, key)
    decreases |s|
  {
    InitLast(s);
    if k in KeysOf(Init(s), key) then FirstWithKey(Init(s), key, k) else Last(s)
  }

  lemma {:induction false} KeysOfSnoc<T, K>(s: seq<T>, x: T, key: T -> K)
    ensures KeysOf(s + [x], key) == KeysOf(s, key) + {key(x)}
  {
    assert forall y :: y in s + [x] <==> y in s || y == x;
  }

  /** No two kept items share a key, and every key of the input is kept. */
  lemma {:induction false} DedupByKeys<T, K>(s: seq<T>, key: T -> K)
    ensures forall i, j :: 0 <= i < j < |DedupBy(s, key)| ==> key(DedupBy(s, key)[i]) != key(DedupBy(s, key)[j])
    ensures KeysOf(DedupBy(s, key), key) == KeysOf(s, key)
    decreases |s|
  {
    if s != [] {
      var p, x := Init(s), Last(s);
      InitLast(s);
      DedupByKeys(p, key);
      var r := DedupBy(p, key);
      KeysOfSnoc(p, x, key);
      if key(x) !in KeysOf(r, key) {
        KeysOfSnoc(r, x, key);
        var r' := r + [x];
        forall i, j | 0 <= i < j < |r'| ensures key(r'[i]) != key(r'[j]) {
          if j == |r| {
            assert r'[i] in r;
          }
        }
      }
    }
  }

  /** Every kept item is the first item of the input with its key. */
  lemma {:induction false} DedupByKeepsFirst<T, K>(s: seq<T>, key: T -> K)
    ensures forall x :: x in DedupBy(s, key) ==> key(x) in KeysOf(s, key) && x == FirstWithKey(s, key, key(x))
    decreases |s|
  {
    if s != [] {
      var p, x := Init(s), Last(s);
      InitLast(s);
      DedupByKeepsFirst(p, key);
      DedupByKeys(p, key);
      var r := DedupBy(p, key);
      KeysOfSnoc(p, x, key);
      forall y | y in DedupBy(s, key) ensures key(y) in KeysOf(s, key) && y == FirstWithKey(s, key, key(y)) {
        if y in r {
          assert key(y) in KeysOf(p, key);
          assert FirstWithKey(s, key, key(y)) == FirstWithKey(p, key, key(y));
        } else {
          assert y == x && key(x) !in KeysOf(p, key);
        }
      }
    }
  }

  /** The kept items stand in their input order. */
  lemma {:induction false} DedupBySubseq<T, K>(s: seq<T>, key: T -> K)
    ensures Subseq(DedupBy(s, key), s)
    decreases |s|
  {
    if s != [] {
      DedupBySubseq(Init(s), key);
      var r := DedupBy(Init(s), key);
      if DedupBy(s, key) != r {
        assert Init(r + [Last(s)]) == r;
      }
    }
  }

  /** A member of the kept items comes from the input. */
  lemma DedupByIn<T, K>(s: seq<T>, key: T -> K, x: T)
    requires x in DedupBy(s, key)
    ensures x in s
  {
    DedupBySubseq(s, key);
    SubseqIn(DedupBy(s, key), s, x);
  }

  lemma {:induction false} SubseqIn<T>(a: seq<T>, b: seq<T>, x: T)
    requires Subseq(a, b) && x in a
    ensures x in b
    decreases |b|
  {
    InitLast(a);
    InitLast(b);
    if Last(a) == Last(b) && Subseq(Init(a), Init(b)) {
      if x != Last(a) {
        SubseqIn(Init(a), Init(b), x);
      }
    } else {
      SubseqIn(a, Init(b), x);
    }
  }

  /** No two items of `s` share a key. */
  ghost predicate DistinctBy<T, K>(s: seq<T>, key: T -> K)
  {
    forall i, j :: 0 <= i < j < |s| ==> key(s[i]) != key(s[j])
  }

  /** A sequence has distinct keys exactly when it has as many keys as items. */
  lemma {:induction false} DistinctByCard<T, K>(s: seq<T>, key: T -> K)
    ensures |KeysOf(s, key)| <= |s|
    ensures DistinctBy(s, key) <==> |KeysOf(s, key)| == |s|
    decreases |s|
  {
    if s == [] {
      assert KeysOf(s, key) == {};
    } else {
      var p, x := Init(s), Last(s);
      InitLast(s);
      DistinctByCard(p, key);
      KeysOfSnoc(p, x, key);
      if DistinctBy(s, key) {
        DistinctBySplit(s, key);
      }
      if |KeysOf(s, key)| == |s| {
        assert key(x) !in KeysOf(p, key);
        DistinctByJoin(s, key);
      }
    }
  }

  /** Distinct keys: the front has them, and the last key is new. */
  lemma DistinctBySplit<T, K>(s: seq<T>, key: T -> K)
    requires s != [] && DistinctBy(s, key)
    ensures DistinctBy(Init(s), key) && key(Last(s)) !in KeysOf(Init(s), key)
  {
    var p, x := Init(s), Last(s);
    forall i, j | 0 <= i < j < |p| ensures key(p[i]) != key(p[j]) {
      assert p[i] == s[i] && p[j] == s[j];
    }
    forall y | y in p ensures key(y) != key(x) {
      var i :| 0 <= i < |p| && p[i] == y;
      assert s[i] == y && s[|s| - 1] == x;
    }
  }

  /** A front with distinct keys and a new last key make distinct keys. */
  lemma DistinctByJoin<T, K>(s: seq<T>, key: T -> K)
    requires s != [] && DistinctBy(Init(s), key) && key(Last(s)) !in KeysOf(Init(s), key)
    ensures DistinctBy(s, key)
  {
    var p, x := Init(s), Last(s);
    forall i, j | 0 <= i < j < |s| ensures key(s[i]) != key(s[j]) {
      if j < |p| {
        assert p[i] == s[i] && p[j] == s[j];
      } else {
        assert s[i] == p[i] && s[j] == x;
        assert p[i] in p;
      }
    }
  }

  /** Two different items of a sequence with distinct keys have different keys. */
  lemma DistinctByApart<T, K>(s: seq<T>, key: T -> K, x: T, y: T)
    requires DistinctBy(s, key) && x in s && y in s && x != y
    ensures key(x) != key(y)
  {
    var i :| 0 <= i < |s| && s[i] == x;
    var j :| 0 <= j < |s| && s[j] == y;
    assert i != j;
  }

  /** A permutation of a sequence with distinct keys has distinct keys. */
  lemma DistinctByPerm<T, K>(a: seq<T>, b: seq<T>, key: T -> K)
    requires multiset(a) == multiset(b) && DistinctBy(a, key)
    ensures DistinctBy(b, key)
  {
    assert |a| == |multiset(a)| == |multiset(b)| == |b|;
    forall x ensures x in a <==> x in b {
      assert x in a <==> x in multiset(a);
      assert x in b <==> x in multiset(b);
    }
    assert KeysOf(a, key) == KeysOf(b, key);
    DistinctByCard(a, key);
    DistinctByCard(b, key);
  }

  /** Keeping some items keeps the keys distinct. */
  lemma {:induction false} DistinctByFilter<T, K>(s: seq<T>, p: T -> bool, key: T -> K)
    requires DistinctBy(s, key)
    ensures DistinctBy(Filter(s, p), key)
    decreases |s|
  {
    if s != [] {
      var q, x := Init(s), Last(s);
      InitLast(s);
      assert DistinctBy(q, key) by {
        forall i, j | 0 <= i < j < |q| ensures key(q[i]) != key(q[j]) {
          assert q[i] == s[i] && q[j] == s[j];
        }
      }
      DistinctByFilter(q, p, key);
      var r := Filter(q, p);
      forall i | 0 <= i < |r| ensures key(r[i]) != key(x) {
        FilterIn(q, p, r[i]);
        var k :| 0 <= k < |q| && q[k] == r[i];
        assert s[k] == r[i] && s[|s| - 1] == x;
      }
    }
  }

  /** Filtering first by a test that every wanted item passes changes nothing. */
  lemma {:induction false} FilterFilter<T>(s: seq<T>, p: T -> bool, q: T -> bool)
    requires forall x :: x in s && q(x) ==> p(x)
    ensures Filter(Filter(s, p), q) == Filter(s, q)
    decreases |s|
  {
    if s != [] {
      var a, x := Init(s), Last(s);
      InitLast(s);
      assert forall y :: y in a ==> y in s;
      FilterFilter(a, p, q);
      var fa := Filter(a, p);
      if p(x) {
        assert Init(fa + [x]) == fa && Last(fa + [x]) == x;
      }
    }
  }

  lemma FilterIn<T>(s: seq<T>, p: T -> bool, y: T)
    requires y in Filter(s, p)
    ensures y in s
  {
    FilterMembers(s, p);
  }

  /** A map that carries the keys over keeps them distinct. */
  lemma DistinctByMap<A, B, K>(s: seq<A>, f: A -> B, ka: A -> K, kb: B -> K)
    requires DistinctBy(s, ka)
    requires forall x :: x in s ==> kb(f(x)) == ka(x)
    ensures DistinctBy(MapSeq(s, f), kb)
  {
    MapSeqIndex(s, f);
    forall i, j | 0 <= i < j < |s| ensures kb(MapSeq(s, f)[i]) != kb(MapSeq(s, f)[j]) {
      assert s[i] in s && s[j] in s;
    }
  }

  lemma DistinctByDrop<T, K>(s: seq<T>, key: T -> K, n: nat)
    requires DistinctBy(s, key) && n <= |s|
    ensures DistinctBy(s[n..], key)
  {
    forall i, j | 0 <= i < j < |s| - n ensures key(s[n..][i]) != key(s[n..][j]) {
      assert s[n..][i] == s[n + i] && s[n..][j] == s[n + j];
    }
  }

  lemma DistinctByTake<T, K>(s: seq<T>, key: T -> K, n: nat)
    requires DistinctBy(s, key) && n <= |s|
    ensures DistinctBy(s[..n], key)
  {
    forall i, j | 0 <= i < j < n ensures key(s[..n][i]) != key(s[..n][j]) {
      assert s[..n][i] == s[i] && s[..n][j] == s[j];
    }
  }

  /** Two runs with distinct keys and no key in common make a run with distinct keys. */
  lemma DistinctByConcat<T, K>(a: seq<T>, b: seq<T>, key: T -> K)
    requires DistinctBy(a, key) && DistinctBy(b, key)
    requires forall x, y :: x in a && y in b ==> key(x) != key(y)
    ensures DistinctBy(a + b, key)
  {
    forall i, j | 0 <= i < j < |a + b| ensures key((a + b)[i]) != key((a + b)[j]) {
      if j < |a| {
        assert (a + b)[i] == a[i] && (a + b)[j] == a[j];
      } else if i < |a| {
        assert (a + b)[i] == a[i] && (a + b)[j] == b[j - |a|];
        assert a[i] in a && b[j - |a|] in b;
      } else {
        assert (a + b)[i] == b[i - |a|] && (a + b)[j] == b[j - |a|];
      }
    }
  }

  // ---------------------------------------------------------------------
  // Stable descending sort
  // ---------------------------------------------------------------------

  /** `ge(a, b)`: `a` may stand before `b` in a descending order. */
  ghost predicate TotalPreorder<T(!new)>(ge: (T, T) -> bool)
  {
    (forall a, b :: ge(a, b) || ge(b, a)) &&
    (forall a, b, c :: ge(a, b) && ge(b, c) ==> ge(a, c))
  }

  ghost predicate SortedBy<T>(s: seq<T>, ge: (T, T) -> bool)
  {
    forall i, j :: 0 <= i < j < |s| ==> ge(s[i], s[j])
  }

  /** Inserts `x` after every item that is at least `x`: equal items keep their order. */
  function Insert<T>(x: T, s: seq<T>, ge: (T, T) -> bool): (r: seq<T>)
    ensures |r| == |s| + 1
    ensures multiset(r) == multiset(s) + multiset{x}
    decreases |s|
  {
    if s == [] then [x]
    else if ge(s[0], x) then
      assert s == [s[0]] + s[1..];
      [s[0]] + Insert(x, s[1..], ge)
    else [x] + s
  }

  /** Python's stable `sorted(s, reverse=True)` under the order `ge`. */
  function SortDesc<T>(s: seq<T>, ge: (T, T) -> bool): (r: seq<T>)
    ensures |r| == |s|
    ensures multiset(r) == multiset(s)
    decreases |s|
  {
    if s == [] then [] else
    InitLast(s);
    Insert(Last(s), SortDesc(Init(s), ge), ge)
  }

  lemma {:induction false} InsertSorted<T(!new)>(x: T, s: seq<T>, ge: (T, T) -> bool)
    requires TotalPreorder(ge) && SortedBy(s, ge)
    ensures SortedBy(Insert(x, s, ge), ge)
    decreases |s|
  {
    if s != [] && ge(s[0], x) {
      InsertSorted(x, s[1..], ge);
      var t := Insert(x, s[1..], ge);
      assert multiset(t) == multiset(s[1..]) + multiset{x};
      forall k | 0 <= k < |t| ensures ge(s[0], t[k]) {
        assert t[k] in multiset(t);
        if t[k] != x {
          assert t[k] in multiset(s[1..]);
          var m :| 0 <= m < |s[1..]| && s[1..][m] == t[k];
          assert s[m + 1] == t[k];
        }
      }
    }
  }

  lemma {:induction false} SortDescSorted<T(!new)>(s: seq<T>, ge: (T, T) -> bool)
    requires TotalPreorder(ge)
    ensures SortedBy(SortDesc(s, ge), ge)
    decreases |s|
  {
    if s != [] {
      SortDescSorted(Init(s), ge);
      InsertSorted(Last(s), SortDesc(Init(s), ge), ge);
    }
  }

  /** Descending order on a real-valued key. */
  function ByKey<T>(key: T -> real): (T, T) -> bool
  {
    (a: T, b: T) => key(a) >= key(b)
  }

  lemma ByKeyIsTotalPreorder<T(!new)>(key: T -> real)
    ensures TotalPreorder(ByKey(key))
  {
  }

  /** `sorted(s, key=key, reverse=True)`: sorted descending by key, same items. */
  lemma SortByKeyProperties<T(!new)>(s: seq<T>, key: T -> real)
    ensures |SortDesc(s, ByKey(key))| == |s|
    ensures multiset(SortDesc(s, ByKey(key))) == multiset(s)
    ensures forall i, j :: 0 <= i < j < |s| ==> key(SortDesc(s, ByKey(key))[i]) >= key(SortDesc(s, ByKey(key))[j])
  {
    ByKeyIsTotalPreorder(key);
    SortDescSorted(s, ByKey(key));
  }

  /** A sorted list cut at `n`: everything kept is at least everything dropped. */
  lemma SortedSplit<T>(s: seq<T>, ge: (T, T) -> bool, n: nat)
    requires SortedBy(s, ge) && n <= |s|
    ensures forall x, y :: x in s[..n] && y in s[n..] ==> ge(x, y)
  {
    forall x, y | x in s[..n] && y in s[n..] ensures ge(x, y) {
      var i :| 0 <= i < n && s[..n][i] == x;
      var j :| 0 <= j < |s| - n && s[n..][j] == y;
      assert s[i] == x && s[n + j] == y;
    }
  }

  /**
    An item of a list sorted by descending key that is not among its first
    `n` items is only left out when `n` items are kept, each with a key at
    least its own.
  */
  lemma TopKeeps<T>(s: seq<T>, key: T -> real, n: nat, x: T)
    requires forall i, j :: 0 <= i < j < |s| ==> key(s[i]) >= key(s[j])
    requires x in s && x !in PyPrefix(s, n)
    ensures |PyPrefix(s, n)| == n
    ensures forall y :: y in PyPrefix(s, n) ==> key(y) >= key(x)
  {
    var i :| 0 <= i < |s| && s[i] == x;
    assert x !in s[..|PyPrefix(s, n)|];
    forall y | y in PyPrefix(s, n) ensures key(y) >= key(x) {
      var j :| 0 <= j < |PyPrefix(s, n)| && PyPrefix(s, n)[j] == y;
      assert s[j] == y;
    }
  }

  /**
    The same for any order: an item of a sorted list missing from its
    first `n` items means `n` items are kept, each ranked at least as high.
  */
  lemma TopKeepsBy<T>(s: seq<T>, ge: (T, T) -> bool, n: nat, x: T)
    requires SortedBy(s, ge)
    requires x in s && x !in PyPrefix(s, n)
    ensures |PyPrefix(s, n)| == n
    ensures forall y :: y in PyPrefix(s, n) ==> ge(y, x)
  {
    var i :| 0 <= i < |s| && s[i] == x;
    assert x !in s[..|PyPrefix(s, n)|];
    forall y | y in PyPrefix(s, n) ensures ge(y, x) {
      var j :| 0 <= j < |PyPrefix(s, n)| && PyPrefix(s, n)[j] == y;
      assert s[j] == y;
    }
  }

  // ---------------------------------------------------------------------
  // Python string comparison
  // ---------------------------------------------------------------------

  /** `a <= b` on Python strings: lexicographic by code point. */
  predicate LexLe(a: string, b: string)
    decreases |a|
  {
    a == [] || (b != [] && (a[0] < b[0] || (a[0] == b[0] && LexLe(a[1..], b[1..]))))
  }

  lemma {:induction false} LexLeTotal(a: string, b: string)
    ensures LexLe(a, b) || LexLe(b, a)
    decreases |a|
  {
    if a != [] && b != [] && a[0] == b[0] {
      LexLeTotal(a[1..], b[1..]);
    }
  }

  lemma {:induction false} LexLeTransitive(a: string, b: string, c: string)
    requires LexLe(a, b) && LexLe(b, c)
    ensures LexLe(a, c)
    decreases |a|
  {
    if a != [] && b != [] && c != [] && a[0] == b[0] && b[0] == c[0] {
      LexLeTransitive(a[1..], b[1..], c[1..]);
    }
  }

  /** Descending order on a string key, as `sort(key=..., reverse=True)` on strings. */
  function ByStringKey<T>(key: T -> string): (T, T) -> bool
  {
    (a: T, b: T) => LexLe(key(b), key(a))
  }

  lemma ByStringKeyIsTotalPreorder<T(!new)>(key: T -> string)
    ensures TotalPreorder(ByStringKey(key))
  {
    forall a, b ensures ByStringKey(key)(a, b) || ByStringKey(key)(b, a) {
      LexLeTotal(key(a), key(b));
    }
    forall a, b, c | ByStringKey(key)(a, b) && ByStringKey(key)(b, c) ensures ByStringKey(key)(a, c) {
      LexLeTransitive(key(c), key(b), key(a));
    }
  }

  // ---------------------------------------------------------------------
  // Characters and strings
  // ---------------------------------------------------------------------

  function LowerChar(c: char): char
  {
    if 'A' <= c <= 'Z' then (c as int + 32) as char else c
  }

  /** `s.lower()` restricted to ASCII letters. */
  function Lower(s: string): (r: string)
    ensures |r| == |s|
  {
    seq(|s|, i requires 0 <= i < |s| => LowerChar(s[i]))
  }

  /** The characters Python's `str.split()` and `str.strip()` treat as whitespace. */
  predicate IsSpace(c: char)
  {
    var n := c as int;
    (9 <= n <= 13) || (28 <= n <= 32) || n == 0x85 || n == 0xA0 || n == 0x1680 ||
    (0x2000 <= n <= 0x200A) || n == 0x2028 || n == 0x2029 || n == 0x202F ||
    n == 0x205F || n == 0x3000
  }

  function TrimStart(s: string, drop: char -> bool): string
    decreases |s|
  {
    if s != [] && drop(s[0]) then TrimStart(s[1..], drop) else s
  }

  function TrimEnd(s: string, drop: char -> bool): string
    decreases |s|
  {
    if s != [] && drop(Last(s)) then TrimEnd(Init(s), drop) else s
  }

  /** `s.strip(chars)`: both ends lose every character `drop` accepts. */
  function Strip(s: string, drop: char -> bool): string
  {
    TrimEnd(TrimStart(s, drop), drop)
  }

  predicate IsPrefix(p: string, s: string)
  {
    |p| <= |s| && s[..|p|] == p
  }

  /** Python's `p in s` on strings. */
  predicate Contains(s: string, p: string)
    decreases |s|
  {
    IsPrefix(p, s) || (s != [] && Contains(s[1..], p))
  }

  function Join(parts: seq<string>, sep: string): string
    decreases |parts|
  {
    if parts == [] then ""
    else if |parts| == 1 then parts[0]
    else Join(Init(parts), sep) + sep + Last(parts)
  }

  function WordsFrom(s: string, cur: string): seq<string>
    decreases |s|
  {
    if s == [] then (if cur == [] then [] else [cur])
    else if IsSpace(s[0]) then (if cur == [] then WordsFrom(s[1..], []) else [cur] + WordsFrom(s[1..], []))
    else WordsFrom(s[1..], cur + [s[0]])
  }

  /** Python's `s.split()`: the maximal runs of non-whitespace characters. */
  function Words(s: string): seq<string>
  {
    WordsFrom(s, [])
  }

  // ---------------------------------------------------------------------
  // Sums over dictionary values
  // ---------------------------------------------------------------------

  ghost function SumReal<K>(m: map<K, real>): real
    decreases |m|
  {
    if m == map[] then 0.0 else
    var k :| k in m;
    m[k] + SumReal(m - {k})
  }

  lemma {:induction false} SumRealRemove<K>(m: map<K, real>, k: K)
    requires k in m
    ensures SumReal(m) == m[k] + SumReal(m - {k})
    decreases |m|
  {
    var k' :| k' in m && SumReal(m) == m[k'] + SumReal(m - {k'});
    if k' != k {
      assert |m - {k'}| < |m|;
      SumRealRemove(m - {k'}, k);
      SumRealRemove(m - {k}, k');
      assert (m - {k'}) - {k} == (m - {k}) - {k'};
    }
  }

  ghost function SumInt<K>(m: map<K, int>): int
    decreases |m|
  {
    if m == map[] then 0 else
    var k :| k in m;
    m[k] + SumInt(m - {k})
  }

  lemma {:induction false} SumIntRemove<K>(m: map<K, int>, k: K)
    requires k in m
    ensures SumInt(m) == m[k] + SumInt(m - {k})
    decreases |m|
  {
    var k' :| k' in m && SumInt(m) == m[k'] + SumInt(m - {k'});
    if k' != k {
      assert |m - {k'}| < |m|;
      SumIntRemove(m - {k'}, k);
      SumIntRemove(m - {k}, k');
      assert (m - {k'}) - {k} == (m - {k}) - {k'};
    }
  }

  /** Adding a new key adds its value to the total. */
  lemma SumIntAdd<K>(m: map<K, int>, k: K, v: int)
    requires k !in m
    ensures SumInt(m[k := v]) == SumInt(m) + v
  {
    SumIntRemove(m[k := v], k);
    assert m[k := v] - {k} == m;
  }

  /** Adding one to a counter (present or not) adds one to the total. */
  lemma SumIntBump<K>(m: map<K, int>, k: K)
    ensures SumInt(m[k := (if k in m then m[k] else 0) + 1]) == SumInt(m) + 1
  {
    var m' := m[k := (if k in m then m[k] else 0) + 1];
    SumIntRemove(m', k);
    if k in m {
      SumIntRemove(m, k);
      assert m' - {k} == m - {k};
    } else {
      assert m' - {k} == m;
    }
  }
}
