/**
 * Python collection idioms the services use on lists and dictionaries:
 * insertion-ordered counters (`d[k] = d.get(k, 0) + 1`, `collections.Counter`),
 * first-kept duplicate removal, the stable descending sort of `list.sort(reverse=True)`
 * and `Counter.most_common`, `max(d.items(), key=...)` and the slice `s[:n]`.
 * A dictionary whose insertion order is observable is an association list
 * `seq<(K, nat)>` with distinct keys.
 */
module Tally {

  /** Occurrences of `x` in `s`. */
  function Count<T(==)>(s: seq<T>, x: T): nat { multiset(s)[x] }

  function Sum(s: seq<int>): int {
    if |s| == 0 then 0 else Sum(s[..|s| - 1]) + s[|s| - 1]
  }

  predicate Distinct<T(==)>(s: seq<T>) { forall i, j :: 0 <= i < j < |s| ==> s[i] != s[j] }

  /** Python's `s[:n]`, including the meaning of a negative `n` (drop that many from the end). */
  function SliceTo<T>(s: seq<T>, n: int): (r: seq<T>)
    ensures n >= 0 ==> |r| == if n < |s| then n else |s|
    ensures n < 0 ==> |r| == if |s| + n > 0 then |s| + n else 0
    ensures r == s[..|r|]
  {
    if n >= 0 then (if n < |s| then s[..n] else s)
    else (if |s| + n > 0 then s[..|s| + n] else [])
  }

  // --------------------------------------------------------------- filter

  /** `[x for x in s if p(x)]`. */
  function Filter<T>(s: seq<T>, p: T -> bool): (r: seq<T>)
    ensures |r| <= |s|
    ensures forall i :: 0 <= i < |r| ==> p(r[i]) && r[i] in s
    ensures forall i :: 0 <= i < |s| && p(s[i]) ==> s[i] in r
  {
    if |s| == 0 then []
    else
      assert s == s[..|s| - 1] + [s[|s| - 1]];
      Filter(s[..|s| - 1], p) + (if p(s[|s| - 1]) then [s[|s| - 1]] else [])
  }

  /** Filtering keeps the relative order: it distributes over concatenation. */
  lemma {:induction false} FilterAppend<T>(a: seq<T>, b: seq<T>, p: T -> bool)
    ensures Filter(a + b, p) == Filter(a, p) + Filter(b, p)
    decreases |b|
  {
    if |b| > 0 {
      var n := |b| - 1;
      FilterAppend(a, b[..n], p);
      assert (a + b)[..|a + b| - 1] == a + b[..n];
      assert (a + b)[|a + b| - 1] == b[n];
    } else {
      assert a + b == a;
    }
  }

  // ------------------------------------------------------------ counters

  function Keys<K>(d: seq<(K, nat)>): (ks: seq<K>)
    ensures |ks| == |d| && forall i :: 0 <= i < |d| ==> ks[i] == d[i].0
  {
    if |d| == 0 then [] else [d[0].0] + Keys(d[1..])
  }

  /** The values of an association list, in order: `list(d.values())`. */
  function Values<K, V>(d: seq<(K, V)>): (vs: seq<V>)
    ensures |vs| == |d| && forall i :: 0 <= i < |d| ==> vs[i] == d[i].1
  {
    if |d| == 0 then [] else Values(d[..|d| - 1]) + [d[|d| - 1].1]
  }

  /** `d.get(k, 0)`. */
  function Get<K(==)>(d: seq<(K, nat)>, k: K): nat {
    if |d| == 0 then 0 else if d[0].0 == k then d[0].1 else Get(d[1..], k)
  }

  /** `sum(d.values())`. */
  function Total<K>(d: seq<(K, nat)>): nat {
    if |d| == 0 then 0 else d[0].1 + Total(d[1..])
  }

  /** `d[k] = d.get(k, 0) + 1`: a new key goes to the end, an existing key keeps its place. */
  function Bump<K(==)>(d: seq<(K, nat)>, k: K): seq<(K, nat)> {
    if |d| == 0 then [(k, 1)]
    else if d[0].0 == k then [(k, d[0].1 + 1)] + d[1..]
    else [d[0]] + Bump(d[1..], k)
  }

  lemma {:induction false} BumpFacts<K>(d: seq<(K, nat)>, k: K)
    requires Distinct(Keys(d))
    ensures Keys(Bump(d, k)) == if k in Keys(d) then Keys(d) else Keys(d) + [k]
    ensures Distinct(Keys(Bump(d, k)))
    ensures forall j :: Get(Bump(d, k), j) == Get(d, j) + (if j == k then 1 else 0)
    ensures Total(Bump(d, k)) == Total(d) + 1
  {
    if |d| > 0 && d[0].0 != k {
      assert Keys(d)[1..] == Keys(d[1..]);
      BumpFacts(d[1..], k);
      assert Keys(Bump(d, k)) == [d[0].0] + Keys(Bump(d[1..], k));
      assert k in Keys(d) <==> k in Keys(d[1..]);
    } else if |d| > 0 {
      assert Keys(Bump(d, k)) == [k] + Keys(d[1..]);
      assert Keys(d) == [d[0].0] + Keys(d[1..]);
      forall j ensures Get(Bump(d, k), j) == Get(d, j) + (if j == k then 1 else 0) {
        if j != k {
          GetAbsent(d, j);
        }
      }
    }
  }

  lemma GetAbsent<K>(d: seq<(K, nat)>, j: K)
    requires |d| > 0 && d[0].0 != j
    ensures Get(d, j) == Get(d[1..], j)
  {
  }

  /** `d[k] = v`: a new key goes to the end, an existing key keeps its place. */
  function Put<K(==)>(d: seq<(K, nat)>, k: K, v: nat): seq<(K, nat)> {
    if |d| == 0 then [(k, v)]
    else if d[0].0 == k then [(k, v)] + d[1..]
    else [d[0]] + Put(d[1..], k, v)
  }

  /** After `d[k] = v`, `d.get(k)` is `v` and every other key reads as before. */
  lemma {:induction false} PutGet<K>(d: seq<(K, nat)>, k: K, v: nat, j: K)
    ensures Get(Put(d, k, v), j) == if j == k then v else Get(d, j)
  {
    if |d| > 0 && d[0].0 != k {
      PutGet(d[1..], k, v, j);
    } else if |d| > 0 && j != k {
      GetAbsent(d, j);
    }
  }

  /** `d[k] = v` keeps the keys distinct and adds `k` at the end when it is new. */
  lemma {:induction false} PutKeys<K>(d: seq<(K, nat)>, k: K, v: nat)
    requires Distinct(Keys(d))
    ensures Keys(Put(d, k, v)) == if k in Keys(d) then Keys(d) else Keys(d) + [k]
    ensures Distinct(Keys(Put(d, k, v)))
  {
    if |d| > 0 && d[0].0 != k {
      assert Keys(d)[1..] == Keys(d[1..]);
      PutKeys(d[1..], k, v);
      assert Keys(Put(d, k, v)) == [d[0].0] + Keys(Put(d[1..], k, v));
      assert k in Keys(d) <==> k in Keys(d[1..]);
    } else if |d| > 0 {
      assert Keys(Put(d, k, v)) == [k] + Keys(d[1..]);
      assert Keys(d) == [d[0].0] + Keys(d[1..]);
    }
  }

  /** `d.get(k, 0)` of a key that is not stored. */
  lemma {:induction false} GetMissing<K>(d: seq<(K, nat)>, k: K)
    requires k !in Keys(d)
    ensures Get(d, k) == 0
  {
    if |d| > 0 {
      assert Keys(d)[1..] == Keys(d[1..]);
      GetMissing(d[1..], k);
    }
  }

  /** The counter a loop over `s` builds with `Bump`, key by key in first-seen order. */
  function TallyOf<K(==)>(s: seq<K>): seq<(K, nat)> {
    if |s| == 0 then [] else Bump(TallyOf(s[..|s| - 1]), s[|s| - 1])
  }

  /** The distinct elements of `s` in first-seen order. */
  function Dedup<T(==)>(s: seq<T>): seq<T> {
    if |s| == 0 then []
    else
      var p := Dedup(s[..|s| - 1]);
      if s[|s| - 1] in p then p else p + [s[|s| - 1]]
  }

  /** A counter built over `s` holds each distinct element of `s` once, in first-seen order,
      with its number of occurrences, and its counts add up to `|s|`. */
  lemma {:induction false} TallyFacts<K>(s: seq<K>)
    ensures Keys(TallyOf(s)) == Dedup(s)
    ensures Distinct(Keys(TallyOf(s)))
    ensures forall k :: Get(TallyOf(s), k) == Count(s, k)
    ensures Total(TallyOf(s)) == |s|
  {
    if |s| > 0 {
      var p := s[..|s| - 1];
      TallyFacts(p);
      BumpFacts(TallyOf(p), s[|s| - 1]);
      assert s == p + [s[|s| - 1]];
      assert multiset(s) == multiset(p) + multiset{s[|s| - 1]};
    }
  }

  lemma {:induction false} DedupFacts<T>(s: seq<T>)
    ensures Distinct(Dedup(s))
    ensures forall x :: x in Dedup(s) <==> x in s
  {
    if |s| > 0 {
      var p := s[..|s| - 1];
      DedupFacts(p);
      assert s == p + [s[|s| - 1]];
    }
  }

  /** One more element joins the distinct elements unless it is already among them. */
  lemma DedupSnoc<T>(s: seq<T>, x: T)
    ensures Dedup(s + [x]) == if x in Dedup(s) then Dedup(s) else Dedup(s) + [x]
  {
    assert (s + [x])[..|s|] == s;
  }

  /** Index of the entry `max(d.items(), key=lambda x: x[1])` returns: the first largest count. */
  function MaxIndex<K>(d: seq<(K, nat)>): (m: nat)
    requires |d| > 0
    ensures m < |d|
    ensures forall i :: 0 <= i < |d| ==> d[i].1 <= d[m].1
    ensures forall i :: 0 <= i < m ==> d[i].1 < d[m].1
  {
    if |d| == 1 then 0
    else
      var j := MaxIndex(d[..|d| - 1]);
      if d[|d| - 1].1 > d[j].1 then |d| - 1 else j
  }

  // --------------------------------------------------- first-kept by key

  function MapSeq<T, K>(s: seq<T>, f: T -> K): (r: seq<K>)
    ensures |r| == |s| && forall i :: 0 <= i < |s| ==> r[i] == f(s[i])
  {
    if |s| == 0 then [] else MapSeq(s[..|s| - 1], f) + [f(s[|s| - 1])]
  }

  /** Keep an element when no element kept before it has the same key. */
  function DedupBy<T, K(==)>(s: seq<T>, key: T -> K): seq<T> {
    if |s| == 0 then []
    else
      var p := DedupBy(s[..|s| - 1], key);
      if key(s[|s| - 1]) in MapSeq(p, key) then p else p + [s[|s| - 1]]
  }

  predicate FirstWithKey<T, K(==)>(s: seq<T>, j: nat, key: T -> K)
    requires j < |s|
  {
    forall i :: 0 <= i < j ==> key(s[i]) != key(s[j])
  }

  /** Duplicate removal by key keeps exactly the first element of each key: the kept keys are
      distinct, every kept element comes from the input, every key of the input is kept, and
      the first element with a given key is the one kept. */
  lemma DedupByFacts<T, K>(s: seq<T>, key: T -> K)
    ensures Distinct(MapSeq(DedupBy(s, key), key))
    ensures forall x :: x in DedupBy(s, key) ==> x in s
    ensures forall i :: 0 <= i < |s| ==> key(s[i]) in MapSeq(DedupBy(s, key), key)
    ensures forall j :: 0 <= j < |s| && FirstWithKey(s, j, key) ==> s[j] in DedupBy(s, key)
  {
    DedupByDistinct(s, key);
    DedupBySubset(s, key);
    DedupByCovers(s, key);
    DedupByKeepsFirst(s, key);
  }

  lemma {:induction false} DedupByDistinct<T, K>(s: seq<T>, key: T -> K)
    ensures Distinct(MapSeq(DedupBy(s, key), key))
  {
    if |s| > 0 {
      var n := |s| - 1;
      var pr := DedupBy(s[..n], key);
      DedupByDistinct(s[..n], key);
      if key(s[n]) !in MapSeq(pr, key) {
        assert MapSeq(DedupBy(s, key), key) == MapSeq(pr, key) + [key(s[n])];
      }
    }
  }

  lemma {:induction false} DedupBySubset<T, K>(s: seq<T>, key: T -> K)
    ensures forall x :: x in DedupBy(s, key) ==> x in s
  {
    if |s| > 0 {
      var n := |s| - 1;
      DedupBySubset(s[..n], key);
      assert s == s[..n] + [s[n]];
    }
  }

  lemma {:induction false} DedupByCovers<T, K>(s: seq<T>, key: T -> K)
    ensures forall i :: 0 <= i < |s| ==> key(s[i]) in MapSeq(DedupBy(s, key), key)
  {
    if |s| > 0 {
      var n := |s| - 1;
      var p := s[..n];
      var pr := DedupBy(p, key);
      DedupByCovers(p, key);
      var m := MapSeq(DedupBy(s, key), key);
      assert MapSeq(pr, key) <= m;
      forall i | 0 <= i < |s| ensures key(s[i]) in m {
        if i < n {
          assert key(p[i]) in MapSeq(pr, key);
        }
      }
    }
  }

  lemma {:induction false} DedupByKeepsFirst<T, K>(s: seq<T>, key: T -> K)
    ensures forall j :: 0 <= j < |s| && FirstWithKey(s, j, key) ==> s[j] in DedupBy(s, key)
  {
    if |s| > 0 {
      var n := |s| - 1;
      var p := s[..n];
      var pr := DedupBy(p, key);
      DedupByKeepsFirst(p, key);
      DedupBySubset(p, key);
      forall j | 0 <= j < |s| && FirstWithKey(s, j, key) ensures s[j] in DedupBy(s, key) {
        if j < n {
          assert FirstWithKey(p, j, key);
        } else {
          forall t | 0 <= t < |pr| ensures MapSeq(pr, key)[t] != key(s[n]) {
            assert pr[t] in p;
            var i :| 0 <= i < n && p[i] == pr[t];
            assert s[i] == p[i];
          }
        }
      }
    }
  }

  /** `idx` lists, in increasing order, the positions of `b` that `a` is made of. */
  ghost predicate Embeds<T>(a: seq<T>, b: seq<T>, idx: seq<nat>) {
    && |idx| == |a|
    && (forall i :: 0 <= i < |a| ==> idx[i] < |b| && a[i] == b[idx[i]])
    && (forall i, j :: 0 <= i < j < |a| ==> idx[i] < idx[j])
  }

  /** `a` keeps some elements of `b` in their original order. */
  ghost predicate IsSubsequence<T>(a: seq<T>, b: seq<T>) {
    exists idx :: Embeds(a, b, idx)
  }

  /** An embedding into all of `b` but its last element extends to `b`, with or without that
      element. */
  lemma EmbedsStep<T>(a: seq<T>, b: seq<T>, idx: seq<nat>, keep: bool) returns (idx': seq<nat>)
    requires |b| > 0 && Embeds(a, b[..|b| - 1], idx)
    ensures Embeds(if keep then a + [b[|b| - 1]] else a, b, idx')
    ensures idx' == if keep then idx + [|b| - 1] else idx
  {
    idx' := if keep then idx + [|b| - 1] else idx;
  }

  /** Duplicate removal keeps the relative order of what it keeps. */
  lemma DedupBySubsequence<T, K>(s: seq<T>, key: T -> K)
    ensures IsSubsequence(DedupBy(s, key), s)
  {
    var idx := DedupByEmbedding(s, key);
  }

  /** The positions of the input that duplicate removal keeps. */
  lemma {:induction false} DedupByEmbedding<T, K>(s: seq<T>, key: T -> K) returns (idx: seq<nat>)
    ensures Embeds(DedupBy(s, key), s, idx)
  {
    if |s| == 0 {
      idx := [];
    } else {
      var p := DedupBy(s[..|s| - 1], key);
      var pidx := DedupByEmbedding(s[..|s| - 1], key);
      idx := EmbedsStep(p, s, pidx, key(s[|s| - 1]) !in MapSeq(p, key));
    }
  }

  /** A prefix of a subsequence is a subsequence. */
  lemma SubsequencePrefix<T>(a: seq<T>, b: seq<T>, m: nat)
    requires IsSubsequence(a, b) && m <= |a|
    ensures IsSubsequence(a[..m], b)
  {
    var idx :| Embeds(a, b, idx);
    assert Embeds(a[..m], b, idx[..m]);
  }

  /** A key survives duplicate removal exactly when some element of the input has it. */
  lemma KeyKept<T, K>(s: seq<T>, key: T -> K, k: K)
    ensures k in MapSeq(DedupBy(s, key), key) <==> exists i :: 0 <= i < |s| && key(s[i]) == k
  {
    var d := DedupBy(s, key);
    DedupByFacts(s, key);
    if k in MapSeq(d, key) {
      var t :| 0 <= t < |d| && MapSeq(d, key)[t] == k;
      assert d[t] in s;
    }
  }

  lemma FilterSnoc<T>(s: seq<T>, i: nat, p: T -> bool)
    requires i < |s|
    ensures Filter(s[..i + 1], p) == Filter(s[..i], p) + (if p(s[i]) then [s[i]] else [])
  {
    assert s[..i + 1][..i] == s[..i];
  }

  lemma DedupBySnoc<T, K>(f: seq<T>, x: T, key: T -> K)
    ensures DedupBy(f + [x], key) == if key(x) in MapSeq(DedupBy(f, key), key) then DedupBy(f, key) else DedupBy(f, key) + [x]
  {
    assert (f + [x])[..|f|] == f;
  }

  /** One more element of the input of `DedupBy(Filter(s, p), key)`. */
  lemma DedupFilterSnoc<T, K>(s: seq<T>, i: nat, p: T -> bool, key: T -> K)
    requires i < |s|
    ensures var d := DedupBy(Filter(s[..i], p), key);
      DedupBy(Filter(s[..i + 1], p), key) == if p(s[i]) && key(s[i]) !in MapSeq(d, key) then d + [s[i]] else d
  {
    FilterSnoc(s, i, p);
    var f := Filter(s[..i], p);
    if p(s[i]) {
      assert Filter(s[..i + 1], p) == f + [s[i]];
      DedupBySnoc(f, s[i], key);
    } else {
      assert Filter(s[..i + 1], p) == f;
    }
  }

  /** When `p` looks only at the key, filtering and duplicate removal commute. */
  lemma {:induction false} FilterDedupCommute<T, K>(s: seq<T>, p: T -> bool, key: T -> K)
    requires forall x, y :: key(x) == key(y) ==> p(x) == p(y)
    ensures DedupBy(Filter(s, p), key) == Filter(DedupBy(s, key), p)
  {
    if |s| > 0 {
      var n := |s| - 1;
      var x := s[n];
      var q := s[..n];
      assert s[..n + 1] == s && q + [x] == s;
      FilterDedupCommute(q, p, key);
      var d := DedupBy(q, key);
      DedupFilterSnoc(s, n, p, key);
      DedupBySnoc(q, x, key);
      if key(x) !in MapSeq(d, key) {
        FilterSnoc(d + [x], |d|, p);
        assert (d + [x])[..|d|] == d && (d + [x])[..|d| + 1] == d + [x];
      }
      if p(x) {
        KeyKeptFiltered(q, p, key, x);
      }
    }
  }

  lemma KeyKeptFiltered<T, K>(s: seq<T>, p: T -> bool, key: T -> K, x: T)
    requires forall y :: key(y) == key(x) ==> p(y)
    ensures key(x) in MapSeq(DedupBy(Filter(s, p), key), key) <==> key(x) in MapSeq(DedupBy(s, key), key)
  {
    var f := Filter(s, p);
    KeyKept(f, key, key(x));
    KeyKept(s, key, key(x));
    if exists i :: 0 <= i < |s| && key(s[i]) == key(x) {
      var i :| 0 <= i < |s| && key(s[i]) == key(x);
      assert s[i] in f;
      var t :| 0 <= t < |f| && f[t] == s[i];
    }
    if exists t :: 0 <= t < |f| && key(f[t]) == key(x) {
      var t :| 0 <= t < |f| && key(f[t]) == key(x);
      assert f[t] in s;
    }
  }

  lemma MapSeqSnoc<T, K>(p: seq<T>, x: T, f: T -> K)
    ensures MapSeq(p + [x], f) == MapSeq(p, f) + [f(x)]
  {
    assert (p + [x])[..|p|] == p;
  }

  /** One more loop step of a counter built over `f` of a prefix of `s`. */
  lemma TallyOfMapStep<T, K>(s: seq<T>, i: nat, f: T -> K)
    requires i < |s|
    ensures TallyOf(MapSeq(s[..i + 1], f)) == Bump(TallyOf(MapSeq(s[..i], f)), f(s[i]))
  {
    var m := MapSeq(s[..i], f);
    assert s[..i + 1] == s[..i] + [s[i]];
    MapSeqSnoc(s[..i], s[i], f);
    assert (m + [f(s[i])])[..|m|] == m;
  }

  /** In a counter with distinct keys, `d.get(k)` of a stored key is its stored count. */
  lemma {:induction false} GetAt<K>(d: seq<(K, nat)>, j: nat)
    requires Distinct(Keys(d)) && j < |d|
    ensures Get(d, d[j].0) == d[j].1
  {
    if j > 0 {
      assert Keys(d)[0] != Keys(d)[j];
      assert Keys(d)[1..] == Keys(d[1..]);
      GetAt(d[1..], j - 1);
    }
  }

  /** Filtering keeps the relative order of what it keeps. */
  lemma {:induction false} FilterSubsequence<T>(s: seq<T>, p: T -> bool)
    ensures IsSubsequence(Filter(s, p), s)
  {
    if |s| == 0 {
      assert Embeds([], s, []);
    } else {
      var n := |s| - 1;
      var f := Filter(s[..n], p);
      FilterSubsequence(s[..n], p);
      var idx :| Embeds(f, s[..n], idx);
      assert Filter(s, p) == f + (if p(s[n]) then [s[n]] else []);
      if p(s[n]) {
        assert Embeds(Filter(s, p), s, idx + [n]);
      } else {
        assert Embeds(Filter(s, p), s, idx);
      }
    }
  }

  /** `r` is `s` filtered by `p`: the elements of `s` that satisfy `p`, each once per position,
      in their original order. */
  ghost predicate Selects<T>(r: seq<T>, s: seq<T>, p: T -> bool) {
    exists idx :: Embeds(r, s, idx) && forall j :: 0 <= j < |s| ==> (j in idx <==> p(s[j]))
  }

  /** The positions `Filter` keeps are exactly those whose element satisfies the predicate. */
  lemma {:induction false} FilterPositions<T>(s: seq<T>, p: T -> bool) returns (idx: seq<nat>)
    ensures Embeds(Filter(s, p), s, idx)
    ensures forall j :: 0 <= j < |s| ==> (j in idx <==> p(s[j]))
  {
    if |s| == 0 {
      idx := [];
    } else {
      var n := |s| - 1;
      var f := Filter(s[..n], p);
      var pidx := FilterPositions(s[..n], p);
      assert Filter(s, p) == f + (if p(s[n]) then [s[n]] else []);
      idx := EmbedsStep(f, s, pidx, p(s[n]));
      forall j | 0 <= j < |s| ensures j in idx <==> p(s[j]) {
        InPositions(pidx, n, p(s[n]), j);
        if j < n {
          assert s[..n][j] == s[j];
        }
      }
    }
  }

  /** Extending the positions below `n` by `n` or by nothing. */
  lemma InPositions(pidx: seq<nat>, n: nat, keep: bool, j: nat)
    requires forall t :: 0 <= t < |pidx| ==> pidx[t] < n
    ensures j < n ==> (j in (if keep then pidx + [n] else pidx) <==> j in pidx)
    ensures j == n ==> (j in (if keep then pidx + [n] else pidx) <==> keep)
  {
  }

  /** A filter finds something exactly when some element satisfies the predicate. */
  lemma FilterNonEmpty<T>(s: seq<T>, p: T -> bool)
    ensures |Filter(s, p)| > 0 <==> exists i :: 0 <= i < |s| && p(s[i])
  {
    var r := Filter(s, p);
    if |r| > 0 {
      var k :| 0 <= k < |s| && s[k] == r[0];
    }
  }

  /** `Filter` meets its specification by positions. */
  lemma FilterSelects<T>(s: seq<T>, p: T -> bool)
    ensures Selects(Filter(s, p), s, p)
  {
    var idx := FilterPositions(s, p);
  }

  lemma SubsequenceTransitive<T>(a: seq<T>, b: seq<T>, c: seq<T>)
    requires IsSubsequence(a, b) && IsSubsequence(b, c)
    ensures IsSubsequence(a, c)
  {
    var ia :| Embeds(a, b, ia);
    var ib :| Embeds(b, c, ib);
    var ic := seq(|a|, i requires 0 <= i < |a| => ib[ia[i]]);
    assert Embeds(a, c, ic);
  }

  // ------------------------------------------------ stable descending sort

  predicate SortedDesc<T>(s: seq<T>, key: T -> int) {
    forall i, j :: 0 <= i < j < |s| ==> key(s[i]) >= key(s[j])
  }

  /** Insert `x` after every element whose key is at least its own. */
  function InsertDesc<T>(x: T, s: seq<T>, key: T -> int): seq<T> {
    if |s| == 0 then [x]
    else if key(s[0]) >= key(x) then [s[0]] + InsertDesc(x, s[1..], key)
    else [x] + s
  }

  /** `sorted(s, key=key, reverse=True)`: Python's sort is stable, and so is this insertion sort. */
  function SortDesc<T>(s: seq<T>, key: T -> int): seq<T> {
    if |s| == 0 then [] else InsertDesc(s[|s| - 1], SortDesc(s[..|s| - 1], key), key)
  }

  lemma {:induction false} InsertDescFacts<T>(x: T, s: seq<T>, key: T -> int)
    requires SortedDesc(s, key)
    ensures SortedDesc(InsertDesc(x, s, key), key)
    ensures multiset(InsertDesc(x, s, key)) == multiset(s) + multiset{x}
    ensures |InsertDesc(x, s, key)| == |s| + 1
  {
    InsertDescPerm(x, s, key);
    InsertDescSorted(x, s, key);
  }

  lemma {:induction false} InsertDescPerm<T>(x: T, s: seq<T>, key: T -> int)
    ensures multiset(InsertDesc(x, s, key)) == multiset(s) + multiset{x}
    ensures |InsertDesc(x, s, key)| == |s| + 1
  {
    if |s| > 0 && key(s[0]) >= key(x) {
      InsertDescPerm(x, s[1..], key);
      assert s == [s[0]] + s[1..];
    }
  }

  lemma {:induction false} InsertDescBound<T>(x: T, s: seq<T>, key: T -> int, b: int)
    requires key(x) <= b && forall i :: 0 <= i < |s| ==> key(s[i]) <= b
    ensures forall i :: 0 <= i < |InsertDesc(x, s, key)| ==> key(InsertDesc(x, s, key)[i]) <= b
  {
    if |s| > 0 && key(s[0]) >= key(x) {
      InsertDescBound(x, s[1..], key, b);
    }
  }

  lemma SortedCons<T>(a: T, r: seq<T>, key: T -> int)
    requires SortedDesc(r, key) && forall i :: 0 <= i < |r| ==> key(r[i]) <= key(a)
    ensures SortedDesc([a] + r, key)
  {
    forall i, j | 0 <= i < j < |[a] + r| ensures key(([a] + r)[i]) >= key(([a] + r)[j]) {
      assert ([a] + r)[j] == r[j - 1];
      if i > 0 {
        assert ([a] + r)[i] == r[i - 1];
      }
    }
  }

  lemma {:induction false} InsertDescSorted<T>(x: T, s: seq<T>, key: T -> int)
    requires SortedDesc(s, key)
    ensures SortedDesc(InsertDesc(x, s, key), key)
  {
    if |s| > 0 && key(s[0]) >= key(x) {
      InsertDescSorted(x, s[1..], key);
      InsertDescBound(x, s[1..], key, key(s[0]));
      SortedCons(s[0], InsertDesc(x, s[1..], key), key);
    } else if |s| > 0 {
      SortedCons(x, s, key);
    }
  }

  /** The stable sort returns a permutation of its input ordered by non-increasing key. */
  lemma {:induction false} SortDescFacts<T>(s: seq<T>, key: T -> int)
    ensures SortedDesc(SortDesc(s, key), key)
    ensures multiset(SortDesc(s, key)) == multiset(s)
    ensures |SortDesc(s, key)| == |s|
  {
    if |s| > 0 {
      var p := s[..|s| - 1];
      SortDescFacts(p, key);
      InsertDescFacts(s[|s| - 1], SortDesc(p, key), key);
      assert s == p + [s[|s| - 1]];
    }
  }

  /** The elements whose key is `v`. */
  function KeyIs<T>(key: T -> int, v: int): T -> bool {
    y => key(y) == v
  }

  /** Inserting into a sorted sequence puts `x` after every element with its key. */
  lemma {:induction false} InsertDescTies<T>(x: T, s: seq<T>, key: T -> int, v: int)
    requires SortedDesc(s, key)
    ensures Filter(InsertDesc(x, s, key), KeyIs(key, v)) == Filter(s, KeyIs(key, v)) + (if key(x) == v then [x] else [])
  {
    var p := KeyIs(key, v);
    var tail := if key(x) == v then [x] else [];
    if |s| > 0 && key(s[0]) >= key(x) {
      var t := InsertDesc(x, s[1..], key);
      SortedDescTail(s, key);
      InsertDescTies(x, s[1..], key, v);
      calc {
        Filter(InsertDesc(x, s, key), p);
        { assert InsertDesc(x, s, key) == [s[0]] + t; }
        Filter([s[0]] + t, p);
        { FilterAppend([s[0]], t, p); }
        Filter([s[0]], p) + (Filter(s[1..], p) + tail);
        { FilterAppend([s[0]], s[1..], p); assert s == [s[0]] + s[1..]; }
        Filter(s, p) + tail;
      }
    } else {
      assert InsertDesc(x, s, key) == [x] + s;
      TiesAtFront(x, s, key, v);
    }
  }

  /** An element placed before every element of smaller key comes after all of its ties. */
  lemma TiesAtFront<T>(x: T, s: seq<T>, key: T -> int, v: int)
    requires SortedDesc(s, key) && (|s| == 0 || key(s[0]) < key(x))
    ensures Filter([x] + s, KeyIs(key, v)) == Filter(s, KeyIs(key, v)) + (if key(x) == v then [x] else [])
  {
    var p := KeyIs(key, v);
    if key(x) == v {
      forall i | 0 <= i < |s|
        ensures !p(s[i])
      {
        assert key(s[i]) <= key(s[0]);
      }
    }
    FilterFront(x, s, p);
  }

  /** When nothing after `x` passes, filtering `[x] + s` may as well take `x` last. */
  lemma FilterFront<T>(x: T, s: seq<T>, p: T -> bool)
    requires p(x) ==> forall i :: 0 <= i < |s| ==> !p(s[i])
    ensures Filter([x] + s, p) == Filter(s, p) + (if p(x) then [x] else [])
  {
    FilterSingle(x, p);
    FilterAppend([x], s, p);
    if p(x) {
      FilterNone(s, p);
      assert Filter([x] + s, p) == [x] + [];
    } else {
      assert Filter([x] + s, p) == [] + Filter(s, p);
    }
  }

  lemma SortedDescTail<T>(s: seq<T>, key: T -> int)
    requires |s| > 0 && SortedDesc(s, key)
    ensures SortedDesc(s[1..], key)
  {
    forall i, j | 0 <= i < j < |s| - 1
      ensures key(s[1..][i]) >= key(s[1..][j])
    {
      assert s[1..][i] == s[i + 1] && s[1..][j] == s[j + 1];
    }
  }

  lemma FilterSingle<T>(x: T, p: T -> bool)
    ensures Filter([x], p) == if p(x) then [x] else []
  {
    assert [x][..0] == [];
  }

  lemma FilterNone<T>(s: seq<T>, p: T -> bool)
    requires forall i :: 0 <= i < |s| ==> !p(s[i])
    ensures Filter(s, p) == []
  {
  }

  /** The sort is stable: the elements with any one key come out in their input order. */
  lemma {:induction false} SortDescStable<T>(s: seq<T>, key: T -> int, v: int)
    ensures Filter(SortDesc(s, key), KeyIs(key, v)) == Filter(s, KeyIs(key, v))
  {
    if |s| > 0 {
      var p := s[..|s| - 1];
      SortDescStable(p, key, v);
      SortDescFacts(p, key);
      InsertDescTies(s[|s| - 1], SortDesc(p, key), key, v);
    }
  }

  // ------------------------------------------------------------ sums and repeats

  /** The sum of `f` over the elements of `s`. */
  function SumBy<T>(s: seq<T>, f: T -> int): int {
    if |s| == 0 then 0 else f(s[0]) + SumBy(s[1..], f)
  }

  lemma {:induction false} SumBySnoc<T>(s: seq<T>, x: T, f: T -> int)
    ensures SumBy(s + [x], f) == SumBy(s, f) + f(x)
  {
    assert (s + [x])[1..] == if |s| == 0 then [] else s[1..] + [x];
    if |s| > 0 {
      SumBySnoc(s[1..], x, f);
    }
  }

  /** Sorting changes no sum over the elements. */
  lemma {:induction false} SortDescSumBy<T>(s: seq<T>, key: T -> int, f: T -> int)
    ensures SumBy(SortDesc(s, key), f) == SumBy(s, f)
  {
    if |s| > 0 {
      var p := s[..|s| - 1];
      SortDescSumBy(p, key, f);
      InsertDescSumBy(s[|s| - 1], SortDesc(p, key), key, f);
      SumBySnoc(p, s[|s| - 1], f);
      assert s == p + [s[|s| - 1]];
    }
  }

  lemma {:induction false} InsertDescSumBy<T>(x: T, s: seq<T>, key: T -> int, f: T -> int)
    ensures SumBy(InsertDesc(x, s, key), f) == f(x) + SumBy(s, f)
  {
    if |s| > 0 && key(s[0]) >= key(x) {
      InsertDescSumBy(x, s[1..], key, f);
      assert ([s[0]] + InsertDesc(x, s[1..], key))[1..] == InsertDesc(x, s[1..], key);
    } else {
      assert ([x] + s)[1..] == s;
    }
  }

  /** A sequence without repeats holds each value at most once. */
  lemma {:induction false} DistinctMultiplicity<T>(s: seq<T>, x: T)
    requires Distinct(s)
    ensures multiset(s)[x] <= 1
  {
    if |s| > 0 {
      var p := s[..|s| - 1];
      DistinctMultiplicity(p, x);
      assert s == p + [s[|s| - 1]];
      if s[|s| - 1] == x {
        assert x !in p;
      }
    }
  }

  /** Distinct elements that are all `b` are at most one. */
  lemma DistinctAllSame<T>(s: seq<T>, b: T)
    ensures Distinct(s) && (forall x :: x in s ==> x == b) ==> |s| <= 1
  {
    if |s| >= 2 {
      assert s[0] in s && s[1] in s;
    }
  }

  lemma RepeatMultiplicity<T>(s: seq<T>, i: nat, j: nat)
    requires i < j < |s| && s[i] == s[j]
    ensures multiset(s)[s[i]] >= 2
  {
    assert s == s[..i] + [s[i]] + s[i + 1..j] + [s[j]] + s[j + 1..];
  }

  /** A permutation of a sequence without repeats has none either. */
  lemma DistinctPermutation<T>(a: seq<T>, b: seq<T>)
    requires Distinct(a) && multiset(a) == multiset(b)
    ensures Distinct(b)
  {
    forall i, j | 0 <= i < j < |b| ensures b[i] != b[j] {
      if b[i] == b[j] {
        RepeatMultiplicity(b, i, j);
        DistinctMultiplicity(a, b[i]);
        assert false;
      }
    }
  }

  // ------------------------------------------------- rounded percentages

  /** `count` as a percentage of `total`, rounded half-up to one decimal and kept in tenths;
      0 when the total is 0. */
  function PercentTenths(count: nat, total: nat): (t: nat)
    ensures total > 0 ==> 2 * total * t <= 2000 * count + total < 2 * total * (t + 1)
    ensures count <= total ==> t <= 1000
  {
    if total == 0 then 0 else RoundedTenths(count, total); (2000 * count + total) / (2 * total)
  }

  /** The quotient of half-up rounding brackets the exact value, and a share of a whole
      stays within 100%. */
  lemma RoundedTenths(count: nat, total: nat)
    requires total > 0
    ensures var q := (2000 * count + total) / (2 * total);
      2 * total * q <= 2000 * count + total < 2 * total * (q + 1) && (count <= total ==> q <= 1000)
  {
    var x, d := 2000 * count + total, 2 * total;
    var q := x / d;
    DivBracket(x, d);
    assert d * (q + 1) == d * q + d;
    if count <= total && q > 1000 {
      assert x < d * 1001;
      MulMonotone(d, 1001, q);
      assert false;
    }
  }

  /** No count is 0%. */
  lemma PercentOfNone(total: nat)
    ensures PercentTenths(0, total) == 0
  {
    if total > 0 {
      var t := PercentTenths(0, total);
      assert 2 * total * t <= total;
      if t > 0 {
        MulMonotone(2 * total, 1, t);
      }
    }
  }

  lemma DivBracket(x: nat, d: nat)
    requires d > 0
    ensures d * (x / d) <= x < d * (x / d) + d
  {
    assert x == d * (x / d) + x % d;
  }

  lemma MulMonotone(d: nat, a: nat, b: nat)
    requires a <= b
    ensures d * a <= d * b
  {
    assert d * b == d * a + d * (b - a);
  }
}
