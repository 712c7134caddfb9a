/** Sequence operations behind `filter`, `slice`, `find` and the counting dictionaries
    that the adapter fills with `forEach`. */
module Seqs {
  import opened Wrappers

  /** `s.filter(p)`. */
  function Filter<T>(s: seq<T>, p: T -> bool): (r: seq<T>)
    ensures |r| <= |s|
    ensures forall x :: x in r ==> x in s && p(x)
  {
    if s == [] then []
    else Filter(s[..|s| - 1], p) + (if p(s[|s| - 1]) then [s[|s| - 1]] else [])
  }

  /** Every element of `s` that satisfies `p` is kept. */
  lemma {:induction false} FilterKeeps<T>(s: seq<T>, p: T -> bool, x: T)
    requires x in s && p(x)
    ensures x in Filter(s, p)
  {
    if s[|s| - 1] != x {
      assert x in s[..|s| - 1];
      FilterKeeps(s[..|s| - 1], p, x);
    }
  }

  /** Filtering distributes over concatenation, so it keeps the input order. */
  lemma {:induction false} FilterAppend<T>(a: seq<T>, b: seq<T>, p: T -> bool)
    ensures Filter(a + b, p) == Filter(a, p) + Filter(b, p)
    decreases |b|
  {
    if b != [] {
      assert (a + b)[..|a + b| - 1] == a + b[..|b| - 1];
      FilterAppend(a, b[..|b| - 1], p);
    } else {
      assert a + b == a;
    }
  }

  /** Filtering with a predicate every element satisfies changes nothing. */
  lemma {:induction false} FilterAll<T>(s: seq<T>, p: T -> bool)
    requires forall i :: 0 <= i < |s| ==> p(s[i])
    ensures Filter(s, p) == s
  {
    if s != [] {
      var init := s[..|s| - 1];
      forall i | 0 <= i < |init| ensures p(init[i]) {
        assert init[i] == s[i];
      }
      FilterAll(init, p);
      SplitLast(s);
    }
  }

  /** A non-empty sequence is its prefix followed by its last element. */
  lemma SplitLast<T>(s: seq<T>)
    requires s != []
    ensures s[..|s| - 1] + [s[|s| - 1]] == s
  {
  }

  /** Filters with pointwise-equal predicates agree. */
  lemma {:induction false} FilterExt<T>(s: seq<T>, p: T -> bool, q: T -> bool)
    requires forall x :: p(x) == q(x)
    ensures Filter(s, p) == Filter(s, q)
  {
    if s != [] {
      FilterExt(s[..|s| - 1], p, q);
    }
  }

  /** Two successive filters are one filter by the conjunction. */
  lemma {:induction false} FilterFilter<T>(s: seq<T>, p: T -> bool, q: T -> bool, both: T -> bool)
    requires forall x :: both(x) == (p(x) && q(x))
    ensures Filter(Filter(s, p), q) == Filter(s, both)
  {
    if s != [] {
      var init, last := s[..|s| - 1], s[|s| - 1];
      FilterFilter(init, p, q, both);
      var tail := if p(last) then [last] else [];
      FilterAppend(Filter(init, p), tail, q);
      if p(last) {
        assert [last][..0] == [];
      }
    }
  }

  /** `s.filter(p).length`. */
  function Count<T>(s: seq<T>, p: T -> bool): nat {
    |Filter(s, p)|
  }

  /** `s.slice(0, n)` for n >= 0. */
  function Take<T>(s: seq<T>, n: nat): (r: seq<T>)
    ensures |r| == if |s| <= n then |s| else n
    ensures r <= s
  {
    if |s| <= n then s else s[..n]
  }

  /** Once a prefix is long enough, extending the input does not change `Take`. */
  lemma TakeStable<T>(a: seq<T>, b: seq<T>, n: nat)
    requires |a| >= n
    ensures Take(a + b, n) == Take(a, n)
  {
    assert (a + b)[..n] == a[..n];
  }

  /** Concatenation is associative. */
  lemma Associate<T>(a: seq<T>, b: seq<T>, c: seq<T>)
    ensures (a + b) + c == a + (b + c)
  {
  }

  /** Regrouping a four-part concatenation. */
  lemma Regroup<T>(a: seq<T>, b: seq<T>, c: seq<T>, d: seq<T>)
    ensures (a + (b + c)) + d == (a + b) + (c + d)
  {
  }

  /** The end index `s.slice(0, end)` uses: a negative end counts back from the length. */
  function SliceEnd(len: nat, end: int): (e: nat)
    ensures e <= len
    ensures end >= 0 ==> e == if end < len then end else len
  {
    if end < 0 then (if len + end < 0 then 0 else len + end)
    else if end < len then end else len
  }

  /** `s.slice(0, end)` with JavaScript's treatment of a negative end. */
  function SliceTo<T>(s: seq<T>, end: int): (r: seq<T>)
    ensures r <= s
    ensures |r| == SliceEnd(|s|, end)
  {
    s[..SliceEnd(|s|, end)]
  }

  /** `s.find(p)`: the first element satisfying `p`, if any. */
  function Find<T>(s: seq<T>, p: T -> bool): (r: Option<T>)
    ensures r.Some? ==> r.value in s && p(r.value)
    ensures r.None? ==> forall i :: 0 <= i < |s| ==> !p(s[i])
  {
    if s == [] then None
    else if p(s[0]) then Some(s[0])
    else Find(s[1..], p)
  }

  /** `Find` returns the element at the first index that satisfies `p`. */
  lemma {:induction false} FindFirst<T>(s: seq<T>, p: T -> bool, k: nat)
    requires k < |s| && p(s[k])
    requires forall i :: 0 <= i < k ==> !p(s[i])
    ensures Find(s, p) == Some(s[k])
  {
    if k > 0 {
      FindFirst(s[1..], p, k - 1);
    }
  }

  // ---- counts by key: `s.filter(x => key(x) === k).length` for several keys k ----

  /** Number of elements whose key is `k`. */
  function KeyCount<T>(s: seq<T>, key: T -> Option<string>, k: string): (n: nat)
    ensures n <= |s|
  {
    if s == [] then 0 else KeyCount(s[..|s| - 1], key, k) + (if key(s[|s| - 1]) == Some(k) then 1 else 0)
  }

  /** The counts for all of `ks`, added up. */
  function KeyCounts<T>(s: seq<T>, key: T -> Option<string>, ks: seq<string>): nat {
    if ks == [] then 0 else KeyCounts(s, key, ks[..|ks| - 1]) + KeyCount(s, key, ks[|ks| - 1])
  }

  /** How many of `ks` the optional key `v` equals. */
  function Hits(ks: seq<string>, v: Option<string>): nat {
    if ks == [] then 0 else Hits(ks[..|ks| - 1], v) + (if v == Some(ks[|ks| - 1]) then 1 else 0)
  }

  predicate NoDuplicates(ks: seq<string>) {
    forall i, j :: 0 <= i < j < |ks| ==> ks[i] != ks[j]
  }

  lemma {:induction false} KeyCountsSnoc<T>(s: seq<T>, x: T, key: T -> Option<string>, ks: seq<string>)
    ensures KeyCounts(s + [x], key, ks) == KeyCounts(s, key, ks) + Hits(ks, key(x))
  {
    assert (s + [x])[..|s|] == s;
    if ks != [] {
      KeyCountsSnoc(s, x, key, ks[..|ks| - 1]);
    }
  }

  lemma {:induction false} HitsAtMostOne(ks: seq<string>, v: Option<string>)
    requires NoDuplicates(ks)
    ensures Hits(ks, v) <= 1
  {
    if ks != [] {
      var init := ks[..|ks| - 1];
      HitsAtMostOne(init, v);
      if v == Some(ks[|ks| - 1]) {
        HitsNone(init, v);
      }
    }
  }

  lemma {:induction false} HitsNone(ks: seq<string>, v: Option<string>)
    requires forall i :: 0 <= i < |ks| ==> v != Some(ks[i])
    ensures Hits(ks, v) == 0
  {
    if ks != [] {
      HitsNone(ks[..|ks| - 1], v);
    }
  }

  /** With distinct keys, no element is counted twice, so the counts add up to at
      most the number of elements. */
  lemma {:induction false} KeyCountsBound<T>(s: seq<T>, key: T -> Option<string>, ks: seq<string>)
    requires NoDuplicates(ks)
    ensures KeyCounts(s, key, ks) <= |s|
  {
    if s == [] {
      KeyCountsEmpty(key, ks);
    } else {
      var init := s[..|s| - 1];
      KeyCountsBound(init, key, ks);
      SplitLast(s);
      KeyCountsSnoc(init, s[|s| - 1], key, ks);
      HitsAtMostOne(ks, key(s[|s| - 1]));
    }
  }

  lemma {:induction false} KeyCountsEmpty<T>(key: T -> Option<string>, ks: seq<string>)
    ensures KeyCounts([], key, ks) == 0
  {
    if ks != [] {
      KeyCountsEmpty(key, ks[..|ks| - 1]);
    }
  }

  // ---------------------------------------------------------------------------
  // Counting dictionaries: `counts[key] = (counts[key] || 0) + 1` over a list.
  // A JavaScript object keeps its (non-numeric) keys in insertion order, so the
  // dictionary is a sequence of buckets in order of first occurrence.
  // ---------------------------------------------------------------------------

  datatype Bucket = Bucket(key: string, count: nat)

  /** Number of times `k` occurs in `s`. */
  function Occurrences(s: seq<string>, k: string): nat {
    if s == [] then 0
    else Occurrences(s[..|s| - 1], k) + (if s[|s| - 1] == k then 1 else 0)
  }

  /** The distinct elements of `s` in order of first occurrence. */
  function Distinct(s: seq<string>): seq<string> {
    if s == [] then []
    else
      var init := s[..|s| - 1];
      Distinct(init) + (if s[|s| - 1] in init then [] else [s[|s| - 1]])
  }

  lemma {:induction false} DistinctMembers(s: seq<string>)
    ensures forall k :: k in Distinct(s) <==> k in s
  {
    if s != [] {
      var init := s[..|s| - 1];
      DistinctMembers(init);
      SplitLast(s);
    }
  }

  lemma {:induction false} DistinctUnique(s: seq<string>)
    ensures forall i, j :: 0 <= i < j < |Distinct(s)| ==> Distinct(s)[i] != Distinct(s)[j]
  {
    if s != [] {
      var init := s[..|s| - 1];
      DistinctUnique(init);
      DistinctMembers(init);
    }
  }

  lemma {:induction false} OccursPositive(s: seq<string>, k: string)
    requires k in s
    ensures Occurrences(s, k) > 0
  {
    if s[|s| - 1] != k {
      assert k in s[..|s| - 1];
      OccursPositive(s[..|s| - 1], k);
    }
  }

  lemma {:induction false} OccursAbsent(s: seq<string>, k: string)
    requires k !in s
    ensures Occurrences(s, k) == 0
  {
    if s != [] {
      OccursAbsent(s[..|s| - 1], k);
    }
  }

  /** A key never occurs more often than the list is long. */
  lemma {:induction false} OccurrencesBound(s: seq<string>, k: string)
    ensures Occurrences(s, k) <= |s|
  {
    if s != [] {
      OccurrencesBound(s[..|s| - 1], k);
    }
  }

  function Keys(b: seq<Bucket>): (ks: seq<string>)
    ensures |ks| == |b|
    ensures forall i :: 0 <= i < |b| ==> ks[i] == b[i].key
  {
    seq(|b|, i requires 0 <= i < |b| => b[i].key)
  }

  function Total(b: seq<Bucket>): nat {
    if b == [] then 0 else Total(b[..|b| - 1]) + b[|b| - 1].count
  }

  lemma {:induction false} TotalUpdate(b: seq<Bucket>, j: nat, c: nat)
    requires j < |b|
    ensures Total(b[j := Bucket(b[j].key, c)]) == Total(b) - b[j].count + c
  {
    var b' := b[j := Bucket(b[j].key, c)];
    if j < |b| - 1 {
      assert b'[..|b'| - 1] == b[..|b| - 1][j := Bucket(b[j].key, c)];
      TotalUpdate(b[..|b| - 1], j, c);
    } else {
      assert b'[..|b'| - 1] == b[..|b| - 1];
    }
  }

  /** Index of the bucket for `key`, or |b| when there is none (`key in counts`). */
  function IndexOfKey(b: seq<Bucket>, key: string): (j: nat)
    ensures j <= |b|
    ensures j < |b| ==> b[j].key == key
    ensures j == |b| ==> key !in Keys(b)
  {
    if b == [] then 0
    else if b[|b| - 1].key == key then |b| - 1
    else if IndexOfKey(b[..|b| - 1], key) < |b| - 1 then IndexOfKey(b[..|b| - 1], key)
    else (assert Keys(b) == Keys(b[..|b| - 1]) + [b[|b| - 1].key]; |b|)
  }

  /** The buckets are the counting dictionary of `keys`: one bucket per distinct key in
      order of first occurrence, each holding the number of occurrences, all counts
      summing to the number of keys. */
  predicate Tallied(keys: seq<string>, buckets: seq<Bucket>) {
    && Keys(buckets) == Distinct(keys)
    && (forall i :: 0 <= i < |buckets| ==> buckets[i].count == Occurrences(keys, buckets[i].key))
    && Total(buckets) == |keys|
  }

  /** Counting a key that already has a bucket increments that bucket. */
  lemma {:induction false} TallyBump(keys: seq<string>, buckets: seq<Bucket>, j: nat, k: string)
    requires Tallied(keys, buckets) && j < |buckets| && buckets[j].key == k
    ensures Tallied(keys + [k], buckets[j := Bucket(k, buckets[j].count + 1)])
  {
    var keys' := keys + [k];
    var buckets' := buckets[j := Bucket(k, buckets[j].count + 1)];
    assert keys'[..|keys'| - 1] == keys;
    DistinctMembers(keys);
    assert Keys(buckets)[j] == k;
    assert k in keys;
    assert Distinct(keys') == Distinct(keys);
    assert Keys(buckets') == Keys(buckets);
    DistinctUnique(keys);
    forall i | 0 <= i < |buckets'|
      ensures buckets'[i].count == Occurrences(keys', buckets'[i].key)
    {
      if i != j {
        assert Keys(buckets)[i] != Keys(buckets)[j];
      }
    }
    TotalUpdate(buckets, j, buckets[j].count + 1);
  }

  /** Counting a key without a bucket appends a bucket holding 1. */
  lemma {:induction false} TallyAdd(keys: seq<string>, buckets: seq<Bucket>, k: string)
    requires Tallied(keys, buckets) && k !in Keys(buckets)
    ensures Tallied(keys + [k], buckets + [Bucket(k, 1)])
  {
    var keys' := keys + [k];
    var buckets' := buckets + [Bucket(k, 1)];
    assert keys'[..|keys'| - 1] == keys;
    assert buckets'[..|buckets'| - 1] == buckets;
    DistinctMembers(keys);
    assert k !in keys;
    OccursAbsent(keys, k);
    assert Keys(buckets') == Keys(buckets) + [k];
    forall i | 0 <= i < |buckets'|
      ensures buckets'[i].count == Occurrences(keys', buckets'[i].key)
    {
      if i < |buckets| {
        assert Keys(buckets)[i] == buckets[i].key;
      }
    }
  }

  /** Every bucket of a counting dictionary counts at least one key. */
  lemma {:induction false} TalliedPositive(keys: seq<string>, buckets: seq<Bucket>)
    requires Tallied(keys, buckets)
    ensures forall i :: 0 <= i < |buckets| ==> buckets[i].count > 0
  {
    DistinctMembers(keys);
    forall i | 0 <= i < |buckets| ensures buckets[i].count > 0 {
      assert Keys(buckets)[i] == buckets[i].key;
      OccursPositive(keys, buckets[i].key);
    }
  }

  /** Fills a counting dictionary, one `counts[k] = (counts[k] || 0) + 1` per element. */
  method Tally(keys: seq<string>) returns (buckets: seq<Bucket>)
    ensures Keys(buckets) == Distinct(keys)
    ensures forall i :: 0 <= i < |buckets| ==> buckets[i].count == Occurrences(keys, buckets[i].key)
    ensures forall i :: 0 <= i < |buckets| ==> buckets[i].count > 0
    ensures Total(buckets) == |keys|
  {
    buckets := [];
    var n := 0;
    while n < |keys|
      invariant n <= |keys|
      invariant Tallied(keys[..n], buckets)
    {
      var k := keys[n];
      assert keys[..n + 1] == keys[..n] + [k];
      var j := IndexOfKey(buckets, k);
      if j < |buckets| {
        TallyBump(keys[..n], buckets, j, k);
        buckets := buckets[j := Bucket(k, buckets[j].count + 1)];
      } else {
        TallyAdd(keys[..n], buckets, k);
        buckets := buckets + [Bucket(k, 1)];
      }
      n := n + 1;
    }
    assert keys[..n] == keys;
    TalliedPositive(keys, buckets);
  }
}
