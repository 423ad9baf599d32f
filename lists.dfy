/**
 * Sequence utilities shared by the analysers: pairwise distinctness, `filter`,
 * `slice(0, n)`, first-occurrence de-duplication (`[...new Set(xs)]` and
 * `xs.filter((x, i, self) => self.indexOf(x) === i)`), and the stable sort that
 * `Array.prototype.sort` performs with a comparator `(a, b) => key(a) - key(b)`.
 */
module Lists {

  predicate Distinct<T(==)>(s: seq<T>) {
    forall i, j :: 0 <= i < j < |s| ==> s[i] != s[j]
  }

  predicate Disjoint<T(==)>(a: seq<T>, b: seq<T>) {
    forall i, j :: 0 <= i < |a| && 0 <= j < |b| ==> a[i] != b[j]
  }

  lemma DistinctConcat<T>(a: seq<T>, b: seq<T>)
    requires Distinct(a) && Distinct(b) && Disjoint(a, b)
    ensures Distinct(a + b)
  {
    forall i, j | 0 <= i < j < |a + b| ensures (a + b)[i] != (a + b)[j] {
      if j < |a| {
      } else if i < |a| {
        assert (a + b)[j] == b[j - |a|];
      } else {
        assert (a + b)[i] == b[i - |a|] && (a + b)[j] == b[j - |a|];
      }
    }
  }

  lemma DisjointConcat<T>(a: seq<T>, b: seq<T>, c: seq<T>)
    requires Disjoint(a, c) && Disjoint(b, c)
    ensures Disjoint(a + b, c)
  {
    forall i, j | 0 <= i < |a + b| && 0 <= j < |c| ensures (a + b)[i] != c[j] {
      if i >= |a| { assert (a + b)[i] == b[i - |a|]; }
    }
  }

  /** Appending `z` after `x` inside a longer sequence. */
  lemma AppendAfter<T>(h: seq<T>, x: seq<T>, y: seq<T>, z: seq<T>)
    requires y == x + z
    ensures h + y == (h + x) + z
  {
  }

  /** `s.slice(0, n)`. */
  function Take<T>(s: seq<T>, n: nat): (r: seq<T>)
    ensures |r| == if n < |s| then n else |s|
    ensures r == s[..|r|]
  {
    if n < |s| then s[..n] else s
  }

  lemma DistinctPrefix<T>(s: seq<T>, n: nat)
    requires Distinct(s) && n <= |s|
    ensures Distinct(s[..n])
  {
  }

  /** `s.filter(p)`. */
  function Filter<T(!new)>(s: seq<T>, p: T -> bool): (r: seq<T>)
    ensures |r| <= |s|
    ensures forall x :: x in r <==> x in s && p(x)
  {
    if s == [] then []
    else (if p(s[0]) then [s[0]] else []) + Filter(s[1..], p)
  }

  lemma {:induction false} FilterDistinct<T(!new)>(s: seq<T>, p: T -> bool)
    requires Distinct(s)
    ensures Distinct(Filter(s, p))
  {
    if s != [] {
      FilterDistinct(s[1..], p);
      var rest := Filter(s[1..], p);
      if p(s[0]) {
        assert s[0] !in s[1..];
        assert forall j :: 0 <= j < |rest| ==> rest[j] in s[1..];
        DistinctConcat([s[0]], rest);
      }
    }
  }

  /** `s.filter(p)` keeps the order of a duplicate-free `s`. */
  lemma {:induction false} FilterOrder<T(!new)>(s: seq<T>, p: T -> bool)
    requires Distinct(s)
    ensures InFirstOccurrenceOrder(Filter(s, p), s)
  {
    if s != [] {
      FilterOrder(s[1..], p);
      var rest := Filter(s[1..], p);
      assert s[0] !in s[1..];
      forall x | x in s[1..] ensures IndexOf(s, x) == 1 + IndexOf(s[1..], x) { }
    }
  }

  // ---------------------------------------------------------------------------
  // First-occurrence de-duplication.

  /** The entries `s[j]`, `j >= i`, whose value does not occur before `j`. */
  function DedupFrom<T(==,!new)>(s: seq<T>, i: nat): (r: seq<T>)
    requires i <= |s|
    ensures Distinct(r)
    ensures forall x :: x in r <==> x in s[i..] && x !in s[..i]
    decreases |s| - i
  {
    if i == |s| then []
    else
      var rest := DedupFrom(s, i + 1);
      assert s[..i + 1] == s[..i] + [s[i]];
      assert s[i..] == [s[i]] + s[i + 1..];
      if s[i] in s[..i] then rest
      else
        assert s[i] !in rest by { assert s[i] in s[..i + 1]; }
        DistinctConcat([s[i]], rest);
        [s[i]] + rest
  }

  /** `[...new Set(s)]`: every value once, in the order of its first occurrence. */
  function Dedup<T(==,!new)>(s: seq<T>): (r: seq<T>)
    ensures Distinct(r)
    ensures |r| <= |s|
    ensures forall x :: x in r <==> x in s
  {
    DedupLength(s, 0);
    DedupFrom(s, 0)
  }

  lemma {:induction false} DedupLength<T(!new)>(s: seq<T>, i: nat)
    requires i <= |s|
    ensures |DedupFrom(s, i)| <= |s| - i
    decreases |s| - i
  {
    if i < |s| { DedupLength(s, i + 1); }
  }

  lemma {:induction false} DedupOfDistinct<T(!new)>(s: seq<T>, i: nat)
    requires i <= |s| && Distinct(s)
    ensures DedupFrom(s, i) == s[i..]
    decreases |s| - i
  {
    if i < |s| {
      DedupOfDistinct(s, i + 1);
      assert s[i..] == [s[i]] + s[i + 1..];
    }
  }

  /** `s.indexOf(x)`: the position of the first occurrence of `x`. */
  function IndexOf<T(==)>(s: seq<T>, x: T): (i: nat)
    requires x in s
    ensures i < |s| && s[i] == x
    ensures forall j :: 0 <= j < i ==> s[j] != x
  {
    if s[0] == x then 0 else 1 + IndexOf(s[1..], x)
  }

  /** `r` lists values of `s` in the order of their first occurrences in `s`. */
  predicate InFirstOccurrenceOrder<T(==)>(r: seq<T>, s: seq<T>) {
    (forall x :: x in r ==> x in s)
    && forall a, b :: 0 <= a < b < |r| && r[a] in s && r[b] in s ==> IndexOf(s, r[a]) < IndexOf(s, r[b])
  }

  lemma {:induction false} DedupFromOrder<T(!new)>(s: seq<T>, i: nat)
    requires i <= |s|
    ensures forall x :: x in DedupFrom(s, i) ==> i <= IndexOf(s, x)
    ensures InFirstOccurrenceOrder(DedupFrom(s, i), s)
    decreases |s| - i
  {
    var r := DedupFrom(s, i);
    forall x | x in r ensures i <= IndexOf(s, x) {
      assert x !in s[..i];
    }
    if i < |s| {
      DedupFromOrder(s, i + 1);
      if s[i] !in s[..i] {
        assert IndexOf(s, s[i]) == i;
      }
    }
  }

  /** `[...new Set(s)]` keeps the first element first, and the first occurrences in order. */
  lemma DedupOrder<T(!new)>(s: seq<T>)
    ensures InFirstOccurrenceOrder(Dedup(s), s)
    ensures |s| > 0 ==> |Dedup(s)| > 0 && Dedup(s)[0] == s[0]
  {
    DedupFromOrder(s, 0);
    if |s| > 0 {
      assert s[0] in Dedup(s);
      assert IndexOf(s, s[0]) == 0;
    }
  }

  /**
   * `[...new Set(s)].slice(0, n)` is the first `n` distinct values: every
   * value kept first occurs before every value of `s` left out.
   */
  lemma TakeDedupFirst<T(!new)>(s: seq<T>, n: nat)
    ensures InFirstOccurrenceOrder(Take(Dedup(s), n), s)
    ensures forall x, y :: x in Take(Dedup(s), n) && y in s && y !in Take(Dedup(s), n) ==> IndexOf(s, x) < IndexOf(s, y)
  {
    DedupOrder(s);
    var d := Dedup(s);
    var t := Take(d, n);
    forall x, y | x in t && y in s && y !in t ensures IndexOf(s, x) < IndexOf(s, y) {
      var i :| 0 <= i < |t| && t[i] == x;
      var j :| 0 <= j < |d| && d[j] == y;
      assert d[i] == x;
    }
    forall a, b | 0 <= a < b < |t| ensures IndexOf(s, t[a]) < IndexOf(s, t[b]) {
      assert t[a] == d[a] && t[b] == d[b];
    }
  }

  // ---------------------------------------------------------------------------
  // Counting distinct values.

  /** `s` without its first occurrence of `x`. */
  function RemoveFirst<T(==)>(s: seq<T>, x: T): (r: seq<T>)
    requires x in s
    ensures |r| == |s| - 1
    ensures forall y :: y in s && y != x ==> y in r
  {
    if s[0] == x then s[1..] else [s[0]] + RemoveFirst(s[1..], x)
  }

  /** A duplicate-free sequence whose values all occur in `b` is no longer than `b`. */
  lemma {:induction false} DistinctSubsetLength<T>(a: seq<T>, b: seq<T>)
    requires Distinct(a)
    requires forall x :: x in a ==> x in b
    ensures |a| <= |b|
  {
    if a != [] {
      var b' := RemoveFirst(b, a[0]);
      forall x | x in a[1..] ensures x in b' {
        var j :| 0 <= j < |a[1..]| && a[1..][j] == x;
        assert a[j + 1] == x;
      }
      DistinctSubsetLength(a[1..], b');
    }
  }

  /** Some value of a duplicate-free `a` is missing from a shorter `b`. */
  lemma PigeonHole<T>(a: seq<T>, b: seq<T>)
    requires Distinct(a) && |b| < |a|
    ensures exists x :: x in a && x !in b
  {
    if forall x :: x in a ==> x in b {
      DistinctSubsetLength(a, b);
    }
  }

  lemma {:induction false} DistinctMultiset<T>(s: seq<T>)
    ensures Distinct(s) <==> forall x :: multiset(s)[x] <= 1
  {
    if s != [] {
      DistinctMultiset(s[1..]);
      assert s == [s[0]] + s[1..];
      assert multiset(s) == multiset{s[0]} + multiset(s[1..]);
      if Distinct(s) {
        assert Distinct(s[1..]);
        assert s[0] !in s[1..];
      }
      if forall x :: multiset(s)[x] <= 1 {
        assert forall x :: multiset(s[1..])[x] <= multiset(s)[x];
        assert s[0] !in multiset(s[1..]);
        forall i, j | 0 <= i < j < |s| ensures s[i] != s[j] {
          if i == 0 { assert s[j] == s[1..][j - 1]; }
          else { assert s[i] == s[1..][i - 1] && s[j] == s[1..][j - 1]; }
        }
      }
    }
  }

  /** A permutation of a duplicate-free sequence is duplicate-free. */
  lemma DistinctPermutation<T>(s: seq<T>, r: seq<T>)
    requires Distinct(s) && multiset(r) == multiset(s)
    ensures Distinct(r)
  {
    DistinctMultiset(s);
    DistinctMultiset(r);
  }

  /** Values taken from a duplicate-free sequence, each at most once, are duplicate-free. */
  lemma SubMultisetDistinct<T>(a: seq<T>, b: seq<T>)
    requires multiset(a) <= multiset(b) && Distinct(b)
    ensures Distinct(a)
  {
    DistinctMultiset(b);
    DistinctMultiset(a);
  }

  /** `s.splice(i, 1)`: `s` without its element at `i`. */
  function RemoveAt<T>(s: seq<T>, i: nat): (r: seq<T>)
    requires i < |s|
    ensures |r| == |s| - 1
    ensures forall j :: 0 <= j < i ==> r[j] == s[j]
    ensures forall j :: i <= j < |r| ==> r[j] == s[j + 1]
    ensures multiset(r) + multiset{s[i]} == multiset(s)
  {
    assert s == s[..i] + [s[i]] + s[i + 1..];
    s[..i] + s[i + 1..]
  }

  // ---------------------------------------------------------------------------
  // Stable sort by an integer key.

  predicate SortedBy<T>(s: seq<T>, key: T -> int) {
    forall i, j :: 0 <= i < j < |s| ==> key(s[i]) <= key(s[j])
  }

  /** Inserts `x` before the first entry of `t` whose key is not smaller. */
  function InsertBy<T>(x: T, t: seq<T>, key: T -> int): (r: seq<T>)
    ensures multiset(r) == multiset{x} + multiset(t)
    ensures |r| == |t| + 1
  {
    if t == [] || key(x) <= key(t[0]) then [x] + t
    else
      assert t == [t[0]] + t[1..];
      [t[0]] + InsertBy(x, t[1..], key)
  }

  lemma {:induction false} InsertBySorted<T>(x: T, t: seq<T>, key: T -> int)
    requires SortedBy(t, key)
    ensures SortedBy(InsertBy(x, t, key), key)
  {
    if t != [] && key(x) > key(t[0]) {
      var tail := t[1..];
      var rest := InsertBy(x, tail, key);
      assert forall j :: 0 <= j < |tail| ==> tail[j] == t[j + 1];
      InsertBySorted(x, tail, key);
      InsertByBound(x, tail, key, key(t[0]));
      var r := [t[0]] + rest;
      assert InsertBy(x, t, key) == r;
      forall i, j | 0 <= i < j < |r| ensures key(r[i]) <= key(r[j]) {
        assert r[j] == rest[j - 1];
        assert key(t[0]) <= key(rest[j - 1]);
        if i > 0 {
          assert r[i] == rest[i - 1];
          assert key(rest[i - 1]) <= key(rest[j - 1]);
        }
      }
    }
  }

  /** A lower bound on every key of `x` and `t` bounds every key after the insertion. */
  lemma {:induction false} InsertByBound<T>(x: T, t: seq<T>, key: T -> int, lo: int)
    requires lo <= key(x) && forall j :: 0 <= j < |t| ==> lo <= key(t[j])
    ensures forall j :: 0 <= j < |InsertBy(x, t, key)| ==> lo <= key(InsertBy(x, t, key)[j])
  {
    if t != [] && key(x) > key(t[0]) {
      var tail := t[1..];
      assert forall j :: 0 <= j < |tail| ==> tail[j] == t[j + 1];
      InsertByBound(x, tail, key, lo);
      var rest := InsertBy(x, tail, key);
      var r := [t[0]] + rest;
      assert InsertBy(x, t, key) == r;
      forall j | 0 <= j < |r| ensures lo <= key(r[j]) {
        if j > 0 {
          assert r[j] == rest[j - 1];
          assert lo <= key(rest[j - 1]);
        }
      }
    } else {
      var r := [x] + t;
      assert InsertBy(x, t, key) == r;
      assert forall j :: 1 <= j < |r| ==> r[j] == t[j - 1];
    }
  }

  /** `s.slice().sort((a, b) => key(a) - key(b))`: insertion sort, stable. */
  function SortBy<T>(s: seq<T>, key: T -> int): (r: seq<T>)
    ensures multiset(r) == multiset(s)
    ensures |r| == |s|
    ensures SortedBy(r, key)
  {
    if s == [] then []
    else
      assert s == [s[0]] + s[1..];
      InsertBySorted(s[0], SortBy(s[1..], key), key);
      InsertBy(s[0], SortBy(s[1..], key), key)
  }

  /** The entries of `s` whose key is `k`, in order. */
  function WithKey<T>(s: seq<T>, key: T -> int, k: int): seq<T> {
    if s == [] then [] else (if key(s[0]) == k then [s[0]] else []) + WithKey(s[1..], key, k)
  }

  lemma {:induction false} WithKeyInsert<T>(x: T, t: seq<T>, key: T -> int, k: int)
    requires key(x) == k
    ensures WithKey(InsertBy(x, t, key), key, k) == [x] + WithKey(t, key, k)
  {
    if t != [] && key(x) > key(t[0]) {
      var rest := InsertBy(x, t[1..], key);
      WithKeyInsert(x, t[1..], key, k);
      assert ([t[0]] + rest)[1..] == rest;
      assert WithKey([t[0]] + rest, key, k) == WithKey(rest, key, k);
      assert WithKey(t, key, k) == WithKey(t[1..], key, k);
    } else {
      assert ([x] + t)[1..] == t;
    }
  }

  /**
   * Stability: for every key value, the entries carrying it appear in the
   * sorted output in the same relative order as in the input.
   */
  lemma {:induction false} SortByStable<T>(s: seq<T>, key: T -> int, k: int)
    ensures WithKey(SortBy(s, key), key, k) == WithKey(s, key, k)
  {
    if s != [] {
      SortByStable(s[1..], key, k);
      var t := SortBy(s[1..], key);
      if key(s[0]) == k {
        WithKeyInsert(s[0], t, key, k);
      } else {
        WithKeyInsertOther(s[0], t, key, k);
      }
    }
  }

  lemma {:induction false} WithKeyInsertOther<T>(x: T, t: seq<T>, key: T -> int, k: int)
    requires key(x) != k
    ensures WithKey(InsertBy(x, t, key), key, k) == WithKey(t, key, k)
  {
    if t != [] && key(x) > key(t[0]) {
      WithKeyInsertOther(x, t[1..], key, k);
      var rest := InsertBy(x, t[1..], key);
      assert ([t[0]] + rest)[1..] == rest;
    } else {
      assert ([x] + t)[1..] == t;
    }
  }
}

/** Integer helpers for `Math.min`, `Math.max` and the clamps built from them. */
module Numbers {

  function Min(a: int, b: int): (r: int)
    ensures r <= a && r <= b && (r == a || r == b)
  {
    if a <= b then a else b
  }

  function Max(a: int, b: int): (r: int)
    ensures r >= a && r >= b && (r == a || r == b)
  {
    if a >= b then a else b
  }

  /** `Math.max(lo, Math.min(hi, x))`. */
  function Clamp(x: int, lo: int, hi: int): (r: int)
    requires lo <= hi
    ensures lo <= r <= hi
    ensures lo <= x <= hi ==> r == x
    ensures x < lo ==> r == lo
    ensures x > hi ==> r == hi
  {
    Max(lo, Min(hi, x))
  }
}
