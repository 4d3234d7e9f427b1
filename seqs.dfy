/** Sequence helpers shared by the modules: Python's list idioms
    (`itertools.chain`, comprehension filters, slicing into pages, `sorted`
    with `reverse=True`, `set` de-duplication) and the random choices of
    `random.sample` / `np.random.choice(..., replace=False)`.

    Randomness is an oracle: a sequence of natural numbers `rng` supplies the
    draws, and draw `d` picks index `d % remaining` among the elements not yet
    picked. Every ordered choice of distinct positions is reachable with some
    oracle, so a property proved for every `rng` holds for every outcome of the
    random call. */
module Seqs {
  import Common

  function Min(a: int, b: int): int {
    if a <= b then a else b
  }

  function Max(a: int, b: int): int {
    if a <= b then b else a
  }

  // ---------------------------------------------------------------------
  // Concatenation (`list(itertools.chain(*ss))`)

  function Flatten<T>(ss: seq<seq<T>>): seq<T> {
    if |ss| == 0 then [] else ss[0] + Flatten(ss[1..])
  }

  function SumLengths<T>(ss: seq<seq<T>>): nat {
    if |ss| == 0 then 0 else |ss[0]| + SumLengths(ss[1..])
  }

  lemma {:induction false} FlattenAppend<T>(a: seq<seq<T>>, b: seq<seq<T>>)
    ensures Flatten(a + b) == Flatten(a) + Flatten(b)
  {
    if |a| == 0 {
      assert a + b == b;
    } else {
      assert (a + b)[1..] == a[1..] + b;
      FlattenAppend(a[1..], b);
    }
  }

  lemma FlattenSnoc<T>(ss: seq<seq<T>>, x: seq<T>)
    ensures Flatten(ss + [x]) == Flatten(ss) + x
  {
    FlattenAppend(ss, [x]);
    assert [x][1..] == [];
  }

  lemma {:induction false} FlattenLength<T>(ss: seq<seq<T>>)
    ensures |Flatten(ss)| == SumLengths(ss)
  {
    if |ss| > 0 {
      FlattenLength(ss[1..]);
    }
  }

  /** Concatenating one more part extends the concatenation by that part. */
  lemma FlattenPrefixSnoc<T>(ss: seq<seq<T>>, i: nat)
    requires i < |ss|
    ensures Flatten(ss[..i + 1]) == Flatten(ss[..i]) + ss[i]
  {
    assert ss[..i + 1] == ss[..i] + [ss[i]];
    FlattenSnoc(ss[..i], ss[i]);
  }

  /** The first part leads the concatenation. */
  lemma FlattenStartsWith<T>(ss: seq<seq<T>>)
    requires |ss| > 0
    ensures |ss[0]| <= |Flatten(ss)| && Flatten(ss)[..|ss[0]|] == ss[0]
  {
  }

  /** Every element of a concatenation comes from one of the parts. */
  lemma {:induction false} FlattenMember<T>(ss: seq<seq<T>>, x: T)
    requires x in Flatten(ss)
    ensures exists k :: 0 <= k < |ss| && x in ss[k]
  {
    if x !in ss[0] {
      FlattenMember(ss[1..], x);
      var k :| 0 <= k < |ss[1..]| && x in ss[1..][k];
      assert ss[1..][k] == ss[k + 1];
    }
  }

  /** Parts of at most `b` elements concatenate to at most `b` per part. */
  lemma {:induction false} FlattenBound<T>(ss: seq<seq<T>>, b: nat)
    requires forall k :: 0 <= k < |ss| ==> |ss[k]| <= b
    ensures |Flatten(ss)| <= b * |ss|
  {
    if |ss| > 0 {
      FlattenBound(ss[1..], b);
    }
  }

  // ---------------------------------------------------------------------
  // Filtering (`[x for x in s if p(x)]`)

  function Filter<T>(s: seq<T>, p: T -> bool): seq<T> {
    if |s| == 0 then []
    else if p(s[0]) then [s[0]] + Filter(s[1..], p)
    else Filter(s[1..], p)
  }

  lemma {:induction false} FilterAppend<T>(a: seq<T>, b: seq<T>, p: T -> bool)
    ensures Filter(a + b, p) == Filter(a, p) + Filter(b, p)
  {
    if |a| == 0 {
      assert a + b == b;
    } else {
      assert (a + b)[1..] == a[1..] + b;
      FilterAppend(a[1..], b, p);
    }
  }

  lemma {:induction false} FilterSubset<T>(s: seq<T>, p: T -> bool)
    ensures |Filter(s, p)| <= |s|
    ensures forall x :: x in Filter(s, p) <==> x in s && p(x)
  {
    if |s| > 0 {
      FilterSubset(s[1..], p);
    }
  }

  lemma {:induction false} FilterAll<T>(s: seq<T>, p: T -> bool)
    requires forall i :: 0 <= i < |s| ==> p(s[i])
    ensures Filter(s, p) == s
  {
    if |s| > 0 {
      FilterAll(s[1..], p);
    }
  }

  lemma {:induction false} FilterNone<T>(s: seq<T>, p: T -> bool)
    requires forall i :: 0 <= i < |s| ==> !p(s[i])
    ensures Filter(s, p) == []
  {
    if |s| > 0 {
      FilterNone(s[1..], p);
    }
  }

  // ---------------------------------------------------------------------
  // Mapping (`[f(x) for x in s]`)

  function Map<T, U>(s: seq<T>, f: T -> U): (r: seq<U>)
    ensures |r| == |s|
    ensures forall i :: 0 <= i < |s| ==> r[i] == f(s[i])
  {
    seq(|s|, i requires 0 <= i < |s| => f(s[i]))
  }

  lemma MapAppend<T, U>(a: seq<T>, b: seq<T>, f: T -> U)
    ensures Map(a + b, f) == Map(a, f) + Map(b, f)
  {
  }

  lemma {:induction false} MapMultiset<T, U>(a: seq<T>, b: seq<T>, f: T -> U)
    requires multiset(a) == multiset(b)
    ensures multiset(Map(a, f)) == multiset(Map(b, f))
    decreases |a|
  {
    if |a| > 0 {
      var j := FirstWanted(b, a);
      var rest := RemoveAt(b, j);
      MapMultiset(a[1..], rest, f);
      MapRemoveAt(b, j, f);
      HeadTail(a);
      MapAppend([a[0]], a[1..], f);
      var m := Map([a[0]], f);
      assert m == [f(a[0])] by { assert |m| == 1 && m[0] == f(a[0]); }
      calc {
        multiset(Map(a, f));
        multiset(m + Map(a[1..], f));
        multiset{f(a[0])} + multiset(Map(a[1..], f));
        multiset{f(b[j])} + multiset(Map(rest, f));
        multiset(Map(b, f));
      }
    }
  }

  /** Mapping, then counting, sees the removed element once. */
  lemma MapRemoveAt<T, U>(b: seq<T>, j: nat, f: T -> U)
    requires j < |b|
    ensures multiset(Map(b, f)) == multiset(Map(RemoveAt(b, j), f)) + multiset{f(b[j])}
  {
    assert b == b[..j] + [b[j]] + b[j + 1..];
    MapAppend(b[..j] + [b[j]], b[j + 1..], f);
    MapAppend(b[..j], [b[j]], f);
    MapAppend(b[..j], b[j + 1..], f);
  }

  // ---------------------------------------------------------------------
  // Sums

  function Sum(xs: seq<int>): int {
    if |xs| == 0 then 0 else xs[0] + Sum(xs[1..])
  }

  lemma {:induction false} SumAppend(a: seq<int>, b: seq<int>)
    ensures Sum(a + b) == Sum(a) + Sum(b)
  {
    if |a| == 0 {
      assert a + b == b;
    } else {
      assert (a + b)[1..] == a[1..] + b;
      SumAppend(a[1..], b);
    }
  }

  // ---------------------------------------------------------------------
  // Distinctness and de-duplication

  predicate Distinct<T(==)>(s: seq<T>) {
    forall i, j :: 0 <= i < j < |s| ==> s[i] != s[j]
  }

  /** In a sequence without repeats every member occurs exactly once. */
  lemma {:induction false} DistinctCount<T>(s: seq<T>, x: T)
    requires Distinct(s)
    ensures multiset(s)[x] == if x in s then 1 else 0
    decreases |s|
  {
    if |s| > 0 {
      assert s == [s[0]] + s[1..];
      assert Distinct(s[1..]) by {
        forall i, j | 0 <= i < j < |s[1..]| ensures s[1..][i] != s[1..][j] {
          assert s[1..][i] == s[i + 1] && s[1..][j] == s[j + 1];
        }
      }
      DistinctCount(s[1..], x);
      assert s[0] !in s[1..] by {
        forall i | 0 <= i < |s[1..]| ensures s[1..][i] != s[0] {
          assert s[1..][i] == s[i + 1];
        }
      }
    }
  }

  /** The distinct elements of `s`, each at its first occurrence. */
  function Dedup<T(==, !new)>(s: seq<T>): (r: seq<T>)
    ensures Distinct(r)
    ensures forall x :: x in r <==> x in s
    ensures |r| <= |s|
  {
    if |s| == 0 then []
    else
      var d := Dedup(s[..|s| - 1]);
      var x := s[|s| - 1];
      assert s == s[..|s| - 1] + [x];
      if x in d then d else d + [x]
  }

  /** The position of the first element satisfying `p`, if any. */
  function FirstWhere<T>(s: seq<T>, p: T -> bool): (r: Common.Option<nat>)
    ensures r.None? <==> forall i :: 0 <= i < |s| ==> !p(s[i])
    ensures r.Some? ==> r.value < |s| && p(s[r.value]) && forall j :: 0 <= j < r.value ==> !p(s[j])
  {
    if |s| == 0 then Common.None
    else if p(s[0]) then Common.Some(0)
    else
      var r := FirstWhere(s[1..], p);
      assert forall i :: 1 <= i < |s| ==> s[1..][i - 1] == s[i];
      if r.None? then Common.None else Common.Some(r.value + 1)
  }

  // ---------------------------------------------------------------------
  // Random choice without replacement

  function RemoveAt<T>(s: seq<T>, j: nat): seq<T>
    requires j < |s|
  {
    s[..j] + s[j + 1..]
  }

  lemma RemoveAtMultiset<T>(s: seq<T>, j: nat)
    requires j < |s|
    ensures multiset(RemoveAt(s, j)) == multiset(s) - multiset{s[j]}
  {
    assert s == s[..j] + [s[j]] + s[j + 1..];
  }

  function Draw(rng: seq<nat>): nat {
    if |rng| == 0 then 0 else rng[0]
  }

  function Rest(rng: seq<nat>): seq<nat> {
    if |rng| == 0 then [] else rng[1..]
  }

  /** `k` elements of `s` drawn without replacement (all of them when
      `k >= |s|`), in the order drawn. */
  function Sample<T>(s: seq<T>, k: nat, rng: seq<nat>): (r: seq<T>)
    ensures |r| == Min(k, |s|)
    ensures multiset(r) <= multiset(s)
    ensures k >= |s| ==> multiset(r) == multiset(s)
    decreases k
  {
    if k == 0 || |s| == 0 then []
    else
      var j := Draw(rng) % |s|;
      RemoveAtMultiset(s, j);
      [s[j]] + Sample(RemoveAt(s, j), k - 1, Rest(rng))
  }

  /** `random.sample(s, len(s))`: a random permutation of `s`. */
  function Shuffle<T>(s: seq<T>, rng: seq<nat>): (r: seq<T>)
    ensures |r| == |s|
    ensures multiset(r) == multiset(s)
  {
    Sample(s, |s|, rng)
  }

  /** Every reordering of `s` is drawn by some oracle: the one that picks,
      at each step, the position of the next wanted element. */
  lemma {:induction false} SampleReaches<T>(s: seq<T>, p: seq<T>) returns (rng: seq<nat>)
    requires multiset(p) == multiset(s)
    ensures Sample(s, |s|, rng) == p
    decreases |s|
  {
    if |s| == 0 {
      assert |p| == |multiset(p)|;
      rng := [];
    } else {
      var j := FirstWanted(s, p);
      var rest := RemoveAt(s, j);
      var tail := SampleReaches(rest, p[1..]);
      rng := [j] + tail;
      SampleStep(s, j, tail);
      calc {
        Sample(s, |s|, rng);
        [s[j]] + Sample(rest, |s| - 1, tail);
        { assert |rest| == |s| - 1; }
        [p[0]] + p[1..];
        { HeadTail(p); }
        p;
      }
    }
  }

  lemma HeadTail<T>(p: seq<T>)
    requires |p| > 0
    ensures [p[0]] + p[1..] == p
  {
  }

  /** Where the first wanted element sits in `s`, and what is left to draw. */
  lemma FirstWanted<T>(s: seq<T>, p: seq<T>) returns (j: nat)
    requires multiset(p) == multiset(s) && |s| > 0
    ensures j < |s| && |p| > 0 && s[j] == p[0]
    ensures multiset(p[1..]) == multiset(RemoveAt(s, j)) && |RemoveAt(s, j)| == |s| - 1
  {
    assert |p| == |multiset(p)|;
    assert p[0] in multiset(s);
    j :| 0 <= j < |s| && s[j] == p[0];
    RemoveAtMultiset(s, j);
    assert p == [p[0]] + p[1..];
  }

  /** One draw of the full sample at position `j`. */
  lemma SampleStep<T>(s: seq<T>, j: nat, tail: seq<nat>)
    requires j < |s|
    ensures Sample(s, |s|, [j] + tail) == [s[j]] + Sample(RemoveAt(s, j), |s| - 1, tail)
  {
    var rng := [j] + tail;
    SmallModulo(j, |s|);
    assert Draw(rng) % |s| == j;
    assert Rest(rng) == tail;
  }

  lemma SmallModulo(j: nat, n: nat)
    requires j < n
    ensures j % n == j
  {
  }

  /** A distinct sequence holds each value at most once. */
  lemma {:induction false} DistinctOnce<T>(s: seq<T>, x: T)
    requires Distinct(s)
    ensures multiset(s)[x] <= 1
  {
    if |s| > 0 {
      var tail := s[1..];
      assert Distinct(tail) by {
        forall a, b | 0 <= a < b < |tail| ensures tail[a] != tail[b] {
          assert tail[a] == s[a + 1] && tail[b] == s[b + 1];
        }
      }
      assert s[0] !in tail by {
        forall i | 0 <= i < |tail| ensures tail[i] != s[0] {
          assert tail[i] == s[i + 1];
        }
      }
      DistinctOnce(tail, x);
      assert s == [s[0]] + tail;
      assert multiset(s) == multiset{s[0]} + multiset(tail);
    }
  }

  /** Two equal positions put a value twice in the multiset. */
  lemma EqualPositions<T>(r: seq<T>, i: nat, j: nat)
    requires i < j < |r|
    ensures r[i] == r[j] ==> multiset(r)[r[i]] >= 2
  {
    assert r == r[..i] + [r[i]] + r[i + 1..j] + [r[j]] + r[j + 1..];
  }

  /** Whatever takes its elements from a distinct sequence, each at most as
      often as it occurs there, is distinct. */
  lemma SubMultisetDistinct<T>(r: seq<T>, s: seq<T>)
    requires Distinct(s) && multiset(r) <= multiset(s)
    ensures Distinct(r)
  {
    forall i, j | 0 <= i < j < |r| ensures r[i] != r[j] {
      EqualPositions(r, i, j);
      DistinctOnce(s, r[i]);
    }
  }

  /** Drawing without replacement from distinct elements draws each at
      most once. */
  lemma SampleDistinct<T>(s: seq<T>, k: nat, rng: seq<nat>)
    requires Distinct(s)
    ensures Distinct(Sample(s, k, rng))
  {
    SubMultisetDistinct(Sample(s, k, rng), s);
  }

  // ---------------------------------------------------------------------
  // Pages (`[s[i : i + size] for i in range(0, len(s), size)]`)

  function Pages<T>(s: seq<T>, size: nat): (r: seq<seq<T>>)
    requires size > 0
    ensures Flatten(r) == s
    ensures forall i :: 0 <= i < |r| ==> 0 < |r[i]| <= size
    ensures forall i :: 0 <= i < |r| - 1 ==> |r[i]| == size
    ensures |r| == 0 <==> |s| == 0
    decreases |s|
  {
    if |s| == 0 then []
    else if |s| <= size then [s]
    else
      var rest := Pages(s[size..], size);
      assert Flatten([s[..size]] + rest) == s[..size] + Flatten(rest);
      assert s[..size] + s[size..] == s;
      [s[..size]] + rest
  }

  // ---------------------------------------------------------------------
  // Stable sort, highest key first (`sorted(s, key=key, reverse=True)`)

  predicate SortedDesc<T>(s: seq<T>, key: T -> int) {
    forall i, j :: 0 <= i < j < |s| ==> key(s[i]) >= key(s[j])
  }

  /** Inserts `x` before the first element whose key is not greater than its own. */
  function InsertDesc<T>(x: T, s: seq<T>, key: T -> int): seq<T> {
    if |s| == 0 || key(s[0]) <= key(x) then [x] + s
    else [s[0]] + InsertDesc(x, s[1..], key)
  }

  function SortDesc<T>(s: seq<T>, key: T -> int): seq<T> {
    if |s| == 0 then [] else InsertDesc(s[0], SortDesc(s[1..], key), key)
  }

  /** The elements of `s` whose key is `k`, in order. */
  function WithKey<T>(s: seq<T>, key: T -> int, k: int): seq<T> {
    if |s| == 0 then []
    else if key(s[0]) == k then [s[0]] + WithKey(s[1..], key, k)
    else WithKey(s[1..], key, k)
  }

  lemma {:induction false} InsertDescCount<T>(x: T, s: seq<T>, key: T -> int)
    ensures multiset(InsertDesc(x, s, key)) == multiset(s) + multiset{x}
    ensures |InsertDesc(x, s, key)| == |s| + 1
  {
    if |s| > 0 && key(s[0]) > key(x) {
      InsertDescCount(x, s[1..], key);
      assert s == [s[0]] + s[1..];
      assert InsertDesc(x, s, key) == [s[0]] + InsertDesc(x, s[1..], key);
    }
  }

  /** A head whose key is at least every later key keeps the order. */
  lemma ConsSorted<T>(y: T, t: seq<T>, key: T -> int)
    requires SortedDesc(t, key)
    requires forall z :: z in t ==> key(z) <= key(y)
    ensures SortedDesc([y] + t, key)
  {
    var r := [y] + t;
    forall i, j | 0 <= i < j < |r| ensures key(r[i]) >= key(r[j]) {
      assert r[j] == t[j - 1];
      if i > 0 {
        assert r[i] == t[i - 1];
      }
    }
  }

  lemma {:induction false} InsertDescSorted<T>(x: T, s: seq<T>, key: T -> int)
    requires SortedDesc(s, key)
    ensures SortedDesc(InsertDesc(x, s, key), key)
  {
    if |s| == 0 || key(s[0]) <= key(x) {
      forall z | z in s ensures key(z) <= key(x) {
        var m :| 0 <= m < |s| && s[m] == z;
      }
      ConsSorted(x, s, key);
    } else {
      SortedDescTail(s, key);
      InsertDescSorted(x, s[1..], key);
      InsertDescCount(x, s[1..], key);
      var t := InsertDesc(x, s[1..], key);
      forall z | z in t ensures key(z) <= key(s[0]) {
        assert z in multiset(t);
        if z != x {
          assert z in multiset(s[1..]);
          var m :| 0 <= m < |s[1..]| && s[1..][m] == z;
          assert s[m + 1] == z;
        }
      }
      ConsSorted(s[0], t, key);
    }
  }

  lemma InsertDescProps<T>(x: T, s: seq<T>, key: T -> int)
    ensures multiset(InsertDesc(x, s, key)) == multiset(s) + multiset{x}
    ensures |InsertDesc(x, s, key)| == |s| + 1
    ensures SortedDesc(s, key) ==> SortedDesc(InsertDesc(x, s, key), key)
  {
    InsertDescCount(x, s, key);
    if SortedDesc(s, key) {
      InsertDescSorted(x, s, key);
    }
  }

  lemma {:induction false} SortDescProps<T>(s: seq<T>, key: T -> int)
    ensures multiset(SortDesc(s, key)) == multiset(s)
    ensures |SortDesc(s, key)| == |s|
    ensures SortedDesc(SortDesc(s, key), key)
  {
    if |s| > 0 {
      SortDescProps(s[1..], key);
      InsertDescProps(s[0], SortDesc(s[1..], key), key);
      assert s == [s[0]] + s[1..];
    }
  }

  lemma SortedDescTail<T>(s: seq<T>, key: T -> int)
    requires |s| > 0 && SortedDesc(s, key)
    ensures SortedDesc(s[1..], key)
  {
    var tail := s[1..];
    forall i, j | 0 <= i < j < |tail| ensures key(tail[i]) >= key(tail[j]) {
      assert tail[i] == s[i + 1] && tail[j] == s[j + 1];
    }
  }

  lemma WithKeyCons<T>(y: T, s: seq<T>, key: T -> int, k: int)
    ensures WithKey([y] + s, key, k) == (if key(y) == k then [y] else []) + WithKey(s, key, k)
  {
    assert ([y] + s)[0] == y && ([y] + s)[1..] == s;
  }

  lemma {:induction false} InsertDescWithKey<T>(x: T, s: seq<T>, key: T -> int, k: int)
    requires SortedDesc(s, key)
    ensures WithKey(InsertDesc(x, s, key), key, k)
         == (if key(x) == k then [x] else []) + WithKey(s, key, k)
  {
    if |s| == 0 || key(s[0]) <= key(x) {
      WithKeyCons(x, s, key, k);
    } else {
      var tail := s[1..];
      SortedDescTail(s, key);
      var ins := InsertDesc(x, tail, key);
      InsertDescWithKey(x, tail, key, k);
      assert InsertDesc(x, s, key) == [s[0]] + ins;
      WithKeyCons(s[0], ins, key, k);
      assert [s[0]] + tail == s;
      WithKeyCons(s[0], tail, key, k);
      if key(x) == k {
        assert key(s[0]) != k;
        assert WithKey(s, key, k) == WithKey(tail, key, k);
      } else {
        assert WithKey(ins, key, k) == WithKey(tail, key, k);
      }
    }
  }

  /** Stability: among elements with equal keys, the input order is kept. */
  lemma {:induction false} SortDescStable<T>(s: seq<T>, key: T -> int, k: int)
    ensures WithKey(SortDesc(s, key), key, k) == WithKey(s, key, k)
  {
    if |s| > 0 {
      SortDescProps(s[1..], key);
      SortDescStable(s[1..], key, k);
      InsertDescWithKey(s[0], SortDesc(s[1..], key), key, k);
    }
  }

  /** Sorting an already sorted sequence changes nothing. */
  lemma {:induction false} SortDescOfSorted<T>(s: seq<T>, key: T -> int)
    requires SortedDesc(s, key)
    ensures SortDesc(s, key) == s
  {
    if |s| > 0 {
      assert SortedDesc(s[1..], key) by {
        forall i, j | 0 <= i < j < |s[1..]| ensures key(s[1..][i]) >= key(s[1..][j]) {
          assert s[1..][i] == s[i + 1] && s[1..][j] == s[j + 1];
        }
      }
      SortDescOfSorted(s[1..], key);
      assert s == [s[0]] + s[1..];
    }
  }

  /** The first `k` elements of a sorted sequence are its top `k`: every
      element left out has a key no greater than the last one kept. */
  lemma TopK<T>(s: seq<T>, key: T -> int, k: nat)
    requires SortedDesc(s, key) && 0 < k <= |s|
    ensures forall x :: x in multiset(s) - multiset(s[..k]) ==> key(x) <= key(s[k - 1])
  {
    assert s == s[..k] + s[k..];
    assert multiset(s) - multiset(s[..k]) == multiset(s[k..]);
    forall x | x in multiset(s[k..]) ensures key(x) <= key(s[k - 1]) {
      var j :| 0 <= j < |s[k..]| && s[k..][j] == x;
      assert s[k + j] == x;
    }
  }

  lemma ElementsSnoc<T(!new)>(s: seq<T>, x: T)
    ensures (set y | y in s + [x]) == (set y | y in s) + {x}
  {
  }

  /** `len(set(s))`: the number of distinct elements is the length of the
      de-duplicated sequence. */
  lemma {:induction false} DedupCard<T(!new)>(s: seq<T>)
    ensures |Dedup(s)| == |set x | x in s|
  {
    if |s| > 0 {
      var init := s[..|s| - 1];
      var x := s[|s| - 1];
      DedupCard(init);
      var before := set y | y in init;
      assert s == init + [x];
      ElementsSnoc(init, x);
      if x in init {
        assert Dedup(s) == Dedup(init);
        assert before + {x} == before;
      } else {
        assert Dedup(s) == Dedup(init) + [x];
        assert |before + {x}| == |before| + 1;
      }
    }
  }
}
