/** sorted(xs, key=key, reverse=True): stable, by descending key; and its prefixes. */
module Sorting {
  import opened Collections

  function Insert<T>(x: T, s: seq<T>, key: T -> int): seq<T> {
    if s == [] || key(x) >= key(s[0]) then [x] + s else [s[0]] + Insert(x, s[1..], key)
  }

  function Sort<T>(xs: seq<T>, key: T -> int): seq<T> {
    if xs == [] then [] else Insert(xs[0], Sort(xs[1..], key), key)
  }

  ghost predicate Descending<T>(s: seq<T>, key: T -> int) {
    forall i, j :: 0 <= i < j < |s| ==> key(s[i]) >= key(s[j])
  }

  /** The elements with key v, in order. */
  function WithKey<T>(s: seq<T>, key: T -> int, v: int): seq<T> {
    if s == [] then [] else (if key(s[0]) == v then [s[0]] else []) + WithKey(s[1..], key, v)
  }

  /** A permutation in which elements of equal key keep their order. */
  ghost predicate StablePermutation<T>(sorted: seq<T>, xs: seq<T>, key: T -> int) {
    multiset(sorted) == multiset(xs) && (forall v :: WithKey(sorted, key, v) == WithKey(xs, key, v))
  }

  lemma {:induction false} InsertElements<T>(x: T, s: seq<T>, key: T -> int)
    ensures multiset(Insert(x, s, key)) == multiset([x]) + multiset(s)
    ensures |Insert(x, s, key)| == |s| + 1
  {
    if s != [] && key(x) < key(s[0]) {
      InsertElements(x, s[1..], key);
      assert s == [s[0]] + s[1..];
    }
  }

  /** b is a with x put in at position p. */
  ghost predicate PutIn<X>(b: seq<X>, a: seq<X>, p: nat, x: X) {
    && p <= |a| && |b| == |a| + 1 && b[p] == x
    && (forall i :: 0 <= i < p ==> b[i] == a[i])
    && (forall i :: p < i < |b| ==> b[i] == a[i - 1])
  }

  lemma PutInParts<X>(a: seq<X>, p: nat, x: X)
    requires p <= |a|
    ensures PutIn(a[..p] + [x] + a[p..], a, p, x)
  {
  }

  /** x is put in front of the first element that is not greater. */
  lemma {:induction false} InsertPosition<T>(x: T, s: seq<T>, key: T -> int) returns (p: nat)
    requires Descending(s, key)
    ensures p <= |s| && Insert(x, s, key) == s[..p] + [x] + s[p..]
    ensures forall i :: 0 <= i < p ==> key(s[i]) > key(x)
    ensures forall i :: p <= i < |s| ==> key(x) >= key(s[i])
  {
    p := 0;
    if s != [] && key(x) < key(s[0]) {
      var q := InsertPosition(x, s[1..], key);
      p := q + 1;
      assert s[..p] == [s[0]] + s[1..][..q];
      assert forall i :: 0 < i < |s| ==> s[i] == s[1..][i - 1];
    }
  }

  lemma DescendingPutIn<T>(s: seq<T>, x: T, key: T -> int, p: nat, t: seq<T>)
    requires Descending(s, key) && PutIn(t, s, p, x)
    requires forall i :: 0 <= i < p ==> key(s[i]) > key(x)
    requires forall i :: p <= i < |s| ==> key(x) >= key(s[i])
    ensures Descending(t, key)
  {
    forall i, j | 0 <= i < j < |t|
      ensures key(t[i]) >= key(t[j])
    {
      var i0, j0 := if i < p then i else i - 1, if j < p then j else j - 1;
      if i != p && j != p {
        assert key(s[i0]) >= key(s[j0]);
      }
    }
  }

  lemma InsertDescending<T>(x: T, s: seq<T>, key: T -> int)
    requires Descending(s, key)
    ensures Descending(Insert(x, s, key), key)
  {
    hide Insert, Descending, PutIn;
    var p := InsertPosition(x, s, key);
    PutInParts(s, p, x);
    DescendingPutIn(s, x, key, p, Insert(x, s, key));
  }

  lemma WithKeyCons<T>(x: T, s: seq<T>, key: T -> int, v: int)
    ensures WithKey([x] + s, key, v) == (if key(x) == v then [x] else []) + WithKey(s, key, v)
  {
    assert ([x] + s)[1..] == s;
  }

  lemma {:induction false} InsertStable<T>(x: T, s: seq<T>, key: T -> int, v: int)
    ensures WithKey(Insert(x, s, key), key, v) == (if key(x) == v then [x] else []) + WithKey(s, key, v)
  {
    hide WithKey;
    if s != [] && key(x) < key(s[0]) {
      InsertStable(x, s[1..], key, v);
      WithKeyCons(s[0], Insert(x, s[1..], key), key, v);
      WithKeyCons(s[0], s[1..], key, v);
      assert s == [s[0]] + s[1..];
    } else {
      WithKeyCons(x, s, key, v);
    }
  }

  lemma {:induction false} SortDescending<T>(xs: seq<T>, key: T -> int)
    ensures Descending(Sort(xs, key), key)
    ensures multiset(Sort(xs, key)) == multiset(xs) && |Sort(xs, key)| == |xs|
  {
    if xs != [] {
      SortDescending(xs[1..], key);
      InsertDescending(xs[0], Sort(xs[1..], key), key);
      InsertElements(xs[0], Sort(xs[1..], key), key);
      assert xs == [xs[0]] + xs[1..];
    }
  }

  lemma {:induction false} SortStable<T>(xs: seq<T>, key: T -> int, v: int)
    ensures WithKey(Sort(xs, key), key, v) == WithKey(xs, key, v)
  {
    if xs != [] {
      SortStable(xs[1..], key, v);
      InsertStable(xs[0], Sort(xs[1..], key), key, v);
    }
  }

  /** The sort is a stable permutation in descending order. */
  lemma {:induction false} SortIsStable<T>(xs: seq<T>, key: T -> int)
    ensures Descending(Sort(xs, key), key) && StablePermutation(Sort(xs, key), xs, key)
  {
    SortDescending(xs, key);
    forall v
      ensures WithKey(Sort(xs, key), key, v) == WithKey(xs, key, v)
    {
      SortStable(xs, key, v);
    }
  }

  // ----- The sort in terms of positions

  /**
   sorted has each position of xs once: those of greater keys first, and of equal keys the earlier
   ones first.
   */
  ghost predicate Arranges<T>(from: seq<nat>, sorted: seq<T>, xs: seq<T>, key: T -> int) {
    && |from| == |sorted| == |xs|
    && (forall i :: 0 <= i < |from| ==> from[i] < |xs| && sorted[i] == xs[from[i]])
    && (forall i, j :: 0 <= i < j < |from| ==>
          key(sorted[i]) > key(sorted[j]) || (key(sorted[i]) == key(sorted[j]) && from[i] < from[j]))
    && (forall k: nat :: k < |xs| ==> k in from)
  }

  function Shifted(from: seq<nat>): (r: seq<nat>)
    ensures |r| == |from| && forall i :: 0 <= i < |from| ==> r[i] == from[i] + 1
  {
    seq(|from|, i requires 0 <= i < |from| => from[i] + 1)
  }

  lemma ArrangesOrder<T>(from: seq<nat>, sorted: seq<T>, x: T, xs: seq<T>, key: T -> int, p: nat,
                               from': seq<nat>, sorted': seq<T>)
    requires Arranges(from, sorted, xs, key)
    requires PutIn(from', Shifted(from), p, 0) && PutIn(sorted', sorted, p, x)
    requires forall i :: 0 <= i < p ==> key(sorted[i]) > key(x)
    requires forall i :: p <= i < |sorted| ==> key(x) >= key(sorted[i])
    ensures forall i, j :: 0 <= i < j < |from'| ==>
      key(sorted'[i]) > key(sorted'[j]) || (key(sorted'[i]) == key(sorted'[j]) && from'[i] < from'[j])
  {
    forall i, j | 0 <= i < j < |from'|
      ensures key(sorted'[i]) > key(sorted'[j]) || (key(sorted'[i]) == key(sorted'[j]) && from'[i] < from'[j])
    {
      var i0, j0 := if i < p then i else i - 1, if j < p then j else j - 1;
      if i != p && j != p {
        assert key(sorted[i0]) > key(sorted[j0]) || (key(sorted[i0]) == key(sorted[j0]) && from[i0] < from[j0]);
      }
    }
  }

  lemma ArrangesElements<T>(from: seq<nat>, sorted: seq<T>, x: T, xs: seq<T>, p: nat, from': seq<nat>,
                                  sorted': seq<T>)
    requires |from| == |sorted| == |xs|
    requires forall i :: 0 <= i < |from| ==> from[i] < |xs| && sorted[i] == xs[from[i]]
    requires PutIn(from', Shifted(from), p, 0) && PutIn(sorted', sorted, p, x)
    ensures forall i :: 0 <= i < |from'| ==> from'[i] < |[x] + xs| && sorted'[i] == ([x] + xs)[from'[i]]
  {
    forall i | 0 <= i < |from'|
      ensures from'[i] < |[x] + xs| && sorted'[i] == ([x] + xs)[from'[i]]
    {
      if i != p {
        var i0 := if i < p then i else i - 1;
        assert sorted[i0] == xs[from[i0]];
      }
    }
  }

  /** All positions are there again. */
  lemma ArrangesAll(from: seq<nat>, n: nat, p: nat, from': seq<nat>)
    requires (forall k: nat :: k < n ==> k in from) && PutIn(from', Shifted(from), p, 0)
    ensures forall k: nat :: k < n + 1 ==> k in from'
  {
    forall k: nat | k < n + 1
      ensures k in from'
    {
      if k == 0 {
        assert from'[p] == 0;
      } else {
        assert k - 1 in from;
        var i :| 0 <= i < |from| && from[i] == k - 1;
        assert from'[if i < p then i else i + 1] == k;
      }
    }
  }

  lemma ArrangesInsert<T>(from: seq<nat>, sorted: seq<T>, x: T, xs: seq<T>, key: T -> int, p: nat,
                                from': seq<nat>, sorted': seq<T>)
    requires Arranges(from, sorted, xs, key)
    requires PutIn(from', Shifted(from), p, 0) && PutIn(sorted', sorted, p, x)
    requires forall i :: 0 <= i < p ==> key(sorted[i]) > key(x)
    requires forall i :: p <= i < |sorted| ==> key(x) >= key(sorted[i])
    ensures Arranges(from', sorted', [x] + xs, key)
  {
    ArrangesOrder(from, sorted, x, xs, key, p, from', sorted');
    ArrangesElements(from, sorted, x, xs, p, from', sorted');
    ArrangesAll(from, |xs|, p, from');
  }

  lemma SortCons<T>(x: T, rest: seq<T>, key: T -> int)
    ensures Sort([x] + rest, key) == Insert(x, Sort(rest, key), key)
  {
    assert ([x] + rest)[1..] == rest;
  }

  /** Adding one element in front. */
  lemma ArrangesCons<T>(x: T, rest: seq<T>, key: T -> int, from: seq<nat>) returns (from': seq<nat>)
    requires Arranges(from, Sort(rest, key), rest, key)
    ensures Arranges(from', Sort([x] + rest, key), [x] + rest, key)
  {
    hide Arranges, PutIn, Insert, Sort, Descending;
    var sorted := Sort(rest, key);
    SameLengths(from, sorted, rest, key);
    SortDescending(rest, key);
    SortCons(x, rest, key);
    var p := InsertPosition(x, sorted, key);
    from' := Shifted(from)[..p] + [0] + Shifted(from)[p..];
    PutInParts(Shifted(from), p, 0);
    PutInParts(sorted, p, x);
    ArrangesInsert(from, sorted, x, rest, key, p, from', Sort([x] + rest, key));
  }

  lemma {:induction false} SortArranges<T>(xs: seq<T>, key: T -> int) returns (from: seq<nat>)
    ensures Arranges(from, Sort(xs, key), xs, key)
  {
    hide Arranges, Sort;
    from := [];
    if xs == [] {
      NothingArranged(xs, key);
    } else {
      from := SortArranges(xs[1..], key);
      from := ArrangesCons(xs[0], xs[1..], key, from);
      assert [xs[0]] + xs[1..] == xs;
    }
  }

  lemma NothingArranged<T>(xs: seq<T>, key: T -> int)
    requires xs == []
    ensures Arranges([], Sort(xs, key), xs, key)
  {
  }

  lemma SameLengths<T>(from: seq<nat>, sorted: seq<T>, xs: seq<T>, key: T -> int)
    requires Arranges(from, sorted, xs, key)
    ensures |from| == |sorted| == |xs|
  {
  }

  /** What does not come among the first n is not greater than any of them, nor earlier with an equal key. */
  lemma LeftOut<T>(from: seq<nat>, sorted: seq<T>, xs: seq<T>, key: T -> int, n: nat, i: nat, k: nat)
    requires Arranges(from, sorted, xs, key) && i < n <= |from| && k < |xs| && k !in from[..n]
    ensures key(sorted[i]) > key(xs[k]) || (key(sorted[i]) == key(xs[k]) && from[i] < k)
  {
    assert k in from;
    var j :| 0 <= j < |from| && from[j] == k;
    assert j >= n by {
      assert forall m :: 0 <= m < n ==> from[m] in from[..n];
    }
  }

  // ----- Stable permutations are unique

  lemma TailsAgree<T>(s: seq<T>, t: seq<T>, key: T -> int, v: int)
    requires s != [] && t != [] && key(s[0]) == key(t[0])
    requires WithKey(s, key, v) == WithKey(t, key, v)
    ensures WithKey(s[1..], key, v) == WithKey(t[1..], key, v)
  {
    var n := if key(s[0]) == v then 1 else 0;
    assert WithKey(s[1..], key, v) == WithKey(s, key, v)[n..];
    assert WithKey(t[1..], key, v) == WithKey(t, key, v)[n..];
  }

  lemma {:induction false} HeadAtLeast<T>(s: seq<T>, key: T -> int, v: int)
    requires Descending(s, key) && WithKey(s, key, v) != []
    ensures s != [] && key(s[0]) >= v
  {
    if s != [] && key(s[0]) != v {
      HeadAtLeast(s[1..], key, v);
    }
  }

  /** Two descending sequences with the same elements of every key are equal. */
  lemma {:induction false} StableUnique<T>(s: seq<T>, t: seq<T>, key: T -> int)
    requires Descending(s, key) && Descending(t, key)
    requires forall v :: WithKey(s, key, v) == WithKey(t, key, v)
    ensures s == t
  {
    assert t != [] ==> WithKey(s, key, key(t[0])) == WithKey(t, key, key(t[0])) != [];
    if s != [] {
      var v0 := key(s[0]);
      assert WithKey(s, key, v0) == WithKey(t, key, v0);
      HeadAtLeast(t, key, v0);
      var v1 := key(t[0]);
      assert WithKey(s, key, v1) == WithKey(t, key, v1);
      HeadAtLeast(s, key, v1);
      assert WithKey(s, key, v0)[0] == s[0] && WithKey(t, key, v0)[0] == t[0];
      forall v
        ensures WithKey(s[1..], key, v) == WithKey(t[1..], key, v)
      {
        TailsAgree(s, t, key, v);
      }
      StableUnique(s[1..], t[1..], key);
      assert s == [s[0]] + s[1..] && t == [t[0]] + t[1..];
    }
  }

  /** Being a stable descending permutation characterises the sort. */
  lemma {:induction false} SortUnique<T>(s: seq<T>, xs: seq<T>, key: T -> int)
    ensures Descending(s, key) && StablePermutation(s, xs, key) <==> s == Sort(xs, key)
  {
    SortIsStable(xs, key);
    if Descending(s, key) && StablePermutation(s, xs, key) {
      StableUnique(s, Sort(xs, key), key);
    }
  }

  lemma SortSorted<T>(s: seq<T>, key: T -> int)
    requires Descending(s, key)
    ensures Sort(s, key) == s
  {
    SortUnique(s, s, key);
  }

  // ----- Prefixes

  lemma TakeCons<T>(x: T, s: seq<T>, n: nat)
    requires n > 0
    ensures Take([x] + s, n) == [x] + Take(s, n - 1)
  {
  }

  /** The n first of the sort: the ranking. */
  function Top<T>(xs: seq<T>, key: T -> int, n: int): seq<T> {
    Take(Sort(xs, key), n)
  }

  lemma TakeDescending<T>(s: seq<T>, key: T -> int, n: int)
    requires Descending(s, key)
    ensures Descending(Take(s, n), key)
  {
  }

  /** Merge two sorted sequences, the left one first on equal keys. */
  function Merge<T>(s: seq<T>, t: seq<T>, key: T -> int): seq<T>
    decreases |s| + |t|
  {
    if s == [] then t
    else if t == [] then s
    else if key(s[0]) >= key(t[0]) then [s[0]] + Merge(s[1..], t, key)
    else [t[0]] + Merge(s, t[1..], key)
  }

  lemma {:induction false} MergeInsert<T>(x: T, s: seq<T>, t: seq<T>, key: T -> int)
    requires Descending(s, key) && Descending(t, key)
    ensures Merge(Insert(x, s, key), t, key) == Insert(x, Merge(s, t, key), key)
    decreases |s| + |t|
  {
    if t == [] {
      assert Insert(x, s, key) != [];
    } else if s == [] {
      assert [x] + s == [x];
      MergeSingle(x, t, key);
    } else if key(x) >= key(s[0]) {
      MergeFront(x, s, t, key);
    } else {
      var inserted := Insert(x, s, key);
      assert inserted[0] == s[0] && inserted[1..] == Insert(x, s[1..], key);
      if key(s[0]) >= key(t[0]) {
        MergeInsert(x, s[1..], t, key);
        assert ([s[0]] + Merge(s[1..], t, key))[1..] == Merge(s[1..], t, key);
      } else {
        MergeInsert(x, s, t[1..], key);
        assert ([t[0]] + Merge(s, t[1..], key))[1..] == Merge(s, t[1..], key);
      }
    }
  }

  lemma {:induction false} MergeSingle<T>(x: T, t: seq<T>, key: T -> int)
    requires Descending(t, key)
    ensures Merge([x], t, key) == Insert(x, t, key)
  {
    if t != [] && key(x) < key(t[0]) {
      MergeSingle(x, t[1..], key);
    } else if t != [] {
      assert [x][1..] == [];
    }
  }

  /** An element no smaller than the head of s, put before s, takes its place before the merge. */
  lemma {:induction false} MergeFront<T>(x: T, s: seq<T>, t: seq<T>, key: T -> int)
    requires s != [] && key(x) >= key(s[0])
    ensures Merge([x] + s, t, key) == Insert(x, Merge(s, t, key), key)
    decreases |t|
  {
    assert ([x] + s)[1..] == s;
    if t != [] && key(x) < key(t[0]) {
      MergeFront(x, s, t[1..], key);
      assert ([t[0]] + Merge(s, t[1..], key))[1..] == Merge(s, t[1..], key);
    }
  }

  lemma {:induction false} SortMerge<T>(a: seq<T>, b: seq<T>, key: T -> int)
    ensures Sort(a + b, key) == Merge(Sort(a, key), Sort(b, key), key)
  {
    if a == [] {
      assert a + b == b;
    } else {
      assert (a + b)[0] == a[0] && (a + b)[1..] == a[1..] + b;
      SortMerge(a[1..], b, key);
      SortDescending(a[1..], key);
      SortDescending(b, key);
      MergeInsert(a[0], Sort(a[1..], key), Sort(b, key), key);
    }
  }

  /** The first n of a merge depend on the first n of its parts only. */
  lemma {:induction false} MergePrefix<T>(s: seq<T>, t: seq<T>, key: T -> int, n: nat, m: nat, k: nat)
    requires n <= m && n <= k
    ensures Take(Merge(s, t, key), n) == Take(Merge(Take(s, m), Take(t, k), key), n)
    decreases |s| + |t|
  {
    hide Merge, Take;
    if n == 0 {
      TakeNothing(Merge(s, t, key), Merge(Take(s, m), Take(t, k), key));
    } else if s == [] {
      TakeTake(t, n, k);
      MergeNothing(s, t, key);
      MergeNothing(Take(s, m), Take(t, k), key);
    } else if t == [] {
      TakeTake(s, n, m);
      MergeNothing(s, t, key);
      MergeNothing(Take(s, m), Take(t, k), key);
    } else {
      var s', t' := Take(s, m), Take(t, k);
      TakeHead(s, m);
      TakeHead(t, k);
      if key(s[0]) >= key(t[0]) {
        MergePrefix(s[1..], t, key, n - 1, m - 1, k);
        MergeTakesLeft(s, t, key, n);
        MergeTakesLeft(s', t', key, n);
      } else {
        MergePrefix(s, t[1..], key, n - 1, m, k - 1);
        MergeTakesRight(s, t, key, n);
        MergeTakesRight(s', t', key, n);
      }
    }
  }

  lemma TakeHead<T>(s: seq<T>, n: nat)
    requires s != [] && n > 0
    ensures Take(s, n) == [s[0]] + Take(s[1..], n - 1)
  {
  }

  lemma TakeNothing<T>(s: seq<T>, t: seq<T>)
    ensures Take(s, 0) == [] == Take(t, 0)
  {
  }

  lemma TakeTake<T>(s: seq<T>, n: nat, m: nat)
    requires n <= m
    ensures Take(Take(s, m), n) == Take(s, n) && Take<T>([], n) == [] && Take<T>([], m) == []
  {
  }

  lemma MergeNothing<T>(s: seq<T>, t: seq<T>, key: T -> int)
    ensures s == [] ==> Merge(s, t, key) == t
    ensures t == [] ==> Merge(s, t, key) == s
  {
  }

  lemma MergeTakesLeft<T>(s: seq<T>, t: seq<T>, key: T -> int, n: nat)
    requires n > 0 && s != [] && t != [] && key(s[0]) >= key(t[0])
    ensures Take(Merge(s, t, key), n) == [s[0]] + Take(Merge(s[1..], t, key), n - 1)
  {
    TakeCons(s[0], Merge(s[1..], t, key), n);
  }

  lemma MergeTakesRight<T>(s: seq<T>, t: seq<T>, key: T -> int, n: nat)
    requires n > 0 && s != [] && t != [] && key(s[0]) < key(t[0])
    ensures Take(Merge(s, t, key), n) == [t[0]] + Take(Merge(s, t[1..], key), n - 1)
  {
    TakeCons(t[0], Merge(s, t[1..], key), n);
  }

  /** The top n of a concatenation is the top n of the two top n. */
  lemma {:induction false} TopConcat<T>(a: seq<T>, b: seq<T>, key: T -> int, n: nat)
    ensures Top(a + b, key, n) == Top(Top(a, key, n) + Top(b, key, n), key, n)
  {
    SortMerge(a, b, key);
    SortMerge(Top(a, key, n), Top(b, key, n), key);
    SortDescending(a, key);
    SortDescending(b, key);
    TakeDescending(Sort(a, key), key, n);
    TakeDescending(Sort(b, key), key, n);
    SortSorted(Top(a, key, n), key);
    SortSorted(Top(b, key, n), key);
    MergePrefix(Sort(a, key), Sort(b, key), key, n, n, n);
  }

  /** Ranking a ranking keeps the shorter prefix. */
  lemma {:induction false} TopTop<T>(xs: seq<T>, key: T -> int, n: nat, m: nat)
    ensures Top(Top(xs, key, n), key, m) == Top(xs, key, if n < m then n else m)
  {
    SortDescending(xs, key);
    TakeDescending(Sort(xs, key), key, n);
    SortSorted(Top(xs, key, n), key);
  }
}
