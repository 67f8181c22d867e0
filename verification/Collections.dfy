/** Options, results, Python slices and insertion-ordered dictionaries. */
module Collections {

  datatype Option<+T> = None | Some(value: T) {
    function GetOr(default: T): T {
      if Some? then value else default
    }
  }

  datatype Result<+T> = Ok(value: T) | Err(message: string)

  ghost predicate Distinct<T(!new)>(s: seq<T>) {
    forall i, j :: 0 <= i < j < |s| ==> s[i] != s[j]
  }

  function ToSet<T(==,!new)>(s: seq<T>): (r: set<T>)
    ensures forall x :: x in r <==> x in s
  {
    set x | x in s
  }

  lemma {:induction false} ToSetSize<T(!new)>(s: seq<T>)
    ensures |ToSet(s)| <= |s|
    ensures Distinct(s) ==> |ToSet(s)| == |s|
  {
    if s != [] {
      var init, last := s[..|s| - 1], s[|s| - 1];
      ToSetSize(init);
      assert ToSet(s) == ToSet(init) + {last};
    }
  }

  /** The Python slice s[:n]; a negative n drops elements from the end. */
  function Take<T>(s: seq<T>, n: int): (r: seq<T>)
    ensures r <= s
  {
    if n >= |s| then s
    else if n >= 0 then s[..n]
    else if |s| + n >= 0 then s[..|s| + n]
    else []
  }

  /** What pick makes of the elements of xs, in order, leaving out those it maps to None. */
  function Picked<A, B>(xs: seq<A>, pick: A -> Option<B>): seq<B> {
    if xs == [] then []
    else
      Picked(xs[..|xs| - 1], pick) +
      match pick(xs[|xs| - 1])
      case Some(y) => [y]
      case None => []
  }

  /** from[i] is where the i-th result comes from; the order is kept and nothing is left out. */
  ghost predicate Positions<A(!new), B(!new)>(from: seq<nat>, ys: seq<B>, xs: seq<A>, pick: A -> Option<B>) {
    && |from| == |ys|
    && (forall i :: 0 <= i < |from| ==> from[i] < |xs| && pick(xs[from[i]]) == Some(ys[i]))
    && (forall i, j :: 0 <= i < j < |from| ==> from[i] < from[j])
    && (forall k: nat :: k < |xs| && pick(xs[k]).Some? ==> k in from)
  }

  lemma PositionsNext<A(!new), B(!new)>(from: seq<nat>, ys: seq<B>, xs: seq<A>, x: A, pick: A -> Option<B>)
    requires Positions(from, ys, xs, pick)
    ensures pick(x) == None ==> Positions(from, ys, xs + [x], pick)
    ensures pick(x).Some? ==> Positions(from + [|xs|], ys + [pick(x).value], xs + [x], pick)
  {
    forall k: nat | k < |xs + [x]| && pick((xs + [x])[k]).Some?
      ensures k in from + [|xs|] && (k < |xs| ==> k in from)
    {
      if k < |xs| {
        assert (xs + [x])[k] == xs[k];
      }
    }
  }

  lemma {:induction false} PickedExactly<A(!new), B(!new)>(xs: seq<A>, pick: A -> Option<B>) returns (from: seq<nat>)
    ensures Positions(from, Picked(xs, pick), xs, pick)
  {
    from := [];
    if xs != [] {
      hide Positions;
      var init, last := xs[..|xs| - 1], xs[|xs| - 1];
      from := PickedExactly(init, pick);
      PositionsNext(from, Picked(init, pick), init, last, pick);
      assert init + [last] == xs;
      if pick(last).Some? {
        from := from + [|init|];
      }
    } else {
      assert Positions(from, [], xs, pick);
    }
  }

  lemma {:induction false} PickedNothing<A(!new), B>(xs: seq<A>, pick: A -> Option<B>)
    requires forall x :: x in xs ==> pick(x) == None
    ensures Picked(xs, pick) == []
  {
    if xs != [] {
      PickedNothing(xs[..|xs| - 1], pick);
    }
  }

  /** The first occurrences in s, in order: list(dict.fromkeys(s)). */
  function Dedup<T(==,!new)>(s: seq<T>): (r: seq<T>)
    ensures forall x :: x in r <==> x in s
  {
    if s == [] then []
    else
      var r := Dedup(s[..|s| - 1]);
      if s[|s| - 1] in r then r else r + [s[|s| - 1]]
  }

  lemma {:induction false} DedupDistinct<T(!new)>(s: seq<T>)
    ensures Distinct(Dedup(s))
    ensures Distinct(s) ==> Dedup(s) == s
  {
    if s != [] {
      DedupDistinct(s[..|s| - 1]);
      if Distinct(s) {
        assert s == s[..|s| - 1] + [s[|s| - 1]];
      }
    }
  }

  /** Deduplication commutes with taking prefixes: the result for a prefix is a prefix. */
  lemma {:induction false} DedupPrefix<T(!new)>(s: seq<T>, t: seq<T>)
    ensures Dedup(s) <= Dedup(s + t)
  {
    if t == [] {
      assert s + t == s;
    } else {
      DedupPrefix(s, t[..|t| - 1]);
      assert (s + t)[..|s + t| - 1] == s + t[..|t| - 1];
    }
  }

  /** A Python dict: keys in insertion order; assigning to a present key keeps its place. */
  datatype Dict<K(==,!new), V> = Dict(keys: seq<K>, vals: map<K, V>) {

    ghost predicate Valid() {
      && Distinct(keys)
      && (forall k :: k in keys <==> k in vals)
    }

    function Put(k: K, v: V): (d: Dict<K, V>)
      ensures Valid() ==> d.Valid()
      ensures d.vals == vals[k := v]
    {
      Dict(if k in vals then keys else keys + [k], vals[k := v])
    }

    function Get(k: K): Option<V> {
      if k in vals then Some(vals[k]) else None
    }

    /** dict.pop(k, None) */
    function Remove(k: K): (d: Dict<K, V>)
      ensures Valid() ==> d.Valid()
      ensures d.vals == vals - {k}
    {
      RemoveKeyProperties(keys, k);
      Dict(RemoveKey(keys, k), vals - {k})
    }

    function Items(): (items: seq<V>)
      requires Valid()
      ensures |items| == |keys|
      ensures forall i :: 0 <= i < |keys| ==> items[i] == vals[keys[i]]
    {
      seq(|keys|, i requires 0 <= i < |keys| => vals[keys[i]])
    }
  }

  function EmptyDict<K(==,!new), V>(): (d: Dict<K, V>)
    ensures d.Valid()
  {
    Dict([], map[])
  }

  function RemoveKey<K(==)>(keys: seq<K>, k: K): seq<K> {
    if keys == [] then []
    else if keys[0] == k then keys[1..]
    else [keys[0]] + RemoveKey(keys[1..], k)
  }

  lemma {:induction false} RemoveKeyProperties<K(!new)>(keys: seq<K>, k: K)
    ensures var r := RemoveKey(keys, k);
      && (forall x :: x in r ==> x in keys)
      && (forall x :: x in keys && x != k ==> x in r)
      && |r| == (if k in keys then |keys| - 1 else |keys|)
      && (Distinct(keys) ==> k !in r && Distinct(r))
  {
    hide Distinct;
    if keys != [] {
      DistinctTail(keys);
      if keys[0] != k {
        RemoveKeyProperties(keys[1..], k);
        DistinctCons(keys[0], RemoveKey(keys[1..], k));
      }
    }
  }

  lemma DistinctTail<T(!new)>(s: seq<T>)
    requires s != []
    ensures Distinct(s) ==> Distinct(s[1..]) && s[0] !in s[1..]
  {
  }

  lemma DistinctCons<T(!new)>(x: T, s: seq<T>)
    ensures Distinct(s) && x !in s ==> Distinct([x] + s)
  {
  }

  lemma RemoveFromCons<K(!new)>(x: K, rest: seq<K>, k: K)
    ensures RemoveKey([x] + rest, k) == if x == k then rest else [x] + RemoveKey(rest, k)
  {
    assert ([x] + rest)[1..] == rest;
  }

  /** Removing a key keeps the others in order. */
  lemma {:induction false} RemoveKeyKeepsOrder<K(!new)>(a: seq<K>, k: K, b: seq<K>)
    requires k !in a
    ensures RemoveKey(a + [k] + b, k) == a + b
  {
    hide RemoveKey;
    if a == [] {
      RemoveFromCons(k, b, k);
      assert a + [k] + b == [k] + b && a + b == b;
    } else {
      var x, rest := a[0], a[1..];
      RemoveKeyKeepsOrder(rest, k, b);
      RemoveFromCons(x, rest + [k] + b, k);
      assert a == [x] + rest;
      assert a + [k] + b == [x] + (rest + [k] + b) && a + b == [x] + (rest + b);
    }
  }

  /** Two valid dicts with the same keys in the same order and the same values are equal. */
  lemma DictEquality<K(!new), V>(a: Dict<K, V>, b: Dict<K, V>)
    requires a.Valid() && b.Valid() && a.keys == b.keys
    requires forall i :: 0 <= i < |a.keys| ==> a.vals[a.keys[i]] == b.vals[a.keys[i]]
    ensures a == b
  {
    assert a.vals.Keys == b.vals.Keys;
    forall k | k in a.vals
      ensures a.vals[k] == b.vals[k]
    {
      var i :| 0 <= i < |a.keys| && a.keys[i] == k;
    }
  }
}
