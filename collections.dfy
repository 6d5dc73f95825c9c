/** Sequence operations the handlers take from LINQ and from the `SplitList`
    helper: filtering, a stable sort by a key in descending order, splitting
    into fixed-size groups, and concatenating groups back together. */
module Collections {

  /** `key` never increases from left to right. */
  ghost predicate SortedDesc<T>(s: seq<T>, key: T -> int) {
    forall i, j :: 0 <= i < j < |s| ==> key(s[i]) >= key(s[j])
  }

  /** The elements of `s` that satisfy `keep`, each as often as in `s`
      (LINQ `Where`). */
  function Where<T(!new)>(s: seq<T>, keep: T -> bool): (r: seq<T>)
    ensures |r| <= |s|
    ensures forall i :: 0 <= i < |r| ==> r[i] in s && keep(r[i])
    ensures forall i :: 0 <= i < |s| && keep(s[i]) ==> s[i] in r
    ensures forall x :: multiset(r)[x] == if keep(x) then multiset(s)[x] else 0
  {
    if |s| == 0 then []
    else
      assert s == [s[0]] + s[1..];
      var r := (if keep(s[0]) then [s[0]] else []) + Where(s[1..], keep);
      KeptMembers(s, keep, r);
      r
  }

  /** A sequence holding the elements of `s` that pass `keep`, as often as in
      `s`, holds only elements of `s` that pass, and all of those. */
  lemma KeptMembers<T(!new)>(s: seq<T>, keep: T -> bool, r: seq<T>)
    requires forall x :: multiset(r)[x] == if keep(x) then multiset(s)[x] else 0
    ensures forall i :: 0 <= i < |r| ==> r[i] in s && keep(r[i])
    ensures forall i :: 0 <= i < |s| && keep(s[i]) ==> s[i] in r
  {
    forall i | 0 <= i < |r| ensures r[i] in s && keep(r[i]) {
      assert r[i] in multiset(r);
    }
    forall i | 0 <= i < |s| && keep(s[i]) ensures s[i] in r {
      assert s[i] in multiset(s);
    }
  }

  /** Puts `x` in front of the first element whose key is not larger than
      its own, so that `x` precedes the equal keys already in `s`. */
  function Insert<T>(x: T, s: seq<T>, key: T -> int): (r: seq<T>)
    requires SortedDesc(s, key)
    ensures |r| == |s| + 1
    ensures multiset(r) == multiset(s) + multiset{x}
    ensures SortedDesc(r, key)
  {
    if |s| == 0 || key(s[0]) <= key(x) then
      PrependSorted(x, s, key);
      [x] + s
    else
      var tail := Insert(x, s[1..], key);
      assert s == [s[0]] + s[1..];
      forall j | 0 <= j < |tail| ensures key(s[0]) >= key(tail[j]) {
        assert tail[j] in multiset(s[1..]) + multiset{x};
      }
      PrependSorted(s[0], tail, key);
      [s[0]] + tail
  }

  /** An element no smaller than the head of a sorted sequence can go in front. */
  lemma PrependSorted<T>(h: T, s: seq<T>, key: T -> int)
    requires SortedDesc(s, key)
    requires |s| > 0 ==> key(h) >= key(s[0])
    ensures SortedDesc([h] + s, key)
  {
  }

  /** LINQ `OrderByDescending(key)`: a permutation of `s` sorted by `key`
      from largest to smallest; among equal keys the earlier element of `s`
      comes first. */
  function SortDesc<T>(s: seq<T>, key: T -> int): (r: seq<T>)
    ensures |r| == |s|
    ensures multiset(r) == multiset(s)
    ensures SortedDesc(r, key)
  {
    if |s| == 0 then []
    else
      assert s == [s[0]] + s[1..];
      Insert(s[0], SortDesc(s[1..], key), key)
  }

  /** The groups of `ss` laid end to end. */
  function Flatten<T>(ss: seq<seq<T>>): seq<T> {
    if |ss| == 0 then [] else ss[0] + Flatten(ss[1..])
  }

  lemma {:induction false} FlattenSnoc<T>(ss: seq<seq<T>>, t: seq<T>)
    ensures Flatten(ss + [t]) == Flatten(ss) + t
  {
    if |ss| == 0 {
      assert ss + [t] == [t];
      assert Flatten([t]) == t + Flatten([t][1..]);
    } else {
      assert (ss + [t])[1..] == ss[1..] + [t];
      FlattenSnoc(ss[1..], t);
    }
  }

  /** `SplitList(n)`: consecutive groups of `n` elements, the last one
      possibly shorter; no group for an empty input. */
  function Chunk<T>(s: seq<T>, n: nat): (r: seq<seq<T>>)
    requires n > 0
    ensures Flatten(r) == s
    ensures |r| == 0 <==> |s| == 0
    ensures forall k :: 0 <= k < |r| ==> 0 < |r[k]| <= n
    ensures forall k :: 0 <= k < |r| - 1 ==> |r[k]| == n
    decreases |s|
  {
    if |s| == 0 then []
    else if |s| <= n then
      assert Flatten([s]) == s + Flatten([s][1..]);
      [s]
    else
      var rest := Chunk(s[n..], n);
      assert ([s[..n]] + rest)[1..] == rest;
      assert s[..n] + s[n..] == s;
      [s[..n]] + rest
  }

  /** Removing the element at `i` removes one occurrence of it. */
  lemma MultisetRemove<T>(s: seq<T>, i: nat)
    requires i < |s|
    ensures multiset(s[..i] + s[i + 1..]) == multiset(s) - multiset{s[i]}
  {
    assert s == s[..i] + [s[i]] + s[i + 1..];
  }
}
