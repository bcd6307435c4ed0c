/** Option type used for the nullable columns of the workout table. */
module Wrappers {

  datatype Option<T> = None | Some(value: T)
}

/**
 * Generic facts about sequences: first-appearance de-duplication (the `unique()`
 * of the table library), the index of a first occurrence, and sums of
 * multiplicities over a list of keys.
 */
module Sequences {

  ghost predicate NoDuplicates<T>(s: seq<T>)
  {
    forall i, j :: 0 <= i < j < |s| ==> s[i] != s[j]
  }

  /** `d` lists every element of `s` exactly once, in the order of first occurrence in `s`. */
  ghost predicate FirstAppearanceOrder<T>(d: seq<T>, s: seq<T>)
  {
    NoDuplicates(d)
    && (forall i :: 0 <= i < |d| ==> d[i] in s)
    && (forall i :: 0 <= i < |s| ==> s[i] in d)
    && (forall i, j :: 0 <= i < j < |d| ==> IndexOf(s, d[i]) < IndexOf(s, d[j]))
  }

  /** The elements of `s`, each once, in the order of their first occurrence. */
  function Distinct<T(==)>(s: seq<T>): (d: seq<T>)
    ensures |d| <= |s|
    ensures s != [] ==> d != [] && d[0] == s[0]
  {
    if s == [] then []
    else
      var d := Distinct(s[..|s| - 1]);
      if s[|s| - 1] in d then d else d + [s[|s| - 1]]
  }

  /** Position of the first occurrence of `x` in `s`, or `|s|` when there is none. */
  function IndexOf<T(==)>(s: seq<T>, x: T): (k: nat)
    ensures k <= |s|
    ensures k < |s| <==> x in s
    ensures k < |s| ==> s[k] == x
    ensures forall i :: 0 <= i < k ==> s[i] != x
  {
    if s == [] then 0
    else if s[0] == x then 0
    else 1 + IndexOf(s[1..], x)
  }

  /** Sum of the multiplicities in `m` of the keys listed in `keys`. */
  function SumCounts<T>(keys: seq<T>, m: multiset<T>): nat
  {
    if keys == [] then 0
    else SumCounts(keys[..|keys| - 1], m) + m[keys[|keys| - 1]]
  }

  lemma {:induction false} DistinctMembers<T>(s: seq<T>)
    ensures forall x :: x in Distinct(s) <==> x in s
    ensures forall i :: 0 <= i < |Distinct(s)| ==> Distinct(s)[i] in s
  {
    if s != [] {
      var p := s[..|s| - 1];
      DistinctMembers(p);
      assert s == p + [s[|s| - 1]];
    }
  }

  lemma PrefixMembers<T>(s: seq<T>, k: nat)
    requires k <= |s|
    ensures forall x :: x in s[..k] ==> x in s
  {
    assert s == s[..k] + s[k..];
  }

  lemma {:induction false} DistinctNoDuplicates<T>(s: seq<T>)
    ensures NoDuplicates(Distinct(s))
  {
    if s != [] {
      DistinctNoDuplicates(s[..|s| - 1]);
    }
  }

  /** Appending an element does not move the first occurrence of anything already present. */
  lemma IndexOfAppend<T>(p: seq<T>, y: T, x: T)
    ensures x in p ==> IndexOf(p + [y], x) == IndexOf(p, x)
    ensures x !in p && x == y ==> IndexOf(p + [y], x) == |p|
  {
    var s := p + [y];
    var k, k' := IndexOf(p, x), IndexOf(s, x);
    if x in p {
      assert s[k] == x;
      assert k' < |p| ==> p[k'] == x;
    } else if x == y {
      assert forall i :: 0 <= i < |p| ==> s[i] == p[i];
    }
  }

  /** Distinct lists its elements in the order in which they first occur in `s`. */
  lemma {:induction false} DistinctFirstAppearance<T>(s: seq<T>)
    ensures forall i, j :: 0 <= i < j < |Distinct(s)| ==>
      IndexOf(s, Distinct(s)[i]) < IndexOf(s, Distinct(s)[j])
  {
    if s != [] {
      var p, y := s[..|s| - 1], s[|s| - 1];
      assert s == p + [y];
      var d := Distinct(p);
      DistinctFirstAppearance(p);
      DistinctMembers(p);
      forall i | 0 <= i < |d|
        ensures IndexOf(s, d[i]) == IndexOf(p, d[i]) < |p|
      {
        IndexOfAppend(p, y, d[i]);
      }
      if y !in d {
        IndexOfAppend(p, y, y);
      }
    }
  }

  lemma {:induction false} SumCountsAdd<T>(keys: seq<T>, m: multiset<T>, y: T)
    requires NoDuplicates(keys)
    ensures SumCounts(keys, m + multiset{y}) == SumCounts(keys, m) + (if y in keys then 1 else 0)
  {
    if keys != [] {
      var p := keys[..|keys| - 1];
      assert keys == p + [keys[|keys| - 1]];
      SumCountsAdd(p, m, y);
    }
  }

  /** Counting every distinct key of `s` by its multiplicity counts every element of `s` once. */
  lemma {:induction false} SumCountsOverDistinct<T>(s: seq<T>)
    ensures SumCounts(Distinct(s), multiset(s)) == |s|
  {
    if s != [] {
      var p, y := s[..|s| - 1], s[|s| - 1];
      assert s == p + [y];
      assert multiset(s) == multiset(p) + multiset{y};
      var d := Distinct(p);
      SumCountsOverDistinct(p);
      DistinctNoDuplicates(p);
      DistinctMembers(p);
      SumCountsAdd(d, multiset(p), y);
      if y !in d {
        assert Distinct(s)[..|Distinct(s)| - 1] == d;
        assert multiset(p)[y] == 0;
      }
    }
  }

  /** Distinct meets the first-appearance characterisation. */
  lemma DistinctInFirstAppearanceOrder<T>(s: seq<T>)
    ensures FirstAppearanceOrder(Distinct(s), s)
  {
    DistinctMembers(s);
    DistinctNoDuplicates(s);
    DistinctFirstAppearance(s);
  }
  /** `f` applied to every element of `s`, in order. */
  function Map<T, U>(f: T --> U, s: seq<T>): (r: seq<U>)
    requires forall x :: x in s ==> f.requires(x)
    ensures |r| == |s|
  {
    if s == [] then [] else Map(f, s[..|s| - 1]) + [f(s[|s| - 1])]
  }

  lemma MapSnoc<T, U>(f: T --> U, s: seq<T>, k: nat)
    requires forall x :: x in s ==> f.requires(x)
    requires k < |s|
    ensures forall x :: x in s[..k + 1] ==> f.requires(x)
    ensures Map(f, s[..k + 1]) == Map(f, s[..k]) + [f(s[k])]
  {
    assert s[..k + 1][..k] == s[..k];
    assert s == s[..k + 1] + s[k + 1..];
  }

  /** The `i`-th element of the image is the image of the `i`-th element. */
  lemma {:induction false} MapAt<T, U>(f: T --> U, s: seq<T>, i: nat)
    requires forall x :: x in s ==> f.requires(x)
    requires i < |s|
    ensures Map(f, s)[i] == f(s[i])
  {
    var p := s[..|s| - 1];
    assert s == p + [s[|s| - 1]];
    if i < |p| {
      MapAt(f, p, i);
    }
  }
}
