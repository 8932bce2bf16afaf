/** The library sort both the embedder and the prompt assembly rely on: any sort by
    a total preorder yields a sorted permutation, and sorted permutations are unique
    once no two elements tie. */
module Sorting {

  ghost predicate TotalPreorder<T(!new)>(le: (T, T) -> bool) {
    && (forall a, b :: le(a, b) || le(b, a))
    && (forall a, b, c :: le(a, b) && le(b, c) ==> le(a, c))
  }

  ghost predicate Sorted<T>(le: (T, T) -> bool, s: seq<T>) {
    forall i, j :: 0 <= i < j < |s| ==> le(s[i], s[j])
  }

  /** No two elements at different places are equivalent under the order. */
  ghost predicate TieFree<T>(le: (T, T) -> bool, s: seq<T>) {
    forall i, j :: 0 <= i < |s| && 0 <= j < |s| && i != j ==> !(le(s[i], s[j]) && le(s[j], s[i]))
  }

  function InsertSorted<T>(le: (T, T) -> bool, x: T, s: seq<T>): seq<T> {
    if s == [] then [x]
    else if le(x, s[0]) then [x] + s
    else [s[0]] + InsertSorted(le, x, s[1..])
  }

  function Sort<T>(le: (T, T) -> bool, s: seq<T>): seq<T> {
    if s == [] then [] else InsertSorted(le, s[0], Sort(le, s[1..]))
  }

  lemma {:induction false} InsertSortedPermutes<T>(le: (T, T) -> bool, x: T, s: seq<T>)
    ensures multiset(InsertSorted(le, x, s)) == multiset{x} + multiset(s)
    ensures forall y :: y in InsertSorted(le, x, s) ==> y == x || y in s
  {
    if s != [] {
      assert s == [s[0]] + s[1..];
      InsertSortedPermutes(le, x, s[1..]);
    }
  }

  lemma {:induction false} InsertSortedSorts<T(!new)>(le: (T, T) -> bool, x: T, s: seq<T>)
    requires TotalPreorder(le) && Sorted(le, s)
    ensures Sorted(le, InsertSorted(le, x, s))
  {
    if s != [] && !le(x, s[0]) {
      var rest := InsertSorted(le, x, s[1..]);
      InsertSortedSorts(le, x, s[1..]);
      InsertSortedPermutes(le, x, s[1..]);
      forall k | 0 <= k < |rest| ensures le(s[0], rest[k]) {
        assert rest[k] in rest;
      }
    }
  }

  lemma {:induction false} SortSorts<T(!new)>(le: (T, T) -> bool, s: seq<T>)
    requires TotalPreorder(le)
    ensures Sorted(le, Sort(le, s)) && multiset(Sort(le, s)) == multiset(s)
    ensures |Sort(le, s)| == |s|
  {
    if s != [] {
      assert s == [s[0]] + s[1..];
      SortSorts(le, s[1..]);
      InsertSortedPermutes(le, s[0], Sort(le, s[1..]));
      InsertSortedSorts(le, s[0], Sort(le, s[1..]));
    }
    assert |multiset(Sort(le, s))| == |multiset(s)|;
  }

  /** A place in a permutation for every place. */
  lemma InPermutation<T>(s: seq<T>, t: seq<T>, i: nat)
    requires multiset(s) == multiset(t) && i < |s|
    ensures s[i] in t
  {
    assert s[i] in multiset(t);
  }

  /** A list without repetition has only permutations without repetition. */
  lemma DistinctPermutation<T>(s: seq<T>, t: seq<T>, i: nat, j: nat)
    requires multiset(s) == multiset(t) && i < j < |t|
    requires forall p, q :: 0 <= p < q < |s| ==> s[p] != s[q]
    ensures t[i] != t[j]
  {
    if t[i] == t[j] {
      assert t == t[..j] + [t[j]] + t[j + 1..];
      assert t[..j] == t[..i] + [t[i]] + t[i + 1..j];
      assert multiset(t)[t[i]] >= 2;
      AtMostOnce(s, t[i]);
    }
  }

  lemma {:induction false} AtMostOnce<T>(s: seq<T>, x: T)
    requires forall p, q :: 0 <= p < q < |s| ==> s[p] != s[q]
    ensures multiset(s)[x] <= 1
  {
    if s != [] {
      assert s == [s[0]] + s[1..];
      AtMostOnce(s[1..], x);
      if s[0] == x { assert x !in s[1..]; }
    }
  }

  lemma HeadIsLeast<T(!new)>(le: (T, T) -> bool, s: seq<T>, x: T)
    requires Sorted(le, s) && x in s
    ensures x == s[0] || le(s[0], x)
  {
    var i :| 0 <= i < |s| && s[i] == x;
    assert i == 0 || le(s[0], s[i]);
  }

  lemma TailsPermute<T>(s: seq<T>, t: seq<T>)
    requires s != [] && t != [] && s[0] == t[0] && multiset(s) == multiset(t)
    ensures multiset(s[1..]) == multiset(t[1..])
  {
    assert s == [s[0]] + s[1..] && t == [t[0]] + t[1..];
    assert multiset(s[1..]) == multiset(s) - multiset{s[0]};
  }

  /** Sorted permutations of a list without ties are equal. */
  lemma {:induction false} SortedUnique<T(!new)>(le: (T, T) -> bool, s: seq<T>, t: seq<T>)
    requires multiset(s) == multiset(t) && Sorted(le, s) && Sorted(le, t)
    requires forall a, b :: a in s && b in s && le(a, b) && le(b, a) ==> a == b
    ensures s == t
  {
    assert |multiset(s)| == |multiset(t)|;
    if s != [] {
      InPermutation(s, t, 0);
      InPermutation(t, s, 0);
      HeadIsLeast(le, s, t[0]);
      HeadIsLeast(le, t, s[0]);
      TailsPermute(s, t);
      SortedUnique(le, s[1..], t[1..]);
      assert s == [s[0]] + s[1..] && t == [t[0]] + t[1..];
    }
  }

  /** Permutations of a list without ties have none either, and elements that tie are one element. */
  lemma TieFreeElements<T(!new)>(le: (T, T) -> bool, s: seq<T>, a: T, b: T)
    requires TieFree(le, s) && a in s && b in s && le(a, b) && le(b, a)
    ensures a == b
  {
    var i :| 0 <= i < |s| && s[i] == a;
    var j :| 0 <= j < |s| && s[j] == b;
    assert i == j;
  }

  /** Sorting forgets the order of the input. */
  lemma SortForgetsOrder<T(!new)>(le: (T, T) -> bool, s: seq<T>, t: seq<T>)
    requires TotalPreorder(le) && TieFree(le, s) && multiset(s) == multiset(t)
    ensures Sort(le, s) == Sort(le, t)
  {
    SortSorts(le, s);
    SortSorts(le, t);
    var u := Sort(le, s);
    forall a, b | a in u && b in u && le(a, b) && le(b, a) ensures a == b {
      assert a in multiset(s) && b in multiset(s);
      TieFreeElements(le, s, a, b);
    }
    SortedUnique(le, Sort(le, s), Sort(le, t));
  }
}
