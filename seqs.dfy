/**
 * Sequence operations the source expresses with list comprehensions and
 * Python's `sorted(..., key=...)`: an order-preserving filter and a stable
 * sort by an integer key, with the facts the rest of the model relies on.
 */
module Seqs {

  /** Concatenation regroups freely. */
  lemma AppendAssociative<T>(a: seq<T>, b: seq<T>, c: seq<T>)
    ensures (a + b) + c == a + (b + c)
  {
  }

  /** `[x for x in s if keep(x)]`. */
  function Filter<T(!new)>(s: seq<T>, keep: T -> bool): (r: seq<T>)
    ensures |r| <= |s|
  {
    if s == [] then []
    else
      var init, last := s[..|s| - 1], s[|s| - 1];
      assert s == init + [last];
      Filter(init, keep) + (if keep(last) then [last] else [])
  }

  /** The filter keeps only elements of `s` that satisfy `keep`. */
  lemma {:induction false} FilterMembers<T(!new)>(s: seq<T>, keep: T -> bool)
    ensures forall x :: x in Filter(s, keep) ==> x in s && keep(x)
  {
    if s != [] {
      var init, last := s[..|s| - 1], s[|s| - 1];
      assert s == init + [last];
      FilterMembers(init, keep);
    }
  }

  /** The filter keeps every kept element as often as it occurs, and nothing else. */
  lemma {:induction false} FilterCounts<T(!new)>(s: seq<T>, keep: T -> bool, x: T)
    ensures multiset(Filter(s, keep))[x] == if keep(x) then multiset(s)[x] else 0
  {
    if s != [] {
      var init, last := s[..|s| - 1], s[|s| - 1];
      assert s == init + [last];
      FilterCounts(init, keep, x);
    }
  }

  /** The opposite of a condition, `not keep(x)`. */
  function Not<T>(keep: T -> bool): T -> bool
  {
    x => !keep(x)
  }

  /** Filtering by a condition and by its opposite splits a sequence into two parts, losing nothing. */
  lemma FilterPartition<T(!new)>(s: seq<T>, keep: T -> bool)
    ensures multiset(Filter(s, keep)) + multiset(Filter(s, Not(keep))) == multiset(s)
    ensures |Filter(s, keep)| + |Filter(s, Not(keep))| == |s|
  {
    forall x ensures (multiset(Filter(s, keep)) + multiset(Filter(s, Not(keep))))[x] == multiset(s)[x] {
      FilterCounts(s, keep, x);
      FilterCounts(s, Not(keep), x);
    }
    assert multiset(Filter(s, keep)) + multiset(Filter(s, Not(keep))) == multiset(s);
    assert |multiset(Filter(s, keep)) + multiset(Filter(s, Not(keep)))| == |multiset(s)|;
  }

  lemma {:induction false} FilterAppend<T(!new)>(a: seq<T>, b: seq<T>, keep: T -> bool)
    ensures Filter(a + b, keep) == Filter(a, keep) + Filter(b, keep)
  {
    if b == [] {
      assert a + b == a;
    } else {
      var init, last := b[..|b| - 1], b[|b| - 1];
      assert (a + b)[..|a + b| - 1] == a + init;
      assert (a + b)[|a + b| - 1] == last;
      FilterAppend(a, init, keep);
      assert Filter(a + b, keep) == Filter(a + init, keep) + (if keep(last) then [last] else []);
    }
  }

  lemma FilterSingleton<T(!new)>(x: T, keep: T -> bool)
    ensures Filter([x], keep) == if keep(x) then [x] else []
  {
    assert [x][..0] == [];
  }

  lemma {:induction false} FilterNone<T(!new)>(s: seq<T>, keep: T -> bool)
    requires forall x :: x in s ==> !keep(x)
    ensures Filter(s, keep) == []
  {
    if s != [] {
      var init := s[..|s| - 1];
      assert forall x :: x in init ==> x in s;
      FilterNone(init, keep);
    }
  }

  lemma {:induction false} FilterAll<T(!new)>(s: seq<T>, keep: T -> bool)
    requires forall x :: x in s ==> keep(x)
    ensures Filter(s, keep) == s
  {
    if s != [] {
      var init, last := s[..|s| - 1], s[|s| - 1];
      assert s == init + [last];
      assert last in s;
      FilterAll(init, keep);
    }
  }

  /** Filtering a filtered sequence by a stronger condition is filtering once. */
  lemma {:induction false} FilterOfFilter<T(!new)>(s: seq<T>, outer: T -> bool, inner: T -> bool)
    requires forall x :: inner(x) ==> outer(x)
    ensures Filter(Filter(s, outer), inner) == Filter(s, inner)
  {
    if s != [] {
      var init, last := s[..|s| - 1], s[|s| - 1];
      FilterOfFilter(init, outer, inner);
      FilterAppend(Filter(init, outer), if outer(last) then [last] else [], inner);
    }
  }

  /** Filtering a filtered sequence by a disjoint condition leaves nothing. */
  lemma FilterOfFilterDisjoint<T(!new)>(s: seq<T>, outer: T -> bool, inner: T -> bool)
    requires forall x :: inner(x) ==> !outer(x)
    ensures Filter(Filter(s, outer), inner) == []
  {
    FilterMembers(s, outer);
    FilterNone(Filter(s, outer), inner);
  }

  ghost predicate SortedBy<T>(s: seq<T>, key: T -> int)
  {
    forall i, j :: 0 <= i < j < |s| ==> key(s[i]) <= key(s[j])
  }

  lemma {:induction false} FilterKeepsSorted<T(!new)>(s: seq<T>, keep: T -> bool, key: T -> int)
    requires SortedBy(s, key)
    ensures SortedBy(Filter(s, keep), key)
  {
    if s != [] {
      var init, last := s[..|s| - 1], s[|s| - 1];
      FilterKeepsSorted(init, keep, key);
      var f := Filter(init, keep);
      FilterMembers(init, keep);
      forall x | x in f ensures key(x) <= key(last) {
        var k :| 0 <= k < |init| && init[k] == x;
        assert s[k] == x;
      }
    }
  }

  /** The predicate "has key p", the condition under which a sort must keep input order. */
  function KeyIs<T>(key: T -> int, p: int): T -> bool
  {
    x => key(x) == p
  }

  /**
   * Inserts `x` into `t` just before the first element whose key is
   * greater than `x`'s: after every element with an equal key.
   */
  function Insert<T>(t: seq<T>, x: T, key: T -> int): (r: seq<T>)
    ensures multiset(r) == multiset(t) + multiset{x}
  {
    if t == [] then [x]
    else if key(x) < key(t[0]) then [x] + t
    else
      assert t == [t[0]] + t[1..];
      [t[0]] + Insert(t[1..], x, key)
  }

  lemma InsertMembers<T>(t: seq<T>, x: T, key: T -> int)
    ensures forall y :: y in Insert(t, x, key) ==> y in t || y == x
  {
    forall y | y in Insert(t, x, key) ensures y in t || y == x {
      assert y in multiset(Insert(t, x, key));
    }
  }

  /** Putting in front an element no greater than any other keeps a sequence sorted. */
  lemma PrependKeepsSorted<T>(x: T, t: seq<T>, key: T -> int)
    requires SortedBy(t, key)
    requires forall y :: y in t ==> key(x) <= key(y)
    ensures SortedBy([x] + t, key)
  {
    var r := [x] + t;
    forall i, j | 0 <= i < j < |r| ensures key(r[i]) <= key(r[j]) {
      assert r[j] == t[j - 1];
      if i == 0 {
        assert t[j - 1] in t;
      } else {
        assert r[i] == t[i - 1];
      }
    }
  }

  lemma {:induction false} InsertKeepsSorted<T>(t: seq<T>, x: T, key: T -> int)
    requires SortedBy(t, key)
    ensures SortedBy(Insert(t, x, key), key)
  {
    if t != [] {
      SortedTail(t, key);
      if key(x) < key(t[0]) {
        PrependKeepsSorted(x, t, key);
      } else {
        var tail := t[1..];
        assert t == [t[0]] + tail;
        InsertKeepsSorted(tail, x, key);
        InsertMembers(tail, x, key);
        var rest := Insert(tail, x, key);
        forall y | y in rest ensures key(t[0]) <= key(y) {
          if y != x {
            assert y in t;
          }
        }
        PrependKeepsSorted(t[0], rest, key);
      }
    }
  }

  lemma SortedTail<T>(t: seq<T>, key: T -> int)
    requires t != [] && SortedBy(t, key)
    ensures SortedBy(t[1..], key)
    ensures forall y :: y in t ==> key(t[0]) <= key(y)
  {
    var tail := t[1..];
    forall i, j | 0 <= i < j < |tail| ensures key(tail[i]) <= key(tail[j]) {
      assert tail[i] == t[i + 1] && tail[j] == t[j + 1];
    }
    forall y | y in t ensures key(t[0]) <= key(y) {
      var k :| 0 <= k < |t| && t[k] == y;
    }
  }

  /**
   * Inserting into a sorted sequence keeps, among the elements with any one
   * key, the order they had, and puts `x` last among those with its key.
   */
  lemma {:induction false} InsertIsStable<T(!new)>(t: seq<T>, x: T, key: T -> int, p: int)
    requires SortedBy(t, key)
    ensures Filter(Insert(t, x, key), KeyIs(key, p))
         == Filter(t, KeyIs(key, p)) + Filter([x], KeyIs(key, p))
  {
    var same := KeyIs(key, p);
    FilterSingleton(x, same);
    if t == [] {
      assert Filter([], same) == [];
    } else {
      SortedTail(t, key);
      if key(x) < key(t[0]) {
        FilterAppend([x], t, same);
        if key(x) == p {
          FilterNone(t, same);
        }
      } else {
        var tail := t[1..];
        assert [t[0]] + tail == t;
        calc {
          Filter(Insert(t, x, key), same);
          { assert Insert(t, x, key) == [t[0]] + Insert(tail, x, key); }
          Filter([t[0]] + Insert(tail, x, key), same);
          { FilterAppend([t[0]], Insert(tail, x, key), same); }
          Filter([t[0]], same) + Filter(Insert(tail, x, key), same);
          { InsertIsStable(tail, x, key, p); }
          Filter([t[0]], same) + (Filter(tail, same) + Filter([x], same));
          (Filter([t[0]], same) + Filter(tail, same)) + Filter([x], same);
          { FilterAppend([t[0]], tail, same); }
          Filter(t, same) + Filter([x], same);
        }
      }
    }
  }

  /** Python's `sorted(s, key=key)`: a stable insertion sort. */
  function SortBy<T>(s: seq<T>, key: T -> int): (r: seq<T>)
    ensures multiset(r) == multiset(s)
  {
    if s == [] then []
    else
      var init, last := s[..|s| - 1], s[|s| - 1];
      assert s == init + [last];
      Insert(SortBy(init, key), last, key)
  }

  lemma {:induction false} SortByIsSorted<T>(s: seq<T>, key: T -> int)
    ensures SortedBy(SortBy(s, key), key)
  {
    if s != [] {
      SortByIsSorted(s[..|s| - 1], key);
      InsertKeepsSorted(SortBy(s[..|s| - 1], key), s[|s| - 1], key);
    }
  }

  /** Stability: elements with equal keys come out in input order. */
  lemma {:induction false} SortByIsStable<T(!new)>(s: seq<T>, key: T -> int, p: int)
    ensures Filter(SortBy(s, key), KeyIs(key, p)) == Filter(s, KeyIs(key, p))
  {
    if s != [] {
      var init, last := s[..|s| - 1], s[|s| - 1];
      SortByIsSorted(init, key);
      SortByIsStable(init, key, p);
      InsertIsStable(SortBy(init, key), last, key, p);
      assert Filter([last], KeyIs(key, p)) == Filter([], KeyIs(key, p)) + (if KeyIs(key, p)(last) then [last] else []);
    }
  }
}
