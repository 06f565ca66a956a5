/** The parts of JavaScript's array library the dashboard pages rely on:
    `filter`, de-duplication through a `Set`, `reduce`-style folds and the
    stable `sort` of ECMAScript 2019 and later. */
module Seqs {

  datatype Option<+T> = None | Some(value: T) {
    /** `x ?? d` */
    function GetOr(default: T): T {
      match this
      case Some(v) => v
      case None => default
    }
  }

  /** Array.prototype.filter: the elements of s that satisfy p, in their original order. */
  function Filter<T(==,!new)>(s: seq<T>, p: T -> bool): (r: seq<T>)
    ensures |r| <= |s|
    ensures forall i :: 0 <= i < |r| ==> p(r[i])
    ensures forall x :: x in r <==> x in s && p(x)
  {
    if s == [] then []
    else if p(s[0]) then [s[0]] + Filter(s[1..], p)
    else Filter(s[1..], p)
  }

  /** Two filters that no element passes both keep at most |s| elements
      between them. */
  lemma {:induction false} FilterDisjoint<T(!new)>(s: seq<T>, p: T -> bool, q: T -> bool)
    requires forall x :: !(p(x) && q(x))
    ensures |Filter(s, p)| + |Filter(s, q)| <= |s|
  {
    if s != [] {
      FilterDisjoint(s[1..], p, q);
    }
  }

  lemma {:induction false} FilterAppend<T(!new)>(a: seq<T>, b: seq<T>, p: T -> bool)
    ensures Filter(a + b, p) == Filter(a, p) + Filter(b, p)
  {
    if a == [] {
      assert a + b == b;
    } else {
      assert (a + b)[0] == a[0];
      assert (a + b)[1..] == a[1..] + b;
      FilterAppend(a[1..], b, p);
    }
  }

  /** A filter whose predicate holds everywhere returns its input unchanged. */
  lemma {:induction false} FilterKeepsAll<T(!new)>(s: seq<T>, p: T -> bool)
    requires forall i :: 0 <= i < |s| ==> p(s[i])
    ensures Filter(s, p) == s
  {
    if s != [] {
      FilterKeepsAll(s[1..], p);
      assert s == [s[0]] + s[1..];
    }
  }

  /** A filter whose predicate holds nowhere returns nothing. */
  lemma {:induction false} FilterKeepsNone<T(!new)>(s: seq<T>, p: T -> bool)
    requires forall i :: 0 <= i < |s| ==> !p(s[i])
    ensures Filter(s, p) == []
  {
    if s != [] {
      FilterKeepsNone(s[1..], p);
    }
  }

  /** Two predicates that agree everywhere filter alike. */
  lemma {:induction false} FilterAgree<T(!new)>(s: seq<T>, p: T -> bool, q: T -> bool)
    requires forall x :: p(x) == q(x)
    ensures Filter(s, p) == Filter(s, q)
  {
    if s != [] {
      FilterAgree(s[1..], p, q);
    }
  }

  /** Filtering twice is filtering once by the conjunction r of the two. */
  lemma {:induction false} FilterTwice<T(!new)>(s: seq<T>, p: T -> bool, q: T -> bool, r: T -> bool)
    requires forall x :: r(x) == (p(x) && q(x))
    ensures Filter(Filter(s, p), q) == Filter(s, r)
  {
    if s != [] {
      FilterTwice(s[1..], p, q, r);
      if p(s[0]) {
        var t := Filter(s[1..], p);
        assert ([s[0]] + t)[0] == s[0];
        assert ([s[0]] + t)[1..] == t;
      }
    }
  }

  /** Filtering keeps the relative order of what it keeps. */
  lemma {:induction false} FilterKeepsOrder<T(!new)>(s: seq<T>, p: T -> bool, rank: T -> int)
    requires forall i, j :: 0 <= i < j < |s| ==> rank(s[i]) < rank(s[j])
    ensures forall i, j :: 0 <= i < j < |Filter(s, p)| ==> rank(Filter(s, p)[i]) < rank(Filter(s, p)[j])
  {
    if s != [] {
      FilterKeepsOrder(s[1..], p, rank);
      var t := Filter(s[1..], p);
      forall y | y in t
        ensures rank(s[0]) < rank(y)
      {
        var k :| 0 <= k < |s[1..]| && s[1..][k] == y;
        assert s[k + 1] == y;
      }
    }
  }

  /** A prefix one longer is the prefix and the next element. */
  lemma PrefixSnoc<T>(s: seq<T>, i: nat)
    requires i < |s|
    ensures s[..i + 1] == s[..i] + [s[i]]
  {
  }

  predicate NoDuplicates<T(==,!new)>(s: seq<T>) {
    forall i, j :: 0 <= i < j < |s| ==> s[i] != s[j]
  }

  /** `[...new Set(s)]`: every element of s once, in order of first occurrence
      (see DistinctInFirstOccurrenceOrder). */
  function Distinct<T(==,!new)>(s: seq<T>): (r: seq<T>)
    ensures NoDuplicates(r)
    ensures forall x :: x in r <==> x in s
  {
    if s == [] then []
    else
      var d := Distinct(s[..|s| - 1]);
      if s[|s| - 1] in d then d else d + [s[|s| - 1]]
  }

  /** Array.prototype.indexOf, with |s| standing for "absent" rather than -1. */
  function FirstIndex<T(==,!new)>(s: seq<T>, x: T): (i: nat)
    ensures i <= |s|
    ensures i < |s| <==> x in s
    ensures i < |s| ==> s[i] == x
    ensures forall k :: 0 <= k < i ==> s[k] != x
  {
    if s == [] then 0 else if s[0] == x then 0 else 1 + FirstIndex(s[1..], x)
  }

  lemma {:induction false} FirstIndexSnoc<T(!new)>(s: seq<T>, y: T, x: T)
    requires x in s
    ensures FirstIndex(s + [y], x) == FirstIndex(s, x)
  {
    if s[0] != x {
      assert (s + [y])[1..] == s[1..] + [y];
      FirstIndexSnoc(s[1..], y, x);
    }
  }

  lemma {:induction false} DistinctInFirstOccurrenceOrder<T(!new)>(s: seq<T>)
    ensures forall i, j :: 0 <= i < j < |Distinct(s)| ==>
      FirstIndex(s, Distinct(s)[i]) < FirstIndex(s, Distinct(s)[j])
  {
    if s != [] {
      var p, x := s[..|s| - 1], s[|s| - 1];
      assert s == p + [x];
      DistinctInFirstOccurrenceOrder(p);
      var d := Distinct(p);
      forall y | y in d
        ensures FirstIndex(s, y) == FirstIndex(p, y)
      {
        FirstIndexSnoc(p, x, y);
      }
      if x !in d {
        assert FirstIndex(s, x) == |p| by {
          assert forall k :: 0 <= k < |p| ==> s[k] == p[k];
        }
        assert Distinct(s) == d + [x];
      }
    }
  }

  /** `.filter(Boolean)` over optional values: the present ones, in order. */
  function Somes<T(==,!new)>(s: seq<Option<T>>): (r: seq<T>)
    ensures forall x :: x in r <==> Some(x) in s
  {
    if s == [] then []
    else
      var p := Somes(s[..|s| - 1]);
      match s[|s| - 1]
      case None => p
      case Some(x) => p + [x]
  }

  /** Dropping the absent values keeps a list free of duplicates. */
  lemma {:induction false} SomesNoDuplicates<T(!new)>(s: seq<Option<T>>)
    requires NoDuplicates(s)
    ensures NoDuplicates(Somes(s))
  {
    if s != [] {
      var p := s[..|s| - 1];
      assert NoDuplicates(p) by {
        assert forall i :: 0 <= i < |p| ==> p[i] == s[i];
      }
      SomesNoDuplicates(p);
      if s[|s| - 1].Some? {
        var x := s[|s| - 1].value;
        assert Some(x) !in p by {
          assert forall i :: 0 <= i < |p| ==> p[i] == s[i];
        }
        assert Somes(s) == Somes(p) + [x];
      }
    }
  }

  /** Elements ascending in key; the order `SortBy` produces. */
  predicate Ascending<T>(s: seq<T>, key: T -> real) {
    forall i, j :: 0 <= i < j < |s| ==> key(s[i]) <= key(s[j])
  }

  /** Inserts x in front of the first element whose key is not below x's:
      x goes before the equal keys, which came after it in the input. */
  function InsertBy<T(==,!new)>(x: T, t: seq<T>, key: T -> real): (r: seq<T>)
    ensures |r| == |t| + 1
    ensures multiset(r) == multiset(t) + multiset{x}
  {
    if t == [] || key(x) <= key(t[0]) then [x] + t
    else
      assert t == [t[0]] + t[1..];
      [t[0]] + InsertBy(x, t[1..], key)
  }

  lemma InsertByMember<T(!new)>(x: T, t: seq<T>, key: T -> real, y: T)
    requires y in InsertBy(x, t, key)
    ensures y == x || y in t
  {
    assert y in multiset(InsertBy(x, t, key));
  }

  lemma AscendingCons<T>(a: T, rest: seq<T>, key: T -> real)
    requires Ascending(rest, key)
    requires forall y :: y in rest ==> key(a) <= key(y)
    ensures Ascending([a] + rest, key)
  {
    var r := [a] + rest;
    forall i, j | 0 <= i < j < |r|
      ensures key(r[i]) <= key(r[j])
    {
      assert r[j] == rest[j - 1];
      if i > 0 {
        assert r[i] == rest[i - 1];
      }
    }
  }

  lemma {:induction false} InsertByAscending<T(!new)>(x: T, t: seq<T>, key: T -> real)
    requires Ascending(t, key)
    ensures Ascending(InsertBy(x, t, key), key)
  {
    if t == [] || key(x) <= key(t[0]) {
      forall y | y in t ensures key(x) <= key(y) {
        var k :| 0 <= k < |t| && t[k] == y;
      }
      AscendingCons(x, t, key);
    } else {
      var rest := InsertBy(x, t[1..], key);
      InsertByAscending(x, t[1..], key);
      forall y | y in rest
        ensures key(t[0]) <= key(y)
      {
        InsertByMember(x, t[1..], key, y);
        if y != x {
          var k :| 0 <= k < |t[1..]| && t[1..][k] == y;
          assert t[k + 1] == y;
        }
      }
      AscendingCons(t[0], rest, key);
    }
  }

  /** Array.prototype.sort with the comparator `(a, b) => key(a) - key(b)`:
      a stable insertion sort, ascending in key. */
  function SortBy<T(==,!new)>(s: seq<T>, key: T -> real): (r: seq<T>)
    ensures |r| == |s|
    ensures multiset(r) == multiset(s)
  {
    if s == [] then []
    else
      assert s == [s[0]] + s[1..];
      InsertBy(s[0], SortBy(s[1..], key), key)
  }

  /** p holds only of elements that share one key. */
  ghost predicate OneKey<T(!new)>(p: T -> bool, key: T -> real) {
    forall a, b :: p(a) && p(b) ==> key(a) == key(b)
  }

  lemma {:induction false} InsertByStable<T(!new)>(x: T, t: seq<T>, key: T -> real, p: T -> bool)
    requires OneKey(p, key)
    ensures Filter(InsertBy(x, t, key), p) == Filter([x], p) + Filter(t, p)
  {
    if t == [] || key(x) <= key(t[0]) {
      FilterAppend([x], t, p);
    } else {
      var rest := InsertBy(x, t[1..], key);
      assert InsertBy(x, t, key) == [t[0]] + rest;
      InsertByStable(x, t[1..], key, p);
      FilterAppend([t[0]], rest, p);
      FilterAppend([t[0]], t[1..], p);
      assert t == [t[0]] + t[1..];
      SingletonsCommute(x, t[0], p);
    }
  }

  lemma SingletonsCommute<T(!new)>(x: T, y: T, p: T -> bool)
    requires !(p(x) && p(y))
    ensures Filter([x], p) + Filter([y], p) == Filter([y], p) + Filter([x], p)
  {
    assert Filter([x], p) == (if p(x) then [x] else []);
    assert Filter([y], p) == (if p(y) then [y] else []);
  }

  /** Stability: elements of equal key leave the sort in the order they
      entered it. Filtering by any p that holds only within one key gives
      the same before and after. */
  lemma {:induction false} SortByStable<T(!new)>(s: seq<T>, key: T -> real, p: T -> bool)
    requires OneKey(p, key)
    ensures Filter(SortBy(s, key), p) == Filter(s, p)
  {
    if s != [] {
      SortByStable(s[1..], key, p);
      InsertByStable(s[0], SortBy(s[1..], key), key, p);
      FilterAppend([s[0]], s[1..], p);
      assert s == [s[0]] + s[1..];
    }
  }

  lemma SortByMember<T(!new)>(s: seq<T>, key: T -> real, x: T)
    requires x in SortBy(s, key)
    ensures x in s
  {
    assert x in multiset(SortBy(s, key));
  }

  lemma {:induction false} SortByAscending<T(!new)>(s: seq<T>, key: T -> real)
    ensures Ascending(SortBy(s, key), key)
  {
    if s != [] {
      SortByAscending(s[1..], key);
      InsertByAscending(s[0], SortBy(s[1..], key), key);
    }
  }

  /** The index of the earliest element of least key. */
  function FirstMinIndex<T>(s: seq<T>, key: T -> real): (j: nat)
    requires s != []
    ensures j < |s|
  {
    if |s| == 1 then 0
    else
      var j' := FirstMinIndex(s[1..], key);
      if key(s[0]) <= key(s[j' + 1]) then 0 else j' + 1
  }

  lemma {:induction false} FirstMinIndexIsFirstMinimum<T>(s: seq<T>, key: T -> real)
    requires s != []
    ensures forall i :: 0 <= i < |s| ==> key(s[FirstMinIndex(s, key)]) <= key(s[i])
    ensures forall i :: 0 <= i < FirstMinIndex(s, key) ==> key(s[FirstMinIndex(s, key)]) < key(s[i])
  {
    if |s| > 1 {
      var j' := FirstMinIndex(s[1..], key);
      FirstMinIndexIsFirstMinimum(s[1..], key);
      var m := s[j' + 1];
      assert forall i :: 1 <= i < |s| ==> key(m) <= key(s[i]) by {
        forall i | 1 <= i < |s| ensures key(m) <= key(s[i]) {
          assert s[i] == s[1..][i - 1];
        }
      }
      if key(s[0]) > key(m) {
        assert forall i :: 1 <= i < j' + 1 ==> key(m) < key(s[i]) by {
          forall i | 1 <= i < j' + 1 ensures key(m) < key(s[i]) {
            assert s[i] == s[1..][i - 1];
          }
        }
      }
    }
  }

  /** The head of a stable sort is the earliest element of least key. */
  lemma {:induction false} SortByHead<T(!new)>(s: seq<T>, key: T -> real)
    requires s != []
    ensures SortBy(s, key)[0] == s[FirstMinIndex(s, key)]
  {
    if |s| > 1 {
      SortByHead(s[1..], key);
      var t := SortBy(s[1..], key);
      assert SortBy(s, key) == InsertBy(s[0], t, key);
      assert s[1..][FirstMinIndex(s[1..], key)] == s[FirstMinIndex(s[1..], key) + 1];
    }
  }

  /** Somes keeps the relative order of the values it keeps. */
  lemma {:induction false} SomesKeepsOrder<T(!new)>(s: seq<Option<T>>, rank: Option<T> -> int)
    requires forall i, j :: 0 <= i < j < |s| ==> rank(s[i]) < rank(s[j])
    ensures forall i, j :: 0 <= i < j < |Somes(s)| ==> rank(Some(Somes(s)[i])) < rank(Some(Somes(s)[j]))
  {
    if s != [] {
      var p := s[..|s| - 1];
      SomesKeepsOrder(p, rank);
      if s[|s| - 1].Some? {
        var r := Somes(p);
        forall y | y in r
          ensures rank(Some(y)) < rank(s[|s| - 1])
        {
          var k :| 0 <= k < |p| && p[k] == Some(y);
          assert s[k] == Some(y);
        }
        assert Somes(s) == r + [s[|s| - 1].value];
      }
    }
  }

  /** Array.prototype.map. */
  function Map<T, U>(s: seq<T>, f: T -> U): (r: seq<U>)
    ensures |r| == |s|
    ensures forall i :: 0 <= i < |s| ==> r[i] == f(s[i])
  {
    seq(|s|, i requires 0 <= i < |s| => f(s[i]))
  }

  /** `s.reduce((acc, x) => acc + w(x), 0)` for whole-number weights. */
  function Sum<T>(s: seq<T>, w: T -> nat): (total: nat)
    ensures total == 0 <==> forall i :: 0 <= i < |s| ==> w(s[i]) == 0
  {
    if s == [] then 0 else w(s[0]) + Sum(s[1..], w)
  }

  lemma {:induction false} SumAppend<T>(a: seq<T>, b: seq<T>, w: T -> nat)
    ensures Sum(a + b, w) == Sum(a, w) + Sum(b, w)
  {
    if a == [] {
      assert a + b == b;
    } else {
      assert (a + b)[1..] == a[1..] + b;
      SumAppend(a[1..], b, w);
    }
  }

  lemma {:induction false} SumInsertBy<T(!new)>(x: T, t: seq<T>, key: T -> real, w: T -> nat)
    ensures Sum(InsertBy(x, t, key), w) == w(x) + Sum(t, w)
  {
    if t != [] && key(x) > key(t[0]) {
      SumInsertBy(x, t[1..], key, w);
    }
  }

  /** Sorting does not change a sum. */
  lemma {:induction false} SumSortBy<T(!new)>(s: seq<T>, key: T -> real, w: T -> nat)
    ensures Sum(SortBy(s, key), w) == Sum(s, w)
  {
    if s != [] {
      SumSortBy(s[1..], key, w);
      SumInsertBy(s[0], SortBy(s[1..], key), key, w);
    }
  }

  /** The elements of s that f files under k, in order. */
  function Group<T(==,!new), K(==)>(s: seq<T>, f: T -> K, k: K): (g: seq<T>)
    ensures forall x :: x in g <==> x in s && f(x) == k
  {
    Filter(s, x => f(x) == k)
  }

  lemma GroupAppend<T(!new), K>(a: seq<T>, b: seq<T>, f: T -> K, k: K)
    ensures Group(a + b, f, k) == Group(a, f, k) + Group(b, f, k)
  {
    FilterAppend(a, b, x => f(x) == k);
  }

  lemma GroupSingleton<T(!new), K>(x: T, f: T -> K, k: K)
    ensures Group([x], f, k) == if f(x) == k then [x] else []
  {
    assert [x][1..] == [];
  }

  /** The keys f gives the elements of s, once each, in order of first use. */
  function GroupKeys<T, K(==,!new)>(s: seq<T>, f: T -> K): (keys: seq<K>)
    ensures NoDuplicates(keys)
    ensures forall k :: k in keys <==> exists i :: 0 <= i < |s| && f(s[i]) == k
  {
    var m := Map(s, f);
    assert forall k :: k in m <==> exists i :: 0 <= i < |s| && f(s[i]) == k by {
      forall k ensures k in m ==> exists i :: 0 <= i < |s| && f(s[i]) == k {
        if k in m {
          var i :| 0 <= i < |m| && m[i] == k;
        }
      }
    }
    Distinct(m)
  }

  /** The summed weights of the groups named by keys. */
  function GroupsSum<T(==,!new), K(==)>(s: seq<T>, f: T -> K, w: T -> nat, keys: seq<K>): nat {
    if keys == [] then 0 else Sum(Group(s, f, keys[0]), w) + GroupsSum(s, f, w, keys[1..])
  }

  lemma {:induction false} GroupsSumAppendKey<T(!new), K>(s: seq<T>, f: T -> K, w: T -> nat, keys: seq<K>, k: K)
    ensures GroupsSum(s, f, w, keys + [k]) == GroupsSum(s, f, w, keys) + Sum(Group(s, f, k), w)
  {
    if keys == [] {
      assert keys + [k] == [k];
    } else {
      assert (keys + [k])[1..] == keys[1..] + [k];
      GroupsSumAppendKey(s, f, w, keys[1..], k);
    }
  }

  /** One more element adds its weight to the one group it falls in, if that
      group is among keys. */
  lemma {:induction false} GroupsSumAppendElement<T(!new), K(!new)>(s: seq<T>, x: T, f: T -> K, w: T -> nat, keys: seq<K>)
    requires NoDuplicates(keys)
    ensures GroupsSum(s + [x], f, w, keys) == GroupsSum(s, f, w, keys) + (if f(x) in keys then w(x) else 0)
  {
    if keys != [] {
      var k, rest := keys[0], keys[1..];
      GroupSumAppendElement(s, x, f, w, k);
      NoDuplicatesTail(keys);
      GroupsSumAppendElement(s, x, f, w, rest);
      WeightSplit(keys, f(x), w(x));
      assert GroupsSum(s + [x], f, w, keys) == Sum(Group(s + [x], f, k), w) + GroupsSum(s + [x], f, w, rest);
      assert GroupsSum(s, f, w, keys) == Sum(Group(s, f, k), w) + GroupsSum(s, f, w, rest);
    }
  }

  /** A weight counted once for a list of distinct keys is counted for its
      head or for its rest, not both. */
  lemma WeightSplit<K>(keys: seq<K>, y: K, v: nat)
    requires keys != [] && keys[0] !in keys[1..]
    ensures (if y in keys then v else 0) == (if y == keys[0] then v else 0) + (if y in keys[1..] then v else 0)
  {
    assert keys == [keys[0]] + keys[1..];
  }

  /** One more element adds its weight to its own group and nothing to the
      others. */
  lemma GroupSumAppendElement<T(!new), K>(s: seq<T>, x: T, f: T -> K, w: T -> nat, k: K)
    ensures Sum(Group(s + [x], f, k), w) == Sum(Group(s, f, k), w) + (if f(x) == k then w(x) else 0)
  {
    GroupAppend(s, [x], f, k);
    GroupSingleton(x, f, k);
    SumAppend(Group(s, f, k), Group([x], f, k), w);
  }

  /** Dropping the head keeps a sequence free of duplicates, and the head
      does not occur in the rest. */
  lemma NoDuplicatesTail<T(!new)>(s: seq<T>)
    requires s != [] && NoDuplicates(s)
    ensures NoDuplicates(s[1..]) && s[0] !in s[1..]
  {
    forall i, j | 0 <= i < j < |s[1..]| ensures s[1..][i] != s[1..][j] {
      assert s[1..][i] == s[i + 1] && s[1..][j] == s[j + 1];
    }
    forall i | 0 <= i < |s[1..]| ensures s[1..][i] != s[0] {
      assert s[1..][i] == s[i + 1];
    }
  }


  /** The group of a key no earlier element has holds just the new element. */
  lemma GroupOfNewKey<T(!new), K(!new)>(p: seq<T>, x: T, f: T -> K)
    requires f(x) !in GroupKeys(p, f)
    ensures Group(p + [x], f, f(x)) == [x]
  {
    GroupAppend(p, [x], f, f(x));
    GroupSingleton(x, f, f(x));
    FilterKeepsNone(p, y => f(y) == f(x));
  }

  /** Grouping partitions: the groups' weights add up to the whole. */
  lemma {:induction false} GroupsPartition<T(!new), K(!new)>(s: seq<T>, f: T -> K, w: T -> nat)
    ensures GroupsSum(s, f, w, GroupKeys(s, f)) == Sum(s, w)
  {
    if s == [] {
      assert GroupKeys(s, f) == [];
    } else {
      var p, x := s[..|s| - 1], s[|s| - 1];
      assert s == p + [x];
      GroupsPartition(p, f, w);
      var keys := GroupKeys(p, f);
      SumAppend(p, [x], w);
      assert Map(s, f) == Map(p, f) + [f(x)];
      GroupsSumAppendElement(p, x, f, w, keys);
      if f(x) !in keys {
        assert GroupKeys(s, f) == keys + [f(x)];
        GroupsSumAppendKey(s, f, w, keys, f(x));
        GroupOfNewKey(p, x, f);
      } else {
        assert GroupKeys(s, f) == keys;
      }
    }
  }
}
