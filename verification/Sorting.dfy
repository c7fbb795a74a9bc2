/** The stable sort and the two-way merge that order-sensitive relations denote. */
module Sorting {
  import opened Values
  import opened Sequences

  ghost predicate Sorted<T(!new)>(key: T -> Key, desc: bool, s: seq<T>) {
    forall i, j :: 0 <= i < j < |s| ==> InOrder(desc, key(s[i]), key(s[j]))
  }

  function Insert<T>(key: T -> Key, desc: bool, x: T, s: seq<T>): seq<T> {
    if s == [] || InOrder(desc, key(x), key(s[0])) then [x] + s
    else [s[0]] + Insert(key, desc, x, s[1..])
  }

  function Sort<T>(key: T -> Key, desc: bool, s: seq<T>): seq<T> {
    if s == [] then [] else Insert(key, desc, s[0], Sort(key, desc, s[1..]))
  }

  /** Two-way merge; on equal keys the left row goes first. */
  function Merge<T>(key: T -> Key, desc: bool, a: seq<T>, b: seq<T>): seq<T>
    decreases |a| + |b|
  {
    if a == [] then b
    else if b == [] then a
    else if InOrder(desc, key(a[0]), key(b[0])) then [a[0]] + Merge(key, desc, a[1..], b)
    else [b[0]] + Merge(key, desc, a, b[1..])
  }

  // --- permutation and sortedness ---

  lemma MultisetCons<T>(s: seq<T>)
    requires s != []
    ensures multiset(s) == multiset{s[0]} + multiset(s[1..])
  {
    assert s == [s[0]] + s[1..];
  }

  lemma {:induction false} InsertMultiset<T(!new)>(key: T -> Key, desc: bool, x: T, s: seq<T>)
    ensures multiset(Insert(key, desc, x, s)) == multiset{x} + multiset(s)
  {
    if s != [] && !InOrder(desc, key(x), key(s[0])) {
      InsertMultiset(key, desc, x, s[1..]);
      assert s == [s[0]] + s[1..];
    }
  }

  lemma {:induction false} SortMultiset<T(!new)>(key: T -> Key, desc: bool, s: seq<T>)
    ensures multiset(Sort(key, desc, s)) == multiset(s)
    ensures |Sort(key, desc, s)| == |s|
  {
    if s != [] {
      SortMultiset(key, desc, s[1..]);
      InsertMultiset(key, desc, s[0], Sort(key, desc, s[1..]));
      assert s == [s[0]] + s[1..];
    }
    assert |multiset(Sort(key, desc, s))| == |multiset(s)|;
  }

  lemma SortMembers<T(!new)>(key: T -> Key, desc: bool, s: seq<T>)
    ensures forall x :: x in Sort(key, desc, s) <==> x in s
  {
    SortMultiset(key, desc, s);
    forall x ensures x in Sort(key, desc, s) <==> x in s {
      assert x in Sort(key, desc, s) <==> x in multiset(Sort(key, desc, s));
      assert x in s <==> x in multiset(s);
    }
  }

  lemma {:induction false} MergeMultiset<T(!new)>(key: T -> Key, desc: bool, a: seq<T>, b: seq<T>)
    ensures multiset(Merge(key, desc, a, b)) == multiset(a) + multiset(b)
    decreases |a| + |b|
  {
    if a != [] && b != [] {
      if InOrder(desc, key(a[0]), key(b[0])) {
        MergeMultiset(key, desc, a[1..], b);
        MultisetCons(a);
      } else {
        MergeMultiset(key, desc, a, b[1..]);
        MultisetCons(b);
      }
    }
  }

  lemma MergeMembers<T(!new)>(key: T -> Key, desc: bool, a: seq<T>, b: seq<T>)
    ensures forall x :: x in Merge(key, desc, a, b) <==> x in a || x in b
  {
    MergeMultiset(key, desc, a, b);
    forall x ensures x in Merge(key, desc, a, b) <==> x in a || x in b {
      assert x in Merge(key, desc, a, b) <==> x in multiset(Merge(key, desc, a, b));
    }
  }

  /** Putting a row in front of a sorted sequence needs only a comparison with every row behind it. */
  lemma SortedCons<T(!new)>(key: T -> Key, desc: bool, x: T, s: seq<T>)
    requires Sorted(key, desc, s)
    requires forall y :: y in s ==> InOrder(desc, key(x), key(y))
    ensures Sorted(key, desc, [x] + s)
  {
  }

  lemma SortedHead<T(!new)>(key: T -> Key, desc: bool, s: seq<T>)
    requires s != [] && Sorted(key, desc, s)
    ensures Sorted(key, desc, s[1..])
    ensures forall y :: y in s ==> InOrder(desc, key(s[0]), key(y))
  {
    forall y | y in s ensures InOrder(desc, key(s[0]), key(y)) {
      InOrderFacts(desc, key(y), key(y), key(y));
      var i :| 0 <= i < |s| && s[i] == y;
    }
  }

  /** Everything in `s` follows `x` once the head of the sorted `s` does. */
  lemma SortedFrom<T(!new)>(key: T -> Key, desc: bool, x: T, s: seq<T>)
    requires s != [] && Sorted(key, desc, s) && InOrder(desc, key(x), key(s[0]))
    ensures forall y :: y in s ==> InOrder(desc, key(x), key(y))
  {
    SortedHead(key, desc, s);
    forall y | y in s ensures InOrder(desc, key(x), key(y)) {
      InOrderFacts(desc, key(x), key(s[0]), key(y));
    }
  }

  /** Two sorted parts make a sorted whole when the second follows the last of the first. */
  lemma SortedAppend<T(!new)>(key: T -> Key, desc: bool, a: seq<T>, b: seq<T>)
    requires Sorted(key, desc, a) && Sorted(key, desc, b)
    requires a != [] ==> forall y :: y in b ==> InOrder(desc, key(a[|a| - 1]), key(y))
    ensures Sorted(key, desc, a + b)
  {
    forall i, j | 0 <= i < j < |a + b| ensures InOrder(desc, key((a + b)[i]), key((a + b)[j])) {
      if i < |a| <= j {
        assert b[j - |a|] in b;
        InOrderFacts(desc, key(a[i]), key(a[|a| - 1]), key(b[j - |a|]));
        InOrderFacts(desc, key(a[i]), key(a[i]), key(a[i]));
      }
    }
  }

  lemma {:induction false} InsertSorted<T(!new)>(key: T -> Key, desc: bool, x: T, s: seq<T>)
    requires Sorted(key, desc, s)
    ensures Sorted(key, desc, Insert(key, desc, x, s))
  {
    if s == [] {
    } else if InOrder(desc, key(x), key(s[0])) {
      SortedFrom(key, desc, x, s);
    } else {
      SortedHead(key, desc, s);
      InsertSorted(key, desc, x, s[1..]);
      var t := Insert(key, desc, x, s[1..]);
      forall y | y in t ensures InOrder(desc, key(s[0]), key(y)) {
        InsertMultiset(key, desc, x, s[1..]);
        assert y in multiset(t);
        InOrderFacts(desc, key(x), key(s[0]), key(s[0]));
      }
      SortedCons(key, desc, s[0], t);
    }
  }

  lemma {:induction false} SortSorted<T(!new)>(key: T -> Key, desc: bool, s: seq<T>)
    ensures Sorted(key, desc, Sort(key, desc, s))
  {
    if s != [] {
      SortSorted(key, desc, s[1..]);
      InsertSorted(key, desc, s[0], Sort(key, desc, s[1..]));
    }
  }

  lemma {:induction false} MergeSorted<T(!new)>(key: T -> Key, desc: bool, a: seq<T>, b: seq<T>)
    requires Sorted(key, desc, a) && Sorted(key, desc, b)
    ensures Sorted(key, desc, Merge(key, desc, a, b))
    decreases |a| + |b|
  {
    if a != [] && b != [] {
      if InOrder(desc, key(a[0]), key(b[0])) {
        MergeSorted(key, desc, a[1..], b);
        MergeMembers(key, desc, a[1..], b);
        SortedHead(key, desc, a);
        SortedFrom(key, desc, a[0], b);
        SortedCons(key, desc, a[0], Merge(key, desc, a[1..], b));
      } else {
        InOrderFacts(desc, key(a[0]), key(b[0]), key(b[0]));
        MergeSorted(key, desc, a, b[1..]);
        MergeMembers(key, desc, a, b[1..]);
        SortedHead(key, desc, b);
        SortedFrom(key, desc, b[0], a);
        SortedCons(key, desc, b[0], Merge(key, desc, a, b[1..]));
      }
    }
  }

  // --- filters commute with sort and merge ---

  lemma {:induction false} FilterSorted<T(!new)>(p: T -> bool, key: T -> Key, desc: bool, s: seq<T>)
    requires Sorted(key, desc, s)
    ensures Sorted(key, desc, Filter(p, s))
  {
    if s != [] {
      SortedHead(key, desc, s);
      FilterSorted(p, key, desc, s[1..]);
      FilterMembers(p, s[1..]);
      if p(s[0]) {
        SortedCons(key, desc, s[0], Filter(p, s[1..]));
      } else {
        assert Filter(p, s) == Filter(p, s[1..]);
      }
    }
  }

  /** A row that precedes all of `s` is inserted at the front. */
  lemma InsertFront<T(!new)>(key: T -> Key, desc: bool, x: T, s: seq<T>)
    requires forall y :: y in s ==> InOrder(desc, key(x), key(y))
    ensures Insert(key, desc, x, s) == [x] + s
  {
  }

  lemma {:induction false} FilterInsert<T(!new)>(p: T -> bool, key: T -> Key, desc: bool, x: T, s: seq<T>)
    requires Sorted(key, desc, s)
    ensures Filter(p, Insert(key, desc, x, s)) ==
            if p(x) then Insert(key, desc, x, Filter(p, s)) else Filter(p, s)
  {
    if s == [] {
    } else if InOrder(desc, key(x), key(s[0])) {
      FilterAppend(p, [x], s);
      SortedFrom(key, desc, x, s);
      FilterMembers(p, s);
      InsertFront(key, desc, x, Filter(p, s));
      assert Filter(p, [x]) == if p(x) then [x] else [];
    } else {
      SortedHead(key, desc, s);
      FilterInsert(p, key, desc, x, s[1..]);
      var t := Insert(key, desc, x, s[1..]);
      assert ([s[0]] + t)[1..] == t;
      assert Filter(p, [s[0]] + t) == (if p(s[0]) then [s[0]] else []) + Filter(p, t);
      if p(s[0]) {
        assert Filter(p, s) == [s[0]] + Filter(p, s[1..]);
        assert Filter(p, s)[1..] == Filter(p, s[1..]);
      } else {
        assert Filter(p, s) == Filter(p, s[1..]);
      }
    }
  }

  /** A filter commutes with a stable sort. */
  lemma {:induction false} FilterSort<T(!new)>(p: T -> bool, key: T -> Key, desc: bool, s: seq<T>)
    ensures Filter(p, Sort(key, desc, s)) == Sort(key, desc, Filter(p, s))
  {
    if s != [] {
      FilterSort(p, key, desc, s[1..]);
      SortSorted(key, desc, s[1..]);
      FilterInsert(p, key, desc, s[0], Sort(key, desc, s[1..]));
      if p(s[0]) {
        assert Filter(p, s) == [s[0]] + Filter(p, s[1..]);
      } else {
        assert Filter(p, s) == Filter(p, s[1..]);
      }
    }
  }

  lemma FilterCons<T(!new)>(p: T -> bool, x: T, s: seq<T>)
    ensures Filter(p, [x] + s) == (if p(x) then [x] else []) + Filter(p, s)
  {
    assert ([x] + s)[1..] == s;
  }

  /** Unfolds a merge whose left head goes first. */
  lemma MergeLeft<T(!new)>(key: T -> Key, desc: bool, x: T, a: seq<T>, b: seq<T>)
    requires forall y :: y in b ==> InOrder(desc, key(x), key(y))
    ensures Merge(key, desc, [x] + a, b) == [x] + Merge(key, desc, a, b)
  {
    assert ([x] + a)[1..] == a;
    if b == [] {
      assert Merge(key, desc, a, b) == a;
    }
  }

  /** Unfolds a merge whose right head goes strictly first. */
  lemma MergeRight<T(!new)>(key: T -> Key, desc: bool, x: T, a: seq<T>, b: seq<T>)
    requires forall y :: y in a ==> !InOrder(desc, key(y), key(x))
    ensures Merge(key, desc, a, [x] + b) == [x] + Merge(key, desc, a, b)
  {
    assert ([x] + b)[1..] == b;
  }

  /** A filter commutes with a merge of sorted inputs, keeping the tie rule. */
  lemma {:induction false} FilterMerge<T(!new)>(p: T -> bool, key: T -> Key, desc: bool, a: seq<T>, b: seq<T>)
    requires Sorted(key, desc, a) && Sorted(key, desc, b)
    ensures Filter(p, Merge(key, desc, a, b)) == Merge(key, desc, Filter(p, a), Filter(p, b))
    decreases |a| + |b|
  {
    if a == [] || b == [] {
      assert Merge(key, desc, Filter(p, a), []) == Filter(p, a);
    } else if InOrder(desc, key(a[0]), key(b[0])) {
      SortedHead(key, desc, a);
      FilterMerge(p, key, desc, a[1..], b);
      FilterCons(p, a[0], Merge(key, desc, a[1..], b));
      if p(a[0]) {
        SortedFrom(key, desc, a[0], b);
        FilterMembers(p, b);
        MergeLeft(key, desc, a[0], Filter(p, a[1..]), Filter(p, b));
      } else {
        assert Filter(p, a) == Filter(p, a[1..]);
      }
    } else {
      SortedHead(key, desc, b);
      FilterMerge(p, key, desc, a, b[1..]);
      FilterCons(p, b[0], Merge(key, desc, a, b[1..]));
      if p(b[0]) {
        FilterMembers(p, a);
        SortedHead(key, desc, a);
        forall y | y in Filter(p, a) ensures !InOrder(desc, key(y), key(b[0])) {
          InOrderFacts(desc, key(a[0]), key(y), key(b[0]));
        }
        MergeRight(key, desc, b[0], Filter(p, a), Filter(p, b[1..]));
      } else {
        assert Filter(p, b) == Filter(p, b[1..]);
      }
    }
  }

  // --- prefixes of a merge ---

  lemma TakeCons<T(!new)>(n: nat, x: T, s: seq<T>)
    requires n > 0
    ensures Take(n, [x] + s) == [x] + Take(n - 1, s)
  {
  }

  /** `Take n` of a merge depends only on `take n` of each input, sorted or not. */
  lemma {:induction false} TakeMerge<T(!new)>(n: nat, key: T -> Key, desc: bool,
                                        a: seq<T>, b: seq<T>, c: seq<T>, d: seq<T>)
    requires Take(n, a) == Take(n, c) && Take(n, b) == Take(n, d)
    ensures Take(n, Merge(key, desc, a, b)) == Take(n, Merge(key, desc, c, d))
    decreases n
  {
    if n > 0 && a != [] && b != [] {
      assert a[0] == Take(n, a)[0] == c[0] && b[0] == Take(n, b)[0] == d[0];
      TakeTail(n, a, c);
      TakeTail(n, b, d);
      TakeTake(n - 1, n, a);
      TakeTake(n - 1, n, b);
      TakeTake(n - 1, n, c);
      TakeTake(n - 1, n, d);
      if InOrder(desc, key(a[0]), key(b[0])) {
        TakeMerge(n - 1, key, desc, a[1..], b, c[1..], d);
        TakeCons(n, a[0], Merge(key, desc, a[1..], b));
        TakeCons(n, a[0], Merge(key, desc, c[1..], d));
      } else {
        TakeMerge(n - 1, key, desc, a, b[1..], c, d[1..]);
        TakeCons(n, b[0], Merge(key, desc, a, b[1..]));
        TakeCons(n, b[0], Merge(key, desc, c, d[1..]));
      }
    } else if n > 0 {
      assert a == [] ==> c == [];
      assert b == [] ==> d == [];
    }
  }

  lemma TakeTail<T(!new)>(n: nat, a: seq<T>, c: seq<T>)
    requires n > 0 && a != [] && Take(n, a) == Take(n, c)
    ensures c != [] && Take(n - 1, a[1..]) == Take(n - 1, c[1..])
  {
    assert c != [];
    assert a == [a[0]] + a[1..] && c == [c[0]] + c[1..];
    TakeCons(n, a[0], a[1..]);
    TakeCons(n, c[0], c[1..]);
    assert Take(n, a)[1..] == Take(n, c)[1..];
  }

  // --- a sorted key sequence is determined by its keys ---

  lemma MultisetRemove<T>(s: seq<T>, i: nat)
    requires i < |s|
    ensures multiset(s) == multiset{s[i]} + multiset(s[..i] + s[i + 1..])
  {
    assert s == s[..i] + [s[i]] + s[i + 1..];
  }

  lemma MultisetCancel<T>(x: T, a: multiset<T>, b: multiset<T>)
    requires multiset{x} + a == multiset{x} + b
    ensures a == b
  {
    assert (multiset{x} + a) - multiset{x} == a;
    assert (multiset{x} + b) - multiset{x} == b;
  }

  lemma MultisetIndex<T>(s: seq<T>, x: T) returns (i: nat)
    requires x in multiset(s)
    ensures i < |s| && s[i] == x
  {
    i :| i < |s| && s[i] == x;
  }

  /** Two sorted sequences of keys with the same members and multiplicities are equal. */
  lemma {:induction false} SortedKeysUnique(desc: bool, a: seq<Key>, b: seq<Key>)
    requires multiset(a) == multiset(b)
    requires forall i, j :: 0 <= i < j < |a| ==> InOrder(desc, a[i], a[j])
    requires forall i, j :: 0 <= i < j < |b| ==> InOrder(desc, b[i], b[j])
    ensures a == b
  {
    assert |a| == |multiset(a)| == |multiset(b)| == |b|;
    if a != [] {
      MultisetCons(a);
      MultisetCons(b);
      var i := MultisetIndex(b, a[0]);
      var j := MultisetIndex(a, b[0]);
      InOrderFacts(desc, a[0], b[0], b[0]);
      assert a[0] == b[0];
      MultisetCancel(a[0], multiset(a[1..]), multiset(b[1..]));
      SortedKeysUnique(desc, a[1..], b[1..]);
      assert a == [a[0]] + a[1..] && b == [b[0]] + b[1..];
    }
  }

  lemma {:induction false} MapMultiset<T, U>(f: T -> U, a: seq<T>, b: seq<T>)
    requires multiset(a) == multiset(b)
    ensures multiset(Map(f, a)) == multiset(Map(f, b))
  {
    assert |a| == |multiset(a)| == |multiset(b)| == |b|;
    if a != [] {
      MultisetCons(a);
      var i := MultisetIndex(b, a[0]);
      MultisetRemove(b, i);
      MultisetRemove(Map(f, b), i);
      MultisetCons(Map(f, a));
      var c := b[..i] + b[i + 1..];
      MultisetCancel(a[0], multiset(a[1..]), multiset(c));
      MapMultiset(f, a[1..], c);
      assert Map(f, a)[1..] == Map(f, a[1..]);
      assert Map(f, b)[..i] + Map(f, b)[i + 1..] == Map(f, c);
    }
  }

  /**
   * Sequences sorted in the same direction that hold the same rows have the same keys position
   * by position: they can differ only in how rows with equal keys are ordered.
   */
  lemma SameKeys<T(!new)>(key: T -> Key, desc: bool, a: seq<T>, b: seq<T>)
    requires Sorted(key, desc, a) && Sorted(key, desc, b) && multiset(a) == multiset(b)
    ensures Map(key, a) == Map(key, b)
  {
    MapMultiset(key, a, b);
    SortedKeysUnique(desc, Map(key, a), Map(key, b));
  }
}
