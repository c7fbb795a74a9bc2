/** What depends only on which elements a sequence has, and not on their order. */
module Permutations {
  import opened Values
  import opened Sequences
  import opened Relations
  import S = Sorting

  ghost predicate Permuted<T>(a: seq<T>, b: seq<T>) {
    multiset(a) == multiset(b)
  }

  function Without<T>(s: seq<T>, i: nat): seq<T>
    requires i < |s|
  {
    s[..i] + s[i + 1..]
  }

  /** Where the first element of one arrangement is in another. */
  lemma Partner<T(!new)>(a: seq<T>, b: seq<T>) returns (j: nat)
    requires a != [] && Permuted(a, b)
    ensures j < |b| && b[j] == a[0] && Permuted(a[1..], Without(b, j))
  {
    assert a[0] in multiset(a);
    assert a[0] in b;
    j :| 0 <= j < |b| && b[j] == a[0];
    S.MultisetRemove(b, j);
    S.MultisetCons(a);
    S.MultisetCancel(a[0], multiset(a[1..]), multiset(Without(b, j)));
  }

  lemma PermutedLength<T(!new)>(a: seq<T>, b: seq<T>)
    requires Permuted(a, b)
    ensures |a| == |b|
  {
    assert |multiset(a)| == |multiset(b)|;
  }

  /** A part of a whole that has as many elements is all of it. */
  lemma AllOfIt<T(!new)>(a: seq<T>, b: seq<T>)
    requires multiset(a) <= multiset(b) && |a| == |b|
    ensures Permuted(a, b)
  {
    var rest := multiset(b) - multiset(a);
    assert multiset(b) == multiset(a) + rest;
    assert |rest| == 0;
  }

  lemma PermutedMembers<T(!new)>(a: seq<T>, b: seq<T>, x: T)
    requires Permuted(a, b)
    ensures x in a <==> x in b
  {
    assert x in multiset(a) <==> x in multiset(b);
  }

  // --- folds whose steps commute ---

  function Fold<T, R>(step: (T, R) -> R, init: R, s: seq<T>): R {
    if s == [] then init else step(s[0], Fold(step, init, s[1..]))
  }

  ghost predicate Commutes<T(!new), R(!new)>(step: (T, R) -> R) {
    forall x, y, r :: step(x, step(y, r)) == step(y, step(x, r))
  }

  lemma {:induction false} FoldMove<T(!new), R(!new)>(step: (T, R) -> R, init: R, s: seq<T>, i: nat)
    requires Commutes(step) && i < |s|
    ensures Fold(step, init, s) == step(s[i], Fold(step, init, Without(s, i)))
  {
    if i == 0 {
      assert Without(s, 0) == s[1..];
    } else {
      FoldMove(step, init, s[1..], i - 1);
      assert Without(s, i)[1..] == Without(s[1..], i - 1);
    }
  }

  lemma {:induction false} FoldPermuted<T(!new), R(!new)>(step: (T, R) -> R, init: R, a: seq<T>, b: seq<T>)
    requires Commutes(step) && Permuted(a, b)
    ensures Fold(step, init, a) == Fold(step, init, b)
  {
    PermutedLength(a, b);
    if a != [] {
      var j := Partner(a, b);
      FoldPermuted(step, init, a[1..], Without(b, j));
      FoldMove(step, init, b, j);
    }
  }

  // --- sequence functions ---

  lemma {:induction false} FilterPermuted<T(!new)>(p: T -> bool, a: seq<T>, b: seq<T>)
    requires Permuted(a, b)
    ensures Permuted(Filter(p, a), Filter(p, b))
  {
    PermutedLength(a, b);
    if a != [] {
      var j := Partner(a, b);
      FilterPermuted(p, a[1..], Without(b, j));
      assert b == b[..j] + ([b[j]] + b[j + 1..]);
      FilterAppend(p, b[..j], [b[j]] + b[j + 1..]);
      FilterAppend(p, [b[j]], b[j + 1..]);
      FilterAppend(p, b[..j], b[j + 1..]);
      assert Filter(p, [b[j]]) == if p(b[j]) then [b[j]] else [];
    }
  }

  /** Parts of permuted rows, each permuted itself. */
  lemma {:induction false} FlatPermuted<T(!new), U(!new)>(f: T -> seq<U>, g: T -> seq<U>, a: seq<T>, b: seq<T>)
    requires Permuted(a, b) && forall x :: x in a ==> Permuted(f(x), g(x))
    ensures Permuted(Flatten(Map(f, a)), Flatten(Map(g, b)))
  {
    PermutedLength(a, b);
    if a != [] {
      var j := Partner(a, b);
      FlatPermuted(f, g, a[1..], Without(b, j));
      assert Map(f, a)[1..] == Map(f, a[1..]);
      FlatRemove(g, b, j);
      assert Permuted(f(a[0]), g(b[j]));
    }
  }

  lemma FlatRemove<T(!new), U(!new)>(g: T -> seq<U>, b: seq<T>, j: nat)
    requires j < |b|
    ensures multiset(Flatten(Map(g, b))) == multiset(g(b[j])) + multiset(Flatten(Map(g, Without(b, j))))
  {
    var before, after := Map(g, b[..j]), Map(g, b[j + 1..]);
    assert Map(g, b) == before + ([g(b[j])] + after);
    assert Map(g, Without(b, j)) == before + after;
    FlattenAppend(before, [g(b[j])] + after);
    FlattenAppend([g(b[j])], after);
    FlattenAppend(before, after);
    assert Flatten([g(b[j])]) == g(b[j]) + Flatten([g(b[j])][1..]);
  }

  // --- aggregates ---

  lemma CountPermuted(a: seq<Value>, b: seq<Value>)
    requires Permuted(a, b)
    ensures CountOf(a) == CountOf(b)
  {
    var step := (v: Value, n: int) => (if v != Null then 1 else 0) + n;
    CountIsFold(step, a);
    CountIsFold(step, b);
    FoldPermuted(step, 0, a, b);
  }

  lemma {:induction false} CountIsFold(step: (Value, int) -> int, vs: seq<Value>)
    requires forall v, n :: step(v, n) == (if v != Null then 1 else 0) + n
    ensures CountOf(vs) == Fold(step, 0, vs)
  {
    if vs != [] {
      CountIsFold(step, vs[1..]);
    }
  }

  function Lesser(v: Value, rest: Value): Value {
    if v == Null then rest else if rest == Null || ValueLe(v, rest) then v else rest
  }

  function Greater(v: Value, rest: Value): Value {
    if v == Null then rest else if rest == Null || ValueLe(rest, v) then v else rest
  }

  lemma {:induction false} MinIsFold(vs: seq<Value>)
    ensures MinValue(vs) == Fold(Lesser, Null, vs)
  {
    if vs != [] {
      MinIsFold(vs[1..]);
    }
  }

  lemma {:induction false} MaxIsFold(vs: seq<Value>)
    ensures MaxValue(vs) == Fold(Greater, Null, vs)
  {
    if vs != [] {
      MaxIsFold(vs[1..]);
    }
  }

  lemma MinPermuted(a: seq<Value>, b: seq<Value>)
    requires Permuted(a, b)
    ensures MinValue(a) == MinValue(b)
  {
    hide ValueLe;
    ValueOrder();
    MinIsFold(a);
    MinIsFold(b);
    FoldPermuted(Lesser, Null, a, b);
  }

  lemma MaxPermuted(a: seq<Value>, b: seq<Value>)
    requires Permuted(a, b)
    ensures MaxValue(a) == MaxValue(b)
  {
    hide ValueLe;
    ValueOrder();
    MaxIsFold(a);
    MaxIsFold(b);
    FoldPermuted(Greater, Null, a, b);
  }

  // --- distinct keys ---

  ghost predicate NoRepeats<T>(s: seq<T>) {
    forall i, j :: 0 <= i < j < |s| ==> s[i] != s[j]
  }

  lemma {:induction false} CountOnce<T(!new)>(s: seq<T>, x: T)
    requires NoRepeats(s)
    ensures multiset(s)[x] == if x in s then 1 else 0
  {
    if s != [] {
      CountOnce(s[1..], x);
      S.MultisetCons(s);
    }
  }

  /** Sequences without repetitions and with the same members are arrangements of each other. */
  lemma SameMembers<T(!new)>(a: seq<T>, b: seq<T>)
    requires NoRepeats(a) && NoRepeats(b) && forall x :: x in a <==> x in b
    ensures Permuted(a, b)
  {
    forall x: T ensures multiset(a)[x] == multiset(b)[x] {
      CountOnce(a, x);
      CountOnce(b, x);
    }
  }

  lemma {:induction false} DistinctKeysOnce(keys: seq<Key>)
    ensures NoRepeats(DistinctKeys(keys))
  {
    if keys != [] {
      DistinctKeysOnce(keys[..|keys| - 1]);
    }
  }

  lemma DistinctKeysPermuted(a: seq<Key>, b: seq<Key>)
    requires Permuted(a, b)
    ensures Permuted(DistinctKeys(a), DistinctKeys(b))
  {
    DistinctKeysOnce(a);
    DistinctKeysOnce(b);
    DistinctKeysMembers(a);
    DistinctKeysMembers(b);
    forall k: Key ensures k in DistinctKeys(a) <==> k in DistinctKeys(b) {
      PermutedMembers(a, b, k);
    }
    SameMembers(DistinctKeys(a), DistinctKeys(b));
  }
}
