/** Sequence functions that the relational semantics is written in. */
module Sequences {

  function Map<T, U>(f: T -> U, s: seq<T>): (r: seq<U>)
    ensures |r| == |s|
    ensures forall i :: 0 <= i < |s| ==> r[i] == f(s[i])
  {
    seq(|s|, i requires 0 <= i < |s| => f(s[i]))
  }

  function Filter<T>(p: T -> bool, s: seq<T>): seq<T> {
    if s == [] then []
    else (if p(s[0]) then [s[0]] else []) + Filter(p, s[1..])
  }

  function Flatten<T>(ss: seq<seq<T>>): seq<T> {
    if ss == [] then [] else ss[0] + Flatten(ss[1..])
  }

  function Take<T>(n: nat, s: seq<T>): seq<T> {
    if n <= |s| then s[..n] else s
  }

  function Min(a: nat, b: nat): nat { if a <= b then a else b }

  lemma AppendAssociative<T>(a: seq<T>, b: seq<T>, c: seq<T>)
    ensures a + (b + c) == (a + b) + c
  {
  }

  lemma {:induction false} FilterAppend<T(!new)>(p: T -> bool, a: seq<T>, b: seq<T>)
    ensures Filter(p, a + b) == Filter(p, a) + Filter(p, b)
  {
    if a == [] {
      assert a + b == b;
    } else {
      FilterAppend(p, a[1..], b);
      assert (a + b)[0] == a[0] && (a + b)[1..] == a[1..] + b;
      AppendAssociative(if p(a[0]) then [a[0]] else [], Filter(p, a[1..]), Filter(p, b));
    }
  }

  lemma FilterLast<T(!new)>(p: T -> bool, s: seq<T>, i: nat)
    requires i < |s|
    ensures Filter(p, s[..i + 1]) == Filter(p, s[..i]) + if p(s[i]) then [s[i]] else []
  {
    assert s[..i + 1] == s[..i] + [s[i]];
    FilterAppend(p, s[..i], [s[i]]);
    assert [s[i]][1..] == [];
  }

  lemma {:induction false} FilterMembers<T(!new)>(p: T -> bool, s: seq<T>)
    ensures forall x :: x in Filter(p, s) <==> x in s && p(x)
  {
    if s != [] {
      FilterMembers(p, s[1..]);
      assert s == [s[0]] + s[1..];
    }
  }

  lemma {:induction false} FilterAll<T(!new)>(p: T -> bool, s: seq<T>)
    requires forall x :: x in s ==> p(x)
    ensures Filter(p, s) == s
  {
    if s != [] {
      FilterAll(p, s[1..]);
    }
  }

  lemma {:induction false} FilterNone<T(!new)>(p: T -> bool, s: seq<T>)
    requires forall x :: x in s ==> !p(x)
    ensures Filter(p, s) == []
  {
    if s != [] {
      FilterNone(p, s[1..]);
    }
  }

  /** Predicates that agree on the members of a sequence select the same subsequence. */
  lemma {:induction false} FilterAgree<T(!new)>(p: T -> bool, q: T -> bool, s: seq<T>)
    requires forall x :: x in s ==> p(x) == q(x)
    ensures Filter(p, s) == Filter(q, s)
  {
    if s != [] {
      FilterAgree(p, q, s[1..]);
    }
  }

  /** Filtering twice is filtering once by the conjunction. */
  lemma {:induction false} FilterConjunction<T(!new)>(p: T -> bool, q: T -> bool, both: T -> bool, s: seq<T>)
    requires forall x :: x in s ==> both(x) == (p(x) && q(x))
    ensures Filter(q, Filter(p, s)) == Filter(both, s)
  {
    if s != [] {
      FilterConjunction(p, q, both, s[1..]);
      FilterAppend(q, if p(s[0]) then [s[0]] else [], Filter(p, s[1..]));
    }
  }

  /** A filter over mapped rows is the pulled-back filter before the map. */
  lemma {:induction false} FilterMap<T(!new), U(!new)>(f: T -> U, p: U -> bool, q: T -> bool, s: seq<T>)
    requires forall x :: x in s ==> q(x) == p(f(x))
    ensures Filter(p, Map(f, s)) == Map(f, Filter(q, s))
  {
    if s != [] {
      FilterMap(f, p, q, s[1..]);
      assert Map(f, s) == [f(s[0])] + Map(f, s[1..]);
      FilterAppend(p, [f(s[0])], Map(f, s[1..]));
      assert Map(f, Filter(q, s)) == Map(f, if q(s[0]) then [s[0]] else []) + Map(f, Filter(q, s[1..]));
    }
  }

  lemma {:induction false} FlattenAppend<T(!new)>(a: seq<seq<T>>, b: seq<seq<T>>)
    ensures Flatten(a + b) == Flatten(a) + Flatten(b)
  {
    if a == [] {
      assert a + b == b;
    } else {
      FlattenAppend(a[1..], b);
      assert (a + b)[0] == a[0] && (a + b)[1..] == a[1..] + b;
      AppendAssociative(a[0], Flatten(a[1..]), Flatten(b));
    }
  }

  lemma {:induction false} FlattenHolds<T(!new)>(ss: seq<seq<T>>, i: nat, x: T)
    requires i < |ss| && x in ss[i]
    ensures x in Flatten(ss)
  {
    if i > 0 {
      assert ss[1..][i - 1] == ss[i];
      FlattenHolds(ss[1..], i - 1, x);
    }
  }

  lemma {:induction false} FlattenSource<T(!new)>(ss: seq<seq<T>>, x: T) returns (i: nat)
    requires x in Flatten(ss)
    ensures i < |ss| && x in ss[i]
  {
    if x in ss[0] { return 0; }
    i := FlattenSource(ss[1..], x);
    i := i + 1;
  }

  /** Filtering a concatenation filters every part. */
  lemma {:induction false} FilterFlatten<T(!new)>(p: T -> bool, ss: seq<seq<T>>, fs: seq<seq<T>>)
    requires |fs| == |ss|
    requires forall i :: 0 <= i < |ss| ==> fs[i] == Filter(p, ss[i])
    ensures Filter(p, Flatten(ss)) == Flatten(fs)
  {
    if ss != [] {
      FilterFlatten(p, ss[1..], fs[1..]);
      FilterAppend(p, ss[0], Flatten(ss[1..]));
    }
  }

  lemma TakeTake<T(!new)>(m: nat, n: nat, s: seq<T>)
    ensures Take(m, Take(n, s)) == Take(Min(m, n), s)
  {
    if n <= |s| && m <= n {
      assert s[..n][..m] == s[..m];
    }
  }

  /** A prefix of a concatenation depends only on prefixes of the parts. */
  lemma TakeAppend<T(!new)>(n: nat, a: seq<T>, b: seq<T>, c: seq<T>)
    requires Take(n, b) == Take(n, c)
    ensures Take(n, a + b) == Take(n, a + c)
  {
    if n > |a| {
      assert Take(n, a + b) == a + Take(n - |a|, b);
      assert Take(n, a + c) == a + Take(n - |a|, c);
      TakeTake(n - |a|, n, b);
      TakeTake(n - |a|, n, c);
    } else {
      assert (a + b)[..n] == a[..n] == (a + c)[..n];
    }
  }

  /** `Take n` of a concatenation depends only on `take n` of each part. */
  lemma {:induction false} TakeFlatten<T(!new)>(n: nat, ss: seq<seq<T>>, ts: seq<seq<T>>)
    requires |ss| == |ts|
    requires forall i :: 0 <= i < |ss| ==> Take(n, ss[i]) == Take(n, ts[i])
    ensures Take(n, Flatten(ss)) == Take(n, Flatten(ts))
  {
    if ss != [] {
      TakeFlatten(n, ss[1..], ts[1..]);
      TakeAppend(n, ss[0], Flatten(ss[1..]), Flatten(ts[1..]));
      TakeAppendLeft(n, ss[0], ts[0], Flatten(ts[1..]));
    }
  }

  lemma TakeAppendLeft<T(!new)>(n: nat, a: seq<T>, b: seq<T>, c: seq<T>)
    requires Take(n, a) == Take(n, b)
    ensures Take(n, a + c) == Take(n, b + c)
  {
    if |a| < n || |b| < n {
      assert a == b;
    } else {
      assert (a + c)[..n] == a[..n];
      assert (b + c)[..n] == b[..n];
    }
  }
}
