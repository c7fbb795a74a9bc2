/** Sequences that correspond element by element, and operators that keep the correspondence. */
module Pointwise {
  import opened Values
  import opened Sequences
  import S = Sorting

  ghost predicate Alike<T, U>(rel: (T, U) -> bool, a: seq<T>, b: seq<U>) {
    |a| == |b| && forall i :: 0 <= i < |a| ==> rel(a[i], b[i])
  }

  lemma AlikeTail<T, U>(rel: (T, U) -> bool, a: seq<T>, b: seq<U>)
    requires Alike(rel, a, b) && a != []
    ensures b != [] && rel(a[0], b[0]) && Alike(rel, a[1..], b[1..])
  {
  }

  lemma AlikeAppend<T, U>(rel: (T, U) -> bool, a: seq<T>, b: seq<U>, c: seq<T>, d: seq<U>)
    requires Alike(rel, a, b) && Alike(rel, c, d)
    ensures Alike(rel, a + c, b + d)
  {
  }

  lemma {:induction false} AlikeFilter<T(!new), U(!new)>(rel: (T, U) -> bool, p: T -> bool, q: U -> bool, a: seq<T>, b: seq<U>)
    requires Alike(rel, a, b) && forall x, y :: rel(x, y) ==> p(x) == q(y)
    ensures Alike(rel, Filter(p, a), Filter(q, b))
  {
    if a != [] {
      AlikeTail(rel, a, b);
      AlikeFilter(rel, p, q, a[1..], b[1..]);
      AlikeAppend(rel, if p(a[0]) then [a[0]] else [], if q(b[0]) then [b[0]] else [], Filter(p, a[1..]), Filter(q, b[1..]));
    }
  }

  lemma {:induction false} AlikeInsert<T(!new), U(!new)>(rel: (T, U) -> bool, k: T -> Key, m: U -> Key, desc: bool,
                                                         x: T, y: U, a: seq<T>, b: seq<U>)
    requires Alike(rel, a, b) && rel(x, y) && forall v, w :: rel(v, w) ==> k(v) == m(w)
    ensures Alike(rel, S.Insert(k, desc, x, a), S.Insert(m, desc, y, b))
  {
    hide InOrder;
    if a == [] || InOrder(desc, k(x), k(a[0])) {
      AlikeAppend(rel, [x], [y], a, b);
    } else {
      AlikeTail(rel, a, b);
      AlikeInsert(rel, k, m, desc, x, y, a[1..], b[1..]);
      AlikeAppend(rel, [a[0]], [b[0]], S.Insert(k, desc, x, a[1..]), S.Insert(m, desc, y, b[1..]));
    }
  }

  /** Sorting by equal keys permutes both sequences alike. */
  lemma {:induction false} AlikeSort<T(!new), U(!new)>(rel: (T, U) -> bool, k: T -> Key, m: U -> Key, desc: bool, a: seq<T>, b: seq<U>)
    requires Alike(rel, a, b) && forall v, w :: rel(v, w) ==> k(v) == m(w)
    ensures Alike(rel, S.Sort(k, desc, a), S.Sort(m, desc, b))
  {
    if a != [] {
      AlikeTail(rel, a, b);
      AlikeSort(rel, k, m, desc, a[1..], b[1..]);
      AlikeInsert(rel, k, m, desc, a[0], b[0], S.Sort(k, desc, a[1..]), S.Sort(m, desc, b[1..]));
    }
  }

  lemma {:induction false} AlikeMerge<T(!new), U(!new)>(rel: (T, U) -> bool, k: T -> Key, m: U -> Key, desc: bool,
                                                        a: seq<T>, b: seq<U>, c: seq<T>, d: seq<U>)
    requires Alike(rel, a, b) && Alike(rel, c, d) && forall v, w :: rel(v, w) ==> k(v) == m(w)
    ensures Alike(rel, S.Merge(k, desc, a, c), S.Merge(m, desc, b, d))
    decreases |a| + |c|
  {
    hide InOrder;
    if a != [] && c != [] {
      AlikeTail(rel, a, b);
      AlikeTail(rel, c, d);
      if InOrder(desc, k(a[0]), k(c[0])) {
        AlikeMerge(rel, k, m, desc, a[1..], b[1..], c, d);
        AlikeAppend(rel, [a[0]], [b[0]], S.Merge(k, desc, a[1..], c), S.Merge(m, desc, b[1..], d));
      } else {
        AlikeMerge(rel, k, m, desc, a, b, c[1..], d[1..]);
        AlikeAppend(rel, [c[0]], [d[0]], S.Merge(k, desc, a, c[1..]), S.Merge(m, desc, b, d[1..]));
      }
    }
  }

  lemma AlikeTake<T, U>(rel: (T, U) -> bool, n: nat, a: seq<T>, b: seq<U>)
    requires Alike(rel, a, b)
    ensures Alike(rel, Take(n, a), Take(n, b))
  {
  }

  lemma {:induction false} AlikeFlatten<T, U>(rel: (T, U) -> bool, a: seq<seq<T>>, b: seq<seq<U>>)
    requires |a| == |b| && forall i :: 0 <= i < |a| ==> Alike(rel, a[i], b[i])
    ensures Alike(rel, Flatten(a), Flatten(b))
  {
    if a != [] {
      AlikeFlatten(rel, a[1..], b[1..]);
      AlikeAppend(rel, a[0], b[0], Flatten(a[1..]), Flatten(b[1..]));
    }
  }
}
