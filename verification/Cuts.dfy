/** Operators that keep the rows that come first, when their input's rows may come in several orders. */
module Cuts {
  import opened Values
  import opened Sequences
  import opened Permutations
  import opened TopKOperator
  import opened Arrivals
  import S = Sorting

  // --- best rows ---

  /** The last row kept by a top-k is strictly better than the first one left out. */
  ghost predicate CleanCut(key: Row -> Key, desc: bool, k: nat, rows: seq<Row>)
    requires 0 < k < |rows|
  {
    S.SortMultiset(key, desc, rows);
    key(S.Sort(key, desc, rows)[k - 1]) != key(S.Sort(key, desc, rows)[k])
  }

  /** Rows tied with the last one kept are all the same row. */
  ghost predicate SameTies(key: Row -> Key, desc: bool, k: nat, rows: seq<Row>)
    requires 0 < k < |rows|
  {
    S.SortMultiset(key, desc, rows);
    forall x, y :: x in rows && y in rows && key(x) == key(y) == key(S.Sort(key, desc, rows)[k - 1]) ==> x == y
  }

  /** A part of a whole, none of it from the rest, is within the other part. */
  lemma WithinPart(out: seq<Row>, first: seq<Row>, rest: seq<Row>)
    requires multiset(out) <= multiset(first) + multiset(rest) && |out| == |first|
    requires forall x :: x in out ==> x !in rest
    ensures Permuted(out, first)
  {
    forall x ensures multiset(out)[x] <= multiset(first)[x] {
      if x in multiset(out) {
        assert x in out;
        assert x !in multiset(rest);
      }
    }
    AllOfIt(out, first);
  }

  lemma KeysBefore(key: Row -> Key, desc: bool, k: nat, sorted: seq<Row>, out: seq<Row>, x: Row)
    requires S.Sorted(key, desc, sorted) && 0 < k < |sorted| && Map(key, out) == Map(key, sorted[..k]) && x in out
    ensures InOrder(desc, key(x), key(sorted[k - 1]))
  {
    var i :| 0 <= i < |out| && out[i] == x;
    assert key(x) == Map(key, out)[i] == key(sorted[i]);
    InOrderFacts(desc, key(x), key(x), key(x));
  }

  lemma KeysAfter(key: Row -> Key, desc: bool, k: nat, sorted: seq<Row>, x: Row)
    requires S.Sorted(key, desc, sorted) && 0 < k < |sorted| && x in sorted[k..]
    ensures InOrder(desc, key(sorted[k]), key(x))
  {
    var i :| 0 <= i < |sorted[k..]| && sorted[k..][i] == x;
    InOrderFacts(desc, key(x), key(x), key(x));
  }

  /** After a clean cut every best selection has the same rows. */
  lemma CleanCutPermuted(key: Row -> Key, desc: bool, k: nat, rows: seq<Row>, out: seq<Row>)
    requires 0 < k < |rows| && CleanCut(key, desc, k, rows) && Best(key, desc, k, rows, out)
    ensures Permuted(out, Take(k, S.Sort(key, desc, rows)))
  {
    hide InOrder, S.Sort;
    var sorted := S.Sort(key, desc, rows);
    S.SortMultiset(key, desc, rows);
    S.SortSorted(key, desc, rows);
    TakeSplit(k, sorted);
    forall x | x in out ensures x !in sorted[k..] {
      if x in sorted[k..] {
        KeysBefore(key, desc, k, sorted, out, x);
        KeysAfter(key, desc, k, sorted, x);
        InOrderFacts(desc, key(sorted[k]), key(x), key(sorted[k - 1]));
        InOrderFacts(desc, key(sorted[k - 1]), key(sorted[k]), key(x));
        assert false;
      }
    }
    WithinPart(out, sorted[..k], sorted[k..]);
  }

  /** Where all rows with one key are the same row, it occurs as often as the key. */
  lemma {:induction false} KeyCount(key: Row -> Key, rows: seq<Row>, w: Row)
    requires forall x :: x in rows && key(x) == key(w) ==> x == w
    ensures multiset(rows)[w] == multiset(Map(key, rows))[key(w)]
  {
    if rows != [] {
      KeyCount(key, rows[1..], w);
      S.MultisetCons(rows);
      assert Map(key, rows)[1..] == Map(key, rows[1..]);
      S.MultisetCons(Map(key, rows));
    }
  }

  /** A row of a best selection occurs there no more often than among the first rows, unless it is tied with a different one. */
  lemma BestWithin(key: Row -> Key, desc: bool, k: nat, rows: seq<Row>, out: seq<Row>, x: Row)
    requires 0 < k < |rows| && SameTies(key, desc, k, rows) && Best(key, desc, k, rows, out)
    ensures multiset(out)[x] <= multiset(Take(k, S.Sort(key, desc, rows)))[x]
  {
    hide InOrder, S.Sort;
    var sorted := S.Sort(key, desc, rows);
    S.SortMultiset(key, desc, rows);
    S.SortMembers(key, desc, rows);
    S.SortSorted(key, desc, rows);
    TakeSplit(k, sorted);
    if x in out {
      KeysBefore(key, desc, k, sorted, out, x);
      assert x in multiset(out);
      assert x in multiset(rows);
      if key(x) == key(sorted[k - 1]) {
        MembersWithin(out, rows);
        KeyCount(key, out, x);
        KeyCount(key, sorted[..k], x);
      } else if x in sorted[k..] {
        KeysAfter(key, desc, k, sorted, x);
        InOrderFacts(desc, key(sorted[k - 1]), key(sorted[k]), key(x));
        InOrderFacts(desc, key(x), key(sorted[k - 1]), key(x));
        assert false;
      }
    }
  }

  lemma MembersWithin(a: seq<Row>, b: seq<Row>)
    requires multiset(a) <= multiset(b)
    ensures forall x :: x in a ==> x in b
  {
    forall x | x in a ensures x in b {
      assert x in multiset(a);
    }
  }

  lemma BestSize(key: Row -> Key, desc: bool, k: nat, rows: seq<Row>, out: seq<Row>)
    requires Best(key, desc, k, rows, out)
    ensures |out| == |Take(k, S.Sort(key, desc, rows))| && multiset(out) <= multiset(rows)
  {
    S.SortMultiset(key, desc, rows);
  }

  lemma SameTiesPermuted(key: Row -> Key, desc: bool, k: nat, rows: seq<Row>, out: seq<Row>)
    requires 0 < k < |rows| && SameTies(key, desc, k, rows) && Best(key, desc, k, rows, out)
    ensures Permuted(out, Take(k, S.Sort(key, desc, rows)))
  {
    hide InOrder, S.Sort, Best, SameTies;
    var first := Take(k, S.Sort(key, desc, rows));
    BestSize(key, desc, k, rows, out);
    forall x ensures multiset(out)[x] <= multiset(first)[x] {
      BestWithin(key, desc, k, rows, out, x);
    }
    AllOfIt(out, first);
  }

  // --- other rows could have been kept ---

  /** Replacing one row by a different one changes which rows there are. */
  lemma SwapDiffers(rows: seq<Row>, i: nat, x: Row)
    requires i < |rows| && x != rows[i]
    ensures !Permuted(rows[i := x], rows)
  {
    S.MultisetRemove(rows, i);
    S.MultisetRemove(rows[i := x], i);
    var rest := rows[..i] + rows[i + 1..];
    assert rows[i := x][..i] + rows[i := x][i + 1..] == rest;
    assert multiset(rows[i := x])[x] != multiset(rows)[x];
  }

  /** Rows on both sides of a cut, not all the same, differ across it somewhere. */
  lemma DifferAcross(rows: seq<Row>, lo: nat, k: nat, hi: nat, i: nat, j: nat) returns (p: nat, q: nat)
    requires lo < k < hi <= |rows| && lo <= i < hi && lo <= j < hi && rows[i] != rows[j]
    ensures lo <= p < k <= q < hi && rows[p] != rows[q]
  {
    var a, b := rows[k - 1], rows[k];
    if a != b { return k - 1, k; }
    var m := if rows[i] != a then i else j;
    if m < k { return m, k; }
    return k - 1, m;
  }

  /** Another best selection: a kept row is swapped for a different one with the same key. */
  lemma TieSwapped(key: Row -> Key, desc: bool, k: nat, rows: seq<Row>, p: nat, q: nat)
    requires 0 < k < |rows| && p < k <= q < |rows| && |S.Sort(key, desc, rows)| == |rows|
    requires key(S.Sort(key, desc, rows)[p]) == key(S.Sort(key, desc, rows)[q])
    ensures Best(key, desc, k, rows, Take(k, S.Sort(key, desc, rows))[p := S.Sort(key, desc, rows)[q]])
  {
    hide InOrder, S.Sort;
    var sorted := S.Sort(key, desc, rows);
    var first, x := Take(k, sorted), sorted[q];
    var out := first[p := x];
    S.SortSorted(key, desc, rows);
    S.SortMultiset(key, desc, rows);
    assert Map(key, out) == Map(key, first);
    assert S.Sorted(key, desc, out) by {
      SortedByKeys(key, desc, first, out);
    }
    TakeSplit(k, sorted);
    S.MultisetRemove(first, p);
    S.MultisetRemove(out, p);
    assert out[..p] + out[p + 1..] == first[..p] + first[p + 1..];
    assert x == sorted[k..][q - k];
    assert x in multiset(sorted[k..]);
  }

  lemma SortedByKeys(key: Row -> Key, desc: bool, a: seq<Row>, b: seq<Row>)
    requires S.Sorted(key, desc, a) && Map(key, a) == Map(key, b)
    ensures S.Sorted(key, desc, b)
  {
    forall i | 0 <= i < |b| ensures key(b[i]) == key(a[i]) {
      assert Map(key, a)[i] == Map(key, b)[i];
    }
  }

  /** Rows between two with the same key have that key. */
  lemma KeyBetween(key: Row -> Key, desc: bool, sorted: seq<Row>, i: nat, m: nat, j: nat)
    requires S.Sorted(key, desc, sorted) && i <= m <= j < |sorted| && key(sorted[i]) == key(sorted[j])
    ensures key(sorted[m]) == key(sorted[i])
  {
    InOrderFacts(desc, key(sorted[i]), key(sorted[m]), key(sorted[m]));
    InOrderFacts(desc, key(sorted[j]), key(sorted[m]), key(sorted[m]));
  }

  lemma OtherBest(key: Row -> Key, desc: bool, k: nat, rows: seq<Row>) returns (out: seq<Row>)
    requires 0 < k < |rows| && !CleanCut(key, desc, k, rows) && !SameTies(key, desc, k, rows)
    ensures Best(key, desc, k, rows, out) && !Permuted(out, Take(k, S.Sort(key, desc, rows)))
  {
    hide InOrder, S.Sort;
    var sorted := S.Sort(key, desc, rows);
    S.SortMultiset(key, desc, rows);
    S.SortMembers(key, desc, rows);
    S.SortSorted(key, desc, rows);
    var x, y :| x in rows && y in rows && key(x) == key(y) == key(sorted[k - 1]) && x != y;
    var i :| 0 <= i < |sorted| && sorted[i] == x;
    var j :| 0 <= j < |sorted| && sorted[j] == y;
    var lo: nat := if i <= j then (if i < k then i else k - 1) else if j < k then j else k - 1;
    var last: nat := if i <= j then (if j > k then j else k) else if i > k then i else k;
    var p, q := DifferAcross(sorted, lo, k, last + 1, i, j);
    KeyBetween(key, desc, sorted, lo, p, last);
    KeyBetween(key, desc, sorted, lo, q, last);
    TieSwapped(key, desc, k, rows, p, q);
    SwapDiffers(Take(k, sorted), p, sorted[q]);
    out := Take(k, sorted)[p := sorted[q]];
  }

  /**
   * Whichever ties a heap keeps, it keeps the rows that the stable sort puts first, if and only if the cut is
   * clean or all rows tied at the cut are the same row.
   */
  lemma TopKExactly(key: Row -> Key, desc: bool, k: nat, rows: seq<Row>)
    ensures (forall out :: Best(key, desc, k, rows, out) ==> Permuted(out, Take(k, S.Sort(key, desc, rows)))) <==>
            (0 < k < |rows| ==> CleanCut(key, desc, k, rows) || SameTies(key, desc, k, rows))
  {
    hide InOrder, S.Sort, Best, CleanCut, SameTies;
    if 0 < k < |rows| {
      if CleanCut(key, desc, k, rows) {
        forall out | Best(key, desc, k, rows, out) ensures Permuted(out, Take(k, S.Sort(key, desc, rows))) {
          CleanCutPermuted(key, desc, k, rows, out);
        }
      } else if SameTies(key, desc, k, rows) {
        forall out | Best(key, desc, k, rows, out) ensures Permuted(out, Take(k, S.Sort(key, desc, rows))) {
          SameTiesPermuted(key, desc, k, rows, out);
        }
      } else {
        var out := OtherBest(key, desc, k, rows);
      }
    } else {
      forall out | Best(key, desc, k, rows, out) ensures Permuted(out, Take(k, S.Sort(key, desc, rows))) {
        NoCut(key, desc, k, rows, out);
      }
    }
  }

  /** Nothing or everything is kept. */
  lemma NoCut(key: Row -> Key, desc: bool, k: nat, rows: seq<Row>, out: seq<Row>)
    requires (k == 0 || |rows| <= k) && Best(key, desc, k, rows, out)
    ensures Permuted(out, Take(k, S.Sort(key, desc, rows)))
  {
    hide S.Sort, Best;
    BestSize(key, desc, k, rows, out);
    S.SortMultiset(key, desc, rows);
    if k > 0 {
      AllOfIt(out, rows);
      assert Take(k, S.Sort(key, desc, rows)) == S.Sort(key, desc, rows);
    } else {
      assert Take(k, S.Sort(key, desc, rows)) == [] == out;
    }
  }

  // --- limits ---

  lemma OneRow(rows: seq<Row>, out: seq<Row>)
    requires Permuted(out, rows) && forall x, y :: x in rows && y in rows ==> x == y
    ensures out == rows
  {
    PermutedLength(out, rows);
    forall i | 0 <= i < |out| ensures out[i] == rows[i] {
      assert out[i] in out && rows[i] in rows;
      PermutedMembers(out, rows, out[i]);
    }
  }

  lemma Swapped(rows: seq<Row>, p: nat, q: nat)
    requires p < q < |rows|
    ensures Permuted(rows[p := rows[q]][q := rows[p]], rows)
  {
    assert multiset(rows[p := rows[q]]) == multiset(rows) - multiset{rows[p]} + multiset{rows[q]};
  }

  lemma OtherFirst(n: nat, rows: seq<Row>) returns (out: seq<Row>)
    requires 0 < n < |rows| && exists x, y :: x in rows && y in rows && x != y
    ensures Permuted(out, rows) && !Permuted(Take(n, out), Take(n, rows))
  {
    var x, y :| x in rows && y in rows && x != y;
    var i :| 0 <= i < |rows| && rows[i] == x;
    var j :| 0 <= j < |rows| && rows[j] == y;
    var p, q := DifferAcross(rows, 0, n, |rows|, i, j);
    out := rows[p := rows[q]][q := rows[p]];
    Swapped(rows, p, q);
    SwapDiffers(Take(n, rows), p, rows[q]);
    assert Take(n, out) == Take(n, rows)[p := rows[q]];
  }

  /** A limit over rows in any order keeps the same rows exactly when it keeps none or all, or all are the same. */
  lemma LimitExactly(n: nat, rows: seq<Row>)
    ensures (forall out :: Permuted(out, rows) ==> Permuted(Take(n, out), Take(n, rows))) <==>
            n == 0 || |rows| <= n || forall x, y :: x in rows && y in rows ==> x == y
  {
    if n == 0 {
    } else if |rows| <= n {
      forall out | Permuted(out, rows) ensures Permuted(Take(n, out), Take(n, rows)) {
        PermutedLength(out, rows);
        assert Take(n, out) == out && Take(n, rows) == rows;
      }
    } else if forall x, y :: x in rows && y in rows ==> x == y {
      forall out | Permuted(out, rows) ensures Permuted(Take(n, out), Take(n, rows)) {
        OneRow(rows, out);
      }
    } else {
      var out := OtherFirst(n, rows);
    }
  }

  // --- a limit over a union of two ---

  /** The rows that come first when `i` of the first `n` are from the left. */
  ghost function Mixed(a: seq<Row>, b: seq<Row>, n: nat, i: nat): multiset<Row>
    requires i <= |a| && i <= n <= i + |b|
  {
    multiset(a[..i]) + multiset(b[..n - i])
  }

  /** The first row of an interleaving of two. */
  lemma FirstOfTwo(a: seq<Row>, b: seq<Row>, out: seq<Row>)
    requires Interleaved([a, b], out) && out != []
    ensures || (a != [] && a[0] == out[0] && Interleaved([a[1..], b], out[1..]))
            || (b != [] && b[0] == out[0] && Interleaved([a, b[1..]], out[1..]))
  {
    var k :| 0 <= k < 2 && Goes([a, b], k, out[0]) && Interleaved([a, b][k := [a, b][k][1..]], out[1..]);
    if k == 0 {
      assert [a, b][0 := a[1..]] == [a[1..], b];
    } else {
      assert [a, b][1 := b[1..]] == [a, b[1..]];
    }
  }

  lemma TwoLength(a: seq<Row>, b: seq<Row>, out: seq<Row>)
    requires Interleaved([a, b], out)
    ensures |out| == |a| + |b|
  {
    InterleavedRows([a, b], out);
    FlattenTwo([a, b]);
    PermutedLength(out, a + b);
  }

  lemma TakeFirst(n: nat, rows: seq<Row>)
    requires 0 < n <= |rows|
    ensures multiset(Take(n, rows)) == multiset{rows[0]} + multiset(Take(n - 1, rows[1..]))
  {
    assert Take(n, rows) == [rows[0]] + Take(n - 1, rows[1..]);
  }

  lemma MixedNone(a: seq<Row>, b: seq<Row>, out: seq<Row>)
    ensures multiset(Take(0, out)) == Mixed(a, b, 0, 0)
  {
  }

  lemma MixedLeft(a: seq<Row>, b: seq<Row>, n: nat, i: nat)
    requires i < |a| && i < n <= i + 1 + |b|
    ensures Mixed(a, b, n, i + 1) == multiset{a[0]} + Mixed(a[1..], b, n - 1, i)
  {
    assert a[..i + 1] == [a[0]] + a[1..][..i];
  }

  lemma MixedRight(a: seq<Row>, b: seq<Row>, n: nat, i: nat)
    requires i <= |a| && i < n <= i + |b|
    ensures Mixed(a, b, n, i) == multiset{b[0]} + Mixed(a, b[1..], n - 1, i)
  {
    assert b[..n - i] == [b[0]] + b[1..][..n - 1 - i];
  }

  lemma {:induction false} InterleavedTake(a: seq<Row>, b: seq<Row>, out: seq<Row>, n: nat) returns (i: nat)
    requires Interleaved([a, b], out) && n <= |a| + |b|
    ensures i <= |a| && i <= n <= i + |b|
    ensures multiset(Take(n, out)) == Mixed(a, b, n, i)
    decreases |out|
  {
    hide Interleaved, Mixed, Take;
    TwoLength(a, b, out);
    if n == 0 {
      MixedNone(a, b, out);
      return 0;
    }
    FirstOfTwo(a, b, out);
    TakeFirst(n, out);
    if a != [] && a[0] == out[0] && Interleaved([a[1..], b], out[1..]) {
      i := InterleavedTake(a[1..], b, out[1..], n - 1);
      MixedLeft(a, b, n, i);
      i := i + 1;
    } else {
      i := InterleavedTake(a, b[1..], out[1..], n - 1);
      MixedRight(a, b, n, i);
    }
  }

  lemma MixedStep(a: seq<Row>, b: seq<Row>, n: nat, i: nat)
    requires i < |a| && i < n <= i + |b|
    ensures Mixed(a, b, n, i) == Mixed(a, b, n, i + 1) <==> a[i] == b[n - 1 - i]
  {
    var j := n - 1 - i;
    assert a[..i + 1] == a[..i] + [a[i]];
    assert b[..j + 1] == b[..j] + [b[j]];
    var rest := multiset(a[..i]) + multiset(b[..j]);
    assert Mixed(a, b, n, i) == multiset{b[j]} + rest;
    assert Mixed(a, b, n, i + 1) == multiset{a[i]} + rest;
    if Mixed(a, b, n, i) == Mixed(a, b, n, i + 1) {
      assert (multiset{b[j]} + rest) - rest == multiset{b[j]};
      assert (multiset{a[i]} + rest) - rest == multiset{a[i]};
      assert b[j] in multiset{a[i]};
    }
  }

  /** Where the sides meet at the cut, rows have to be the same. */
  ghost predicate SameAtCut(a: seq<Row>, b: seq<Row>, n: nat) {
    forall i, j :: 0 <= i < |a| && 0 <= j < |b| && i + j == n - 1 ==> a[i] == b[j]
  }

  lemma {:induction false} MixedSame(a: seq<Row>, b: seq<Row>, n: nat, i: nat)
    requires SameAtCut(a, b, n) && i <= |a| && i <= n <= i + |b|
    ensures Mixed(a, b, n, i) == Mixed(a, b, n, Min(n, |a|))
    decreases |a| - i
  {
    if i < |a| && i < n {
      MixedStep(a, b, n, i);
      MixedSame(a, b, n, i + 1);
    }
  }

  lemma MixedFirst(a: seq<Row>, b: seq<Row>, n: nat)
    requires n <= |a| + |b|
    ensures multiset(Take(n, a + b)) == Mixed(a, b, n, Min(n, |a|))
  {
    var i := Min(n, |a|);
    assert Take(n, a + b) == a[..i] + b[..n - i];
  }

  /** Any split of the first rows may arrive. */
  lemma MixedArrives(a: seq<Row>, b: seq<Row>, i: nat, j: nat) returns (out: seq<Row>)
    requires i <= |a| && j <= |b|
    ensures Interleaved([a, b], out) && multiset(Take(i + j, out)) == Mixed(a, b, i + j, i)
  {
    out := Parts(a, b, i, j);
    PartsInterleaved(a, b, i, j);
    assert Take(i + j, out) == a[..i] + b[..j];
  }

  /** The first `i` rows of the left, the first `j` of the right, then the rest of both. */
  function Parts(a: seq<Row>, b: seq<Row>, i: nat, j: nat): seq<Row>
    requires i <= |a| && j <= |b|
  {
    a[..i] + b[..j] + a[i..] + b[j..]
  }

  lemma {:induction false} PartsInterleaved(a: seq<Row>, b: seq<Row>, i: nat, j: nat)
    requires i <= |a| && j <= |b|
    ensures Interleaved([a, b], Parts(a, b, i, j))
    decreases i + j
  {
    hide Parts;
    PartsTail(a, b, i, j);
    if i > 0 {
      PartsInterleaved(a[1..], b, i - 1, j);
      assert [a, b][0 := a[1..]] == [a[1..], b];
      InterleavedCons([a, b], 0, Parts(a, b, i, j));
    } else if j > 0 {
      PartsInterleaved(a, b[1..], 0, j - 1);
      assert [a, b][1 := b[1..]] == [a, b[1..]];
      InterleavedCons([a, b], 1, Parts(a, b, i, j));
    } else {
      FlattenInterleaved([a, b], 0);
      FlattenTwo([a, b]);
      assert [a, b][0..] == [a, b];
    }
  }

  lemma PartsTail(a: seq<Row>, b: seq<Row>, i: nat, j: nat)
    requires i <= |a| && j <= |b|
    ensures var out := Parts(a, b, i, j);
            if i > 0 then out != [] && out[0] == a[0] && out[1..] == Parts(a[1..], b, i - 1, j)
            else if j > 0 then out != [] && out[0] == b[0] && out[1..] == Parts(a, b[1..], 0, j - 1)
            else out == a + b
  {
    if i > 0 {
      assert a[..i] == [a[0]] + a[1..][..i - 1];
    } else if j > 0 {
      assert b[..j] == [b[0]] + b[1..][..j - 1];
    }
  }

  lemma SameKept(n: nat, a: seq<Row>, b: seq<Row>, out: seq<Row>)
    requires SameAtCut(a, b, n) && Interleaved([a, b], out)
    ensures Permuted(Take(n, out), Take(n, a + b))
  {
    hide Interleaved, Mixed, SameAtCut;
    TwoLength(a, b, out);
    if n <= |a| + |b| {
      var i := InterleavedTake(a, b, out, n);
      MixedSame(a, b, n, i);
      MixedFirst(a, b, n);
    } else {
      InterleavedRows([a, b], out);
      FlattenTwo([a, b]);
    }
  }

  lemma OtherKept(n: nat, a: seq<Row>, b: seq<Row>) returns (x: seq<Row>, y: seq<Row>)
    requires !SameAtCut(a, b, n)
    ensures Interleaved([a, b], x) && Interleaved([a, b], y) && !Permuted(Take(n, x), Take(n, y))
  {
    hide Interleaved, Mixed;
    var i, j :| 0 <= i < |a| && 0 <= j < |b| && i + j == n - 1 && a[i] != b[j];
    x := MixedArrives(a, b, i, j + 1);
    y := MixedArrives(a, b, i + 1, j);
    MixedStep(a, b, n, i);
  }

  /**
   * A limit over a union of two inputs keeps the same rows however they arrive, if and only if rows that may
   * take the last place are the same: any `i`th row of the left with any `j`th of the right where `i + j` come first.
   */
  lemma UnionLimitExactly(n: nat, a: seq<Row>, b: seq<Row>)
    ensures (forall out :: Interleaved([a, b], out) ==> Permuted(Take(n, out), Take(n, a + b))) <==> SameAtCut(a, b, n)
  {
    hide Interleaved, SameAtCut;
    if SameAtCut(a, b, n) {
      forall out | Interleaved([a, b], out) ensures Permuted(Take(n, out), Take(n, a + b)) {
        SameKept(n, a, b, out);
      }
    } else {
      var x, y := OtherKept(n, a, b);
    }
  }
}
