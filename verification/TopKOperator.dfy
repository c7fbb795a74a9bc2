/** The top-k operator: a bounded priority queue whose top is the worst row kept. */
module TopKOperator {
  import opened Values
  import opened Sequences
  import S = Sorting

  datatype Action = Inserted | Replaced | Skipped

  datatype Message = Record(row: Row) | EndOfInput

  /** No row is better than the one at `i`: the library queue may have it on top. */
  predicate IsWorst(key: Row -> Key, desc: bool, rows: seq<Row>, i: nat) {
    i < |rows| && forall j :: 0 <= j < |rows| ==> InOrder(desc, key(rows[j]), key(rows[i]))
  }

  lemma {:induction false} WorstExists(key: Row -> Key, desc: bool, rows: seq<Row>)
    requires rows != []
    ensures exists i: nat :: i < |rows| && IsWorst(key, desc, rows, i)
  {
    var sorted := S.Sort(key, desc, rows);
    S.SortSorted(key, desc, rows);
    S.SortMembers(key, desc, rows);
    S.SortMultiset(key, desc, rows);
    var worst := sorted[|sorted| - 1];
    assert worst in rows;
    var i: nat :| i < |rows| && rows[i] == worst;
    forall j | 0 <= j < |rows| ensures InOrder(desc, key(rows[j]), key(rows[i])) {
      assert rows[j] in sorted;
      var m :| 0 <= m < |sorted| && sorted[m] == rows[j];
      InOrderFacts(desc, key(worst), key(worst), key(worst));
    }
    assert IsWorst(key, desc, rows, i);
  }

  ghost predicate NoneBetter(key: Row -> Key, desc: bool, kept: seq<Row>, dropped: seq<Row>) {
    forall x, y :: x in kept && y in dropped ==> InOrder(desc, key(x), key(y))
  }

  /** The kept rows are as many as allowed, and no dropped row is better than a kept one. */
  ghost predicate KeepsBest(key: Row -> Key, desc: bool, k: nat, kept: seq<Row>, dropped: seq<Row>) {
    && |kept| <= k
    && (dropped != [] ==> |kept| == k)
    && NoneBetter(key, desc, kept, dropped)
  }

  /** Dropping a row that is no better than a worst kept one. */
  lemma SkipKeeps(key: Row -> Key, desc: bool, kept: seq<Row>, dropped: seq<Row>, i: nat, row: Row)
    requires NoneBetter(key, desc, kept, dropped) && IsWorst(key, desc, kept, i)
    requires InOrder(desc, key(kept[i]), key(row))
    ensures NoneBetter(key, desc, kept, dropped + [row])
  {
    forall x | x in kept ensures InOrder(desc, key(x), key(row)) {
      var j :| 0 <= j < |kept| && kept[j] == x;
      InOrderFacts(desc, key(x), key(kept[i]), key(row));
    }
  }

  /** Swapping a worst kept row for a better one. */
  lemma ReplaceKeeps(key: Row -> Key, desc: bool, kept: seq<Row>, dropped: seq<Row>, i: nat, row: Row)
    requires NoneBetter(key, desc, kept, dropped) && IsWorst(key, desc, kept, i)
    requires InOrder(desc, key(row), key(kept[i]))
    ensures NoneBetter(key, desc, kept[..i] + kept[i + 1..] + [row], dropped + [kept[i]])
  {
    forall x, y | x in kept[..i] + kept[i + 1..] + [row] && y in dropped + [kept[i]]
      ensures InOrder(desc, key(x), key(y))
    {
      if x in kept {
        var j :| 0 <= j < |kept| && kept[j] == x;
      } else {
        InOrderFacts(desc, key(row), key(kept[i]), key(y));
        assert kept[i] in kept;
      }
    }
  }

  /** The queue after `seen` rows: the best of them, with the rest dropped. */
  ghost predicate QueueOk(key: Row -> Key, desc: bool, k: nat, kept: seq<Row>, dropped: seq<Row>, seen: seq<Row>) {
    && k > 0
    && KeepsBest(key, desc, k, kept, dropped)
    && multiset(kept) + multiset(dropped) == multiset(seen)
  }

  lemma InsertOk(key: Row -> Key, desc: bool, k: nat, kept: seq<Row>, dropped: seq<Row>, seen: seq<Row>, row: Row)
    requires QueueOk(key, desc, k, kept, dropped, seen) && |kept| < k
    ensures QueueOk(key, desc, k, kept + [row], dropped, seen + [row])
  {
    hide InOrder;
    assert dropped == [];
  }

  lemma SkipOk(key: Row -> Key, desc: bool, k: nat, kept: seq<Row>, dropped: seq<Row>, seen: seq<Row>, i: nat, row: Row)
    requires QueueOk(key, desc, k, kept, dropped, seen) && |kept| == k
    requires IsWorst(key, desc, kept, i) && InOrder(desc, key(kept[i]), key(row))
    ensures QueueOk(key, desc, k, kept, dropped + [row], seen + [row])
  {
    hide NoneBetter, InOrder, IsWorst;
    SkipKeeps(key, desc, kept, dropped, i, row);
  }

  lemma ReplaceOk(key: Row -> Key, desc: bool, k: nat, kept: seq<Row>, dropped: seq<Row>, seen: seq<Row>, i: nat, row: Row)
    requires QueueOk(key, desc, k, kept, dropped, seen) && |kept| == k
    requires IsWorst(key, desc, kept, i) && InOrder(desc, key(row), key(kept[i]))
    ensures QueueOk(key, desc, k, kept[..i] + kept[i + 1..] + [row], dropped + [kept[i]], seen + [row])
  {
    hide NoneBetter, InOrder;
    ReplaceKeeps(key, desc, kept, dropped, i, row);
    S.MultisetRemove(kept, i);
    assert multiset(kept[..i] + kept[i + 1..] + [row]) + multiset(dropped + [kept[i]]) ==
           multiset(kept) + multiset(dropped) + multiset{row};
  }

  /** Best rows in order, with nothing better left behind, are the first rows of the sorted whole up to key ties. */
  lemma BestAreFirst(key: Row -> Key, desc: bool, k: nat, kept: seq<Row>, dropped: seq<Row>, seen: seq<Row>)
    requires KeepsBest(key, desc, k, kept, dropped) && S.Sorted(key, desc, kept)
    requires multiset(kept) + multiset(dropped) == multiset(seen)
    ensures Map(key, kept) == Map(key, Take(k, S.Sort(key, desc, seen)))
    ensures |kept| == Min(|seen|, k) && multiset(kept) <= multiset(seen)
  {
    hide S.Sort, InOrder, S.Sorted;
    var rest, all := S.Sort(key, desc, dropped), S.Sort(key, desc, seen);
    S.SortSorted(key, desc, dropped);
    S.SortMultiset(key, desc, dropped);
    S.SortMembers(key, desc, dropped);
    S.SortSorted(key, desc, seen);
    S.SortMultiset(key, desc, seen);
    S.SortedAppend(key, desc, kept, rest);
    S.SameKeys(key, desc, kept + rest, all);
    assert |kept| + |dropped| == |seen| by {
      assert |multiset(kept) + multiset(dropped)| == |multiset(seen)|;
    }
    assert Map(key, kept) == Map(key, kept + rest)[..|kept|];
    assert Map(key, Take(k, all)) == Map(key, all)[..|kept|];
  }

  /** Only membership matters for what was kept, so sorting the kept rows changes nothing. */
  lemma KeepsBestReordered(key: Row -> Key, desc: bool, k: nat, kept: seq<Row>, kept': seq<Row>, dropped: seq<Row>)
    requires KeepsBest(key, desc, k, kept, dropped) && multiset(kept) == multiset(kept')
    ensures KeepsBest(key, desc, k, kept', dropped)
  {
    assert |kept| == |multiset(kept)| == |multiset(kept')| == |kept'|;
    forall x | x in kept' ensures x in kept {
      assert x in multiset(kept');
    }
  }

  function Reverse(rows: seq<Row>): (r: seq<Row>)
    ensures |r| == |rows| && forall i :: 0 <= i < |rows| ==> r[i] == rows[|rows| - 1 - i]
    ensures multiset(r) == multiset(rows)
  {
    if rows == [] then []
    else
      S.MultisetCons(rows);
      Reverse(rows[1..]) + [rows[0]]
  }

  /** Rows sorted worst first, reversed, are sorted best first. */
  lemma ReverseSorted(key: Row -> Key, desc: bool, rows: seq<Row>)
    requires S.Sorted(key, !desc, rows)
    ensures S.Sorted(key, desc, Reverse(rows))
  {
  }

  /** Moving a worst kept row behind the rows drained so far. */
  lemma DrainStep(key: Row -> Key, desc: bool, res: seq<Row>, heap: seq<Row>, i: nat)
    requires S.Sorted(key, !desc, res) && NoneBetter(key, !desc, res, heap) && IsWorst(key, desc, heap, i)
    ensures S.Sorted(key, !desc, res + [heap[i]])
    ensures NoneBetter(key, !desc, res + [heap[i]], heap[..i] + heap[i + 1..])
  {
    assert heap[i] in heap;
    S.SortedAppend(key, !desc, res, [heap[i]]);
    forall y | y in heap ensures InOrder(!desc, key(heap[i]), key(y)) {
      var j :| 0 <= j < |heap| && heap[j] == y;
    }
  }

  class TopK {
    const key: Row -> Key
    const desc: bool
    const maxSize: nat
    /** Whether some subscriber is still there after a history of emissions. */
    const accepts: seq<Message> -> bool

    var heap: seq<Row>
    var out: seq<Message>
    var active: bool
    ghost var seen: seq<Row>
    ghost var dropped: seq<Row>

    ghost predicate Valid()
      reads this
    {
      QueueOk(key, desc, maxSize, heap, dropped, seen)
    }

    constructor (key: Row -> Key, desc: bool, topCount: nat, accepts: seq<Message> -> bool)
      requires topCount > 0
      ensures Valid() && active && seen == [] && out == []
      ensures this.key == key && this.desc == desc && maxSize == topCount && this.accepts == accepts
    {
      this.key, this.desc, maxSize, this.accepts := key, desc, topCount, accepts;
      heap, out, active, seen, dropped := [], [], true, [], [];
    }

    predicate Better(a: Key, b: Key) { if desc then KeyLe(b, a) && a != b else KeyLe(a, b) && a != b }

    /** Some position of a worst kept row: which one, the library decides. */
    method Top() returns (i: nat)
      requires heap != []
      ensures IsWorst(key, desc, heap, i)
    {
      WorstExists(key, desc, heap);
      i :| i < |heap| && IsWorst(key, desc, heap, i);
    }

    /** Takes in one row: it is kept while there is room, or in place of a strictly worse one. */
    method Push(row: Row) returns (action: Action)
      requires Valid()
      modifies `heap, `seen, `dropped
      ensures Valid() && seen == old(seen) + [row]
      ensures action == Inserted <==> |old(heap)| < maxSize
      ensures action == Inserted ==> heap == old(heap) + [row] && dropped == old(dropped)
      ensures action == Skipped ==> heap == old(heap) && dropped == old(dropped) + [row]
      ensures action == Replaced ==> exists i: nat :: Swapped(old(heap), old(dropped), i, row)
    {
      hide NoneBetter, InOrder;
      if |heap| < maxSize {
        InsertOk(key, desc, maxSize, heap, dropped, seen, row);
        heap, seen := heap + [row], seen + [row];
        return Inserted;
      }
      var i := Top();
      BetterMeans(key(row), key(heap[i]));
      if !Better(key(row), key(heap[i])) {
        SkipOk(key, desc, maxSize, heap, dropped, seen, i, row);
        dropped, seen := dropped + [row], seen + [row];
        return Skipped;
      }
      ReplaceOk(key, desc, maxSize, heap, dropped, seen, i, row);
      dropped, seen := dropped + [heap[i]], seen + [row];
      heap := heap[..i] + heap[i + 1..] + [row];
      assert Swapped(old(heap), old(dropped), i, row);
      return Replaced;
    }

    lemma BetterMeans(a: Key, b: Key)
      ensures Better(a, b) ==> InOrder(desc, a, b)
      ensures !Better(a, b) ==> InOrder(desc, b, a)
    {
      InOrderFacts(desc, a, b, b);
    }

    /** `row` took the place of a strictly worse row at `i`, which was dropped. */
    ghost predicate Swapped(heap0: seq<Row>, dropped0: seq<Row>, i: nat, row: Row)
      reads this
    {
      && IsWorst(key, desc, heap0, i) && Better(key(row), key(heap0[i]))
      && heap == heap0[..i] + heap0[i + 1..] + [row] && dropped == dropped0 + [heap0[i]]
    }

    /** Empties the queue, best row first. */
    method Drain() returns (res: seq<Row>)
      modifies `heap
      ensures heap == []
      ensures multiset(res) == multiset(old(heap)) && S.Sorted(key, desc, res)
    {
      res := [];
      while heap != []
        invariant multiset(heap) + multiset(res) == multiset(old(heap))
        invariant S.Sorted(key, !desc, res) && NoneBetter(key, !desc, res, heap)
        decreases |heap|
      {
        var i := Top();
        S.MultisetRemove(heap, i);
        DrainStep(key, desc, res, heap, i);
        res := res + [heap[i]];
        heap := heap[..i] + heap[i + 1..];
      }
      ReverseSorted(key, desc, res);
      res := Reverse(res);
    }

    method Emit(m: Message) returns (more: bool)
      modifies `out, `active
      ensures out == old(out) + [m] && active == more == accepts(out)
    {
      out := out + [m];
      active := accepts(out);
      more := active;
    }

    /** One call by the input. */
    method Consume(m: Message) returns (more: bool)
      requires Valid()
      requires m.EndOfInput? ==> out == [] && active
      modifies this
      ensures m.Record? && old(active) ==>
        more && Valid() && seen == old(seen) + [m.row] && out == old(out) && active
      ensures m.Record? && !old(active) ==> !more && heap == [] && out == old(out)
      ensures m.EndOfInput? ==> heap == [] && exists rows, n: nat :: EmittedBest(old(seen), rows, n)
    {
      if m.Record? {
        if !active {
          heap := [];
          return false;
        }
        var _ := Push(m.row);
        return true;
      }
      more := Finish();
    }

    /** The end of the input: everything kept goes out, best first, unless the subscribers refuse. */
    method Finish() returns (more: bool)
      requires Valid() && out == [] && active
      modifies `heap, `out, `active
      ensures heap == [] && exists rows, n: nat :: EmittedBest(old(seen), rows, n)
    {
      hide Best, QueueOk;
      var rows := Drain();
      DrainedBest(key, desc, maxSize, old(heap), dropped, seen, rows);
      ghost var n;
      more, n := EmitAll(rows);
      assert EmittedBest(old(seen), rows, n);
    }

    /** Rows one by one and the end, as long as the subscribers want them. */
    method EmitAll(rows: seq<Row>) returns (more: bool, ghost n: nat)
      requires out == [] && active
      modifies `out, `active
      ensures Sent(rows, n)
    {
      var i := 0;
      while i < |rows|
        invariant 0 <= i <= |rows|
        invariant out == Records(rows[..i]) && active
      {
        more := Emit(Record(rows[i]));
        assert rows[..i + 1] == rows[..i] + [rows[i]];
        if !more {
          return false, i + 1;
        }
        i := i + 1;
      }
      assert rows[..i] == rows;
      more := Emit(EndOfInput);
      n := |rows|;
    }

    /** All rows went out and the end followed, or the subscribers refused the `n`th and nothing followed. */
    ghost predicate Sent(rows: seq<Row>, n: nat)
      reads this
    {
      && n <= |rows|
      && (out == Records(rows) + [EndOfInput] || (out == Records(rows[..n]) && n > 0 && !accepts(out)))
    }

    /** The best rows were sent. */
    ghost predicate EmittedBest(all: seq<Row>, rows: seq<Row>, n: nat)
      reads this
    {
      Best(key, desc, maxSize, all, rows) && Sent(rows, n)
    }
  }

  /** `rows` are a sorted selection of `all` with the keys of the first `k` rows of the sorted whole. */
  ghost predicate Best(key: Row -> Key, desc: bool, k: nat, all: seq<Row>, rows: seq<Row>) {
    && S.Sorted(key, desc, rows)
    && multiset(rows) <= multiset(all)
    && |rows| == Min(|all|, k)
    && Map(key, rows) == Map(key, Take(k, S.Sort(key, desc, all)))
  }

  /** The kept rows in order are the best rows. */
  lemma DrainedBest(key: Row -> Key, desc: bool, k: nat, kept: seq<Row>, dropped: seq<Row>, seen: seq<Row>, rows: seq<Row>)
    requires QueueOk(key, desc, k, kept, dropped, seen)
    requires multiset(rows) == multiset(kept) && S.Sorted(key, desc, rows)
    ensures Best(key, desc, k, seen, rows)
  {
    hide S.Sort, S.Sorted, NoneBetter;
    KeepsBestReordered(key, desc, k, kept, rows, dropped);
    BestAreFirst(key, desc, k, rows, dropped, seen);
  }

  function Records(rows: seq<Row>): seq<Message> {
    seq(|rows|, i requires 0 <= i < |rows| => Record(rows[i]))
  }
}
