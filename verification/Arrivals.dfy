/** The rows an operation may emit in a run, whatever the order its inputs' rows arrive in. */
module Arrivals {
  import opened Values
  import opened Sequences
  import opened Scalars
  import opened Relations
  import opened Pruning
  import opened Permutations
  import opened TopKOperator
  import S = Sorting

  /** Every row of `out` is the next row of one input, and no input has rows left. */
  ghost predicate Interleaved(ins: seq<seq<Row>>, out: seq<Row>)
    decreases |out|
  {
    if out == [] then forall k :: 0 <= k < |ins| ==> ins[k] == []
    else exists k :: 0 <= k < |ins| && Goes(ins, k, out[0]) && Interleaved(ins[k := ins[k][1..]], out[1..])
  }

  /** The next row of input `k`. */
  ghost predicate Goes(ins: seq<seq<Row>>, k: int, row: Row)
    requires 0 <= k < |ins|
  {
    ins[k] != [] && ins[k][0] == row
  }

  predicate TurnOk(t: Turn) {
    |t.ss| == |t.ins| && ArityIs(t.op, |t.ins|)
  }

  /**
   * What an operation may emit. A union emits rows as they arrive; a sort and a heap do not order ties; a merge
   * keeps the order of each side, and is sorted if both sides are; groups come in the order of a hash table.
   */
  ghost predicate MayEmit(env: Env, t: Turn, out: seq<Row>)
    requires TurnOk(t)
  {
    match t.op
    case UnionAllOp => Interleaved(t.ins, out)
    case SortOp(order, desc) => S.Sorted(KeyFn(env, t.ss[0], order), desc, out) && Permuted(out, t.ins[0])
    case TopKOp(order, desc, k) => Best(KeyFn(env, t.ss[0], order), desc, k, t.ins[0], out)
    case MergeOp(order, desc) =>
      && Interleaved(t.ins, out)
      && (MergeInputsSorted(env, t.op, t.ss, t.ins) ==> S.Sorted(KeyFn(env, t.ss[0], order), desc, out))
    case GroupOp(_, _) => Permuted(out, PhysRows(env, t.op, t.required, t.schema, t.ss, t.ins))
    case _ => out == PhysRows(env, t.op, t.required, t.schema, t.ss, t.ins)
  }

  /** A run: every operation emits rows it may emit. */
  ghost predicate Honest(env: Env, arrival: Arrival) {
    forall t :: TurnOk(t) ==> MayEmit(env, t, arrival(t))
  }

  // --- interleavings ---

  lemma FlattenPick(ins: seq<seq<Row>>, k: nat)
    requires k < |ins| && ins[k] != []
    ensures multiset(Flatten(ins)) == multiset{ins[k][0]} + multiset(Flatten(ins[k := ins[k][1..]]))
  {
    var before, after := ins[..k], ins[k + 1..];
    assert ins == before + ([ins[k]] + after);
    assert ins[k := ins[k][1..]] == before + ([ins[k][1..]] + after);
    FlattenAppend(before, [ins[k]] + after);
    FlattenAppend(before, [ins[k][1..]] + after);
    S.MultisetCons(ins[k]);
  }

  lemma {:induction false} FlattenNothing(ins: seq<seq<Row>>)
    requires forall k :: 0 <= k < |ins| ==> ins[k] == []
    ensures Flatten(ins) == []
  {
    if ins != [] {
      FlattenNothing(ins[1..]);
    }
  }

  /** An interleaving has the rows of all inputs. */
  lemma {:induction false} InterleavedRows(ins: seq<seq<Row>>, out: seq<Row>)
    requires Interleaved(ins, out)
    ensures Permuted(out, Flatten(ins))
    decreases |out|
  {
    if out == [] {
      FlattenNothing(ins);
    } else {
      var k :| 0 <= k < |ins| && Goes(ins, k, out[0]) && Interleaved(ins[k := ins[k][1..]], out[1..]);
      InterleavedRows(ins[k := ins[k][1..]], out[1..]);
      FlattenPick(ins, k);
      S.MultisetCons(out);
    }
  }

  /** One input may deliver its next row, and the rest is interleaved. */
  lemma InterleavedCons(ins: seq<seq<Row>>, k: nat, out: seq<Row>)
    requires k < |ins| && out != [] && Goes(ins, k, out[0]) && Interleaved(ins[k := ins[k][1..]], out[1..])
    ensures Interleaved(ins, out)
  {
  }

  /** Inputs may arrive one after another. */
  lemma {:induction false} FlattenInterleaved(ins: seq<seq<Row>>, n: nat)
    requires n <= |ins| && forall k :: 0 <= k < n ==> ins[k] == []
    ensures Interleaved(ins, Flatten(ins[n..]))
    decreases |ins| - n, |Flatten(ins[n..])|
  {
    if n < |ins| {
      assert ins[n..][1..] == ins[n + 1..];
      if ins[n] == [] {
        FlattenInterleaved(ins, n + 1);
        assert Flatten(ins[n..]) == Flatten(ins[n + 1..]);
      } else {
        var out, rest := Flatten(ins[n..]), ins[n := ins[n][1..]];
        assert rest[n..] == [ins[n][1..]] + ins[n + 1..];
        assert Flatten(rest[n..]) == out[1..];
        FlattenInterleaved(rest, n);
        InterleavedCons(ins, n, out);
      }
    }
  }

  lemma {:induction false} MergeInterleaved(key: Row -> Key, desc: bool, a: seq<Row>, b: seq<Row>)
    ensures Interleaved([a, b], S.Merge(key, desc, a, b))
    decreases |a| + |b|
  {
    hide InOrder;
    var out := S.Merge(key, desc, a, b);
    if a != [] && (b == [] || InOrder(desc, key(a[0]), key(b[0]))) {
      MergeInterleaved(key, desc, a[1..], b);
      assert [a, b][0 := a[1..]] == [a[1..], b];
      assert out[1..] == S.Merge(key, desc, a[1..], b);
      InterleavedCons([a, b], 0, out);
    } else if b != [] {
      MergeInterleaved(key, desc, a, b[1..]);
      assert [a, b][1 := b[1..]] == [a, b[1..]];
      assert out[1..] == S.Merge(key, desc, a, b[1..]);
      InterleavedCons([a, b], 1, out);
    }
  }

  // --- a run in input order ---

  lemma TakeSplit(n: nat, rows: seq<Row>)
    ensures multiset(rows) == multiset(Take(n, rows)) + multiset(rows[|Take(n, rows)|..])
    ensures |Take(n, rows)| == Min(|rows|, n)
  {
    assert rows == Take(n, rows) + rows[|Take(n, rows)|..];
  }

  /** The first rows of the sorted whole are a best selection. */
  lemma FirstAreBest(key: Row -> Key, desc: bool, k: nat, rows: seq<Row>)
    ensures Best(key, desc, k, rows, Take(k, S.Sort(key, desc, rows)))
  {
    hide InOrder, S.Sort;
    var sorted := S.Sort(key, desc, rows);
    S.SortSorted(key, desc, rows);
    S.SortMultiset(key, desc, rows);
    TakeSplit(k, sorted);
  }

  /** Emitting in input order is one of the runs. */
  lemma InputOrderHonest(env: Env)
    ensures Honest(env, InputOrder(env))
  {
    forall t: Turn | TurnOk(t) ensures MayEmit(env, t, InputOrder(env)(t)) {
      InputOrderMay(env, t);
    }
  }

  lemma InputOrderMay(env: Env, t: Turn)
    requires TurnOk(t)
    ensures MayEmit(env, t, PhysRows(env, t.op, t.required, t.schema, t.ss, t.ins))
  {
    match t.op {
      case UnionAllOp => FlattenInterleaved(t.ins, 0); assert t.ins[0..] == t.ins;
      case SortOp(order, desc) =>
        S.SortSorted(KeyFn(env, t.ss[0], order), desc, t.ins[0]);
        S.SortMultiset(KeyFn(env, t.ss[0], order), desc, t.ins[0]);
      case TopKOp(order, desc, k) => FirstAreBest(KeyFn(env, t.ss[0], order), desc, k, t.ins[0]);
      case MergeOp(order, desc) =>
        var key := KeyFn(env, t.ss[0], order);
        MergeInterleaved(key, desc, t.ins[0], t.ins[1]);
        assert [t.ins[0], t.ins[1]] == t.ins;
        if MergeInputsSorted(env, t.op, t.ss, t.ins) {
          S.MergeSorted(key, desc, t.ins[0], t.ins[1]);
        }
      case _ =>
    }
  }

  // --- operations on rearranged inputs ---

  /** The bodies of aggregate functions do not depend on the order rows are fed in. */
  ghost predicate OrderFree(env: Env) {
    forall name, a, b :: Permuted(a, b) ==> env.aggregate(name, a) == env.aggregate(name, b)
  }

  ghost predicate AllPermuted(ins: seq<seq<Row>>, cs: seq<seq<Row>>) {
    |ins| == |cs| && forall k :: 0 <= k < |ins| ==> Permuted(ins[k], cs[k])
  }

  lemma FirstArgsPermuted(a: seq<seq<Value>>, b: seq<seq<Value>>)
    requires Permuted(a, b)
    ensures Permuted(FirstArgs(a), FirstArgs(b))
  {
    var first := (vs: seq<Value>) => if vs == [] then Null else vs[0];
    S.MapMultiset(first, a, b);
    assert FirstArgs(a) == Map(first, a) && FirstArgs(b) == Map(first, b);
  }

  lemma AggregatePermuted(env: Env, s: Schema, node: AggregateNode, a: seq<Row>, b: seq<Row>)
    requires OrderFree(env) && Permuted(a, b)
    ensures AggregateValue(env, s, a, node) == AggregateValue(env, s, b, node)
  {
    PermutedLength(a, b);
    if node.FnAggregate? {
      var x, y := ArgTuples(env, s, a, node.args), ArgTuples(env, s, b, node.args);
      S.MapMultiset(KeyFn(env, s, node.args), a, b);
      assert x == Map(KeyFn(env, s, node.args), a) && y == Map(KeyFn(env, s, node.args), b);
      FirstArgsPermuted(x, y);
      match node.fn {
        case CountAll =>
        case CountNonNull => CountPermuted(FirstArgs(x), FirstArgs(y));
        case MinOf => MinPermuted(FirstArgs(x), FirstArgs(y));
        case MaxOf => MaxPermuted(FirstArgs(x), FirstArgs(y));
        case NamedAggregate(_) =>
      }
    }
  }

  lemma AggregateRowPermuted(env: Env, s: Schema, aggs: seq<Aggregate>, a: seq<Row>, b: seq<Row>)
    requires OrderFree(env) && Permuted(a, b)
    ensures AggregateRow(env, s, a, aggs) == AggregateRow(env, s, b, aggs)
  {
    hide AggregateValue;
    forall i | 0 <= i < |aggs|
      ensures AggregateValue(env, s, a, aggs[i].node) == AggregateValue(env, s, b, aggs[i].node)
    {
      AggregatePermuted(env, s, aggs[i].node, a, b);
    }
  }

  lemma GroupRowPermuted(env: Env, s: Schema, aggs: seq<Aggregate>, keys: seq<Projector>, required: set<FieldId>,
                         a: seq<Row>, b: seq<Row>, k: Key)
    requires OrderFree(env) && Permuted(a, b)
    ensures MaskedGroupRow(env, s, a, aggs, keys, required)(k) == MaskedGroupRow(env, s, b, aggs, keys, required)(k)
  {
    hide AggregateValue;
    var x, y := Filter(HasKey(env, s, keys, k), a), Filter(HasKey(env, s, keys, k), b);
    FilterPermuted(HasKey(env, s, keys, k), a, b);
    forall i | 0 <= i < |aggs|
      ensures AggregateValue(env, s, x, aggs[i].node) == AggregateValue(env, s, y, aggs[i].node)
    {
      AggregatePermuted(env, s, aggs[i].node, x, y);
    }
    assert MaskedAggregateRow(env, s, x, aggs, required) == MaskedAggregateRow(env, s, y, aggs, required);
  }

  lemma GroupsPermuted(env: Env, s: Schema, aggs: seq<Aggregate>, keys: seq<Projector>, required: set<FieldId>,
                       a: seq<Row>, b: seq<Row>)
    requires OrderFree(env) && Permuted(a, b)
    ensures var key := KeyFn(env, s, Exprs(keys));
            Permuted(Map(MaskedGroupRow(env, s, a, aggs, keys, required), DistinctKeys(Map(key, a))),
                     Map(MaskedGroupRow(env, s, b, aggs, keys, required), DistinctKeys(Map(key, b))))
  {
    hide DistinctKeys;
    var key := KeyFn(env, s, Exprs(keys));
    var f, g := MaskedGroupRow(env, s, a, aggs, keys, required), MaskedGroupRow(env, s, b, aggs, keys, required);
    S.MapMultiset(key, a, b);
    DistinctKeysPermuted(Map(key, a), Map(key, b));
    var ka, kb := DistinctKeys(Map(key, a)), DistinctKeys(Map(key, b));
    forall k ensures f(k) == g(k) {
      GroupRowPermuted(env, s, aggs, keys, required, a, b, k);
    }
    assert Map(f, ka) == Map(g, ka);
    S.MapMultiset(g, ka, kb);
  }

  lemma JoinRowsPermuted(env: Env, ls: Schema, rs: Schema, lk: Scalar, rk: Scalar, l: Row, a: seq<Row>, b: seq<Row>)
    requires Permuted(a, b)
    ensures Permuted(JoinFn(env, ls, rs, lk, rk, a)(l), JoinFn(env, ls, rs, lk, rk, b)(l))
  {
    var key := Eval(env, ls, l, lk);
    FilterPermuted(RightMatches(env, rs, rk, key), a, b);
    var x, y := Matches(env, rs, rk, a, key), Matches(env, rs, rk, b, key);
    PermutedLength(x, y);
    S.MapMultiset(JoinRow(ls, rs, l), x, y);
  }

  lemma LeftJoinPermuted(env: Env, ls: Schema, rs: Schema, lk: Scalar, rk: Scalar,
                         a: seq<Row>, b: seq<Row>, right: seq<Row>, right': seq<Row>)
    requires Permuted(a, b) && Permuted(right, right')
    ensures Permuted(Flatten(Map(JoinFn(env, ls, rs, lk, rk, right), a)), Flatten(Map(JoinFn(env, ls, rs, lk, rk, right'), b)))
  {
    var f, g := JoinFn(env, ls, rs, lk, rk, right), JoinFn(env, ls, rs, lk, rk, right');
    forall l | l in a ensures Permuted(f(l), g(l)) {
      JoinRowsPermuted(env, ls, rs, lk, rk, l, right, right');
    }
    FlatPermuted(f, g, a, b);
  }

  lemma MatchSetPermuted(a: seq<Row>, b: seq<Row>)
    requires Permuted(a, b)
    ensures MatchSet(a) == MatchSet(b)
  {
    MatchSetWithin(a, b);
    MatchSetWithin(b, a);
  }

  lemma MatchSetWithin(a: seq<Row>, b: seq<Row>)
    requires Permuted(a, b)
    ensures MatchSet(a) <= MatchSet(b)
  {
    forall i | 0 <= i < |a| ensures (if |a[i]| > 0 then a[i][0] else Null) in MatchSet(b) {
      PermutedMembers(a, b, a[i]);
      var j :| 0 <= j < |b| && b[j] == a[i];
    }
  }

  lemma {:induction false} UnionPermuted(ins: seq<seq<Row>>, cs: seq<seq<Row>>)
    requires AllPermuted(ins, cs)
    ensures Permuted(Flatten(ins), Flatten(cs))
  {
    if ins != [] {
      UnionPermuted(ins[1..], cs[1..]);
      assert Permuted(ins[0], cs[0]);
    }
  }

  /** Limits and top-k operators keep the rows that come first. */
  predicate KeepsFirst(op: Op) { op.LimitOp? || op.TopKOp? }

  /** On rearranged inputs, whatever an operation may emit is a rearrangement of its rows. */
  lemma OpPermuted(env: Env, t: Turn, cs: seq<seq<Row>>, out: seq<Row>)
    requires TurnOk(t) && AllPermuted(t.ins, cs) && OrderFree(env) && MayEmit(env, t, out) && !KeepsFirst(t.op)
    ensures Permuted(out, PhysRows(env, t.op, t.required, t.schema, t.ss, cs))
  {
    var ins, ss := t.ins, t.ss;
    match t.op {
      case ProjectionOp(ps) => S.MapMultiset(MaskedProjectFn(env, ss[0], ps, t.required), ins[0], cs[0]);
      case FilterOp(c) => FilterPermuted(CondFn(env, ss[0], c), ins[0], cs[0]);
      case SortOp(order, desc) => S.SortMultiset(KeyFn(env, ss[0], order), desc, cs[0]);
      case UnionAllOp =>
        InterleavedRows(ins, out);
        UnionPermuted(ins, cs);
      case MergeOp(order, desc) => MergePermuted(KeyFn(env, ss[0], order), desc, ins, cs, out);
      case LeftJoinOp(lk, rk) => LeftJoinPermuted(env, ss[0], ss[1], lk, rk, ins[0], cs[0], ins[1], cs[1]);
      case SemiJoinOp(key, _) =>
        MatchSetPermuted(ins[1], cs[1]);
        FilterPermuted(MatchFn(env, ss[0], key, MatchSet(ins[1])), ins[0], cs[0]);
      case MarkJoinOp(key, _, _) =>
        MatchSetPermuted(ins[1], cs[1]);
        S.MapMultiset(MarkFn(env, ss[0], key, MatchSet(ins[1])), ins[0], cs[0]);
      case AggregateOp(aggs) => AggregateRowPermuted(env, ss[0], aggs, ins[0], cs[0]);
      case GroupOp(aggs, keys) => GroupsPermuted(env, ss[0], aggs, keys, t.required, ins[0], cs[0]);
      case _ =>
    }
  }

  lemma FlattenTwo(ss: seq<seq<Row>>)
    requires |ss| == 2
    ensures Flatten(ss) == ss[0] + ss[1]
  {
    assert Flatten(ss[1..][1..]) == [];
  }

  lemma MergePermuted(key: Row -> Key, desc: bool, ins: seq<seq<Row>>, cs: seq<seq<Row>>, out: seq<Row>)
    requires AllPermuted(ins, cs) && |ins| == 2 && Interleaved(ins, out)
    ensures Permuted(out, S.Merge(key, desc, cs[0], cs[1]))
  {
    InterleavedRows(ins, out);
    UnionPermuted(ins, cs);
    S.MergeMultiset(key, desc, cs[0], cs[1]);
    FlattenTwo(cs);
  }
}
