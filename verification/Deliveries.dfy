/**
 * What the operations of a plan deliver in any run: the rows of the full plan, rearranged, as long as no
 * operator cuts through rows that may come in another order.
 */
module Deliveries {
  import opened Values
  import opened Wrappers
  import opened Sequences
  import opened Scalars
  import opened Relations
  import opened Plans
  import opened Pointwise
  import opened Pruning
  import opened Permutations
  import opened TopKOperator
  import opened Arrivals
  import opened Cuts
  import S = Sorting

  // --- rows whose order no run changes ---

  /** At most one input has rows. */
  ghost predicate OneSource(ins: seq<seq<Row>>) {
    forall k, m :: 0 <= k < m < |ins| ==> ins[k] == [] || ins[m] == []
  }

  /** No two rows have the same key. */
  ghost predicate KeysDiffer(key: Row -> Key, rows: seq<Row>) {
    NoRepeats(Map(key, rows))
  }

  /** An operator leaves no choice of order, given its full inputs and which of them come in order for sure. */
  ghost predicate OrderKept(env: Env, op: Op, ss: seq<Schema>, fulls: seq<seq<Row>>, sure: seq<bool>)
    requires |ss| == |fulls| == |sure| && ArityIs(op, |ss|)
  {
    match op
    case EmptyOp => true
    case LogOp(_) => true
    case NamedOp(_) => false
    case ValuesOp(_, _) => true
    case SortOp(order, _) => KeysDiffer(KeyFn(env, ss[0], order), fulls[0])
    case TopKOp(order, _, _) => KeysDiffer(KeyFn(env, ss[0], order), fulls[0])
    case UnionAllOp => OneSource(fulls) && forall k :: 0 <= k < |sure| ==> sure[k]
    case MergeOp(order, _) =>
      sure[0] && sure[1] && MergeInputsSorted(env, op, ss, fulls) && KeysDiffer(KeyFn(env, ss[0], order), fulls[0] + fulls[1])
    case LeftJoinOp(_, _) => sure[0] && sure[1]
    case AggregateOp(_) => true
    case GroupOp(_, _) => false
    case _ => sure[0]
  }

  /** The rows of an operation come in the order of the full plan in every run. */
  ghost predicate Settled(env: Env, nodes: seq<Node>, i: nat)
    requires PlanOk(nodes) && i < |nodes|
    decreases i, 1
  {
    assert NodeOk(nodes, i);
    |Full(env, nodes, i)| <= 1 ||
    OrderKept(env, nodes[i].op, InSchemas(nodes, i), FullInputs(env, nodes, i), SettledInputs(env, nodes, i))
  }

  ghost function SettledInputs(env: Env, nodes: seq<Node>, i: nat): (sure: seq<bool>)
    requires PlanOk(nodes) && i < |nodes|
    ensures |sure| == |nodes[i].inputs|
    ensures NodeOk(nodes, i) && forall k :: 0 <= k < |sure| ==> sure[k] == Settled(env, nodes, nodes[i].inputs[k])
    decreases i, 0
  {
    assert NodeOk(nodes, i);
    seq(|nodes[i].inputs|, k requires 0 <= k < |nodes[i].inputs| => Settled(env, nodes, nodes[i].inputs[k]))
  }

  /** Which rows a cut keeps does not depend on what the operators leave open. */
  ghost predicate CutSettled(env: Env, op: Op, ss: seq<Schema>, fulls: seq<seq<Row>>, sure: seq<bool>)
    requires |ss| == |fulls| == |sure| && ArityIs(op, |ss|)
  {
    match op
    case LimitOp(n) => n == 0 || |fulls[0]| <= n || sure[0]
    case TopKOp(order, desc, k) => 0 < k < |fulls[0]| ==> CleanCut(KeyFn(env, ss[0], order), desc, k, fulls[0])
    case _ => true
  }

  ghost predicate CutsSettled(env: Env, nodes: seq<Node>)
    requires PlanOk(nodes)
  {
    forall i :: 0 <= i < |nodes| ==>
      NodeOk(nodes, i) && CutSettled(env, nodes[i].op, InSchemas(nodes, i), FullInputs(env, nodes, i), SettledInputs(env, nodes, i))
  }

  // --- one operation ---

  /** An arrangement of the rows agrees with the full rows; rows that come in order for sure need none. */
  ghost predicate Arranged(s: Schema, fields: set<FieldId>, sure: bool, rows: seq<Row>, c: seq<Row>, full: seq<Row>) {
    Permuted(rows, c) && Alike(SameOn(s, fields), c, full) && (sure ==> c == rows)
  }

  ghost predicate AllArranged(op: Op, ss: seq<Schema>, required: set<FieldId>, sure: seq<bool>,
                              ins: seq<seq<Row>>, cs: seq<seq<Row>>, fulls: seq<seq<Row>>)
    requires ArityIs(op, |ss|)
  {
    && |ss| == |sure| == |ins| == |cs| == |fulls|
    && forall k :: 0 <= k < |ins| ==> Arranged(ss[k], InputFields(op, ss, required, k), sure[k], ins[k], cs[k], fulls[k])
  }

  /** Rows that agree on the columns a key reads have the same keys. */
  lemma KeysAlike(env: Env, s: Schema, fields: set<FieldId>, order: seq<Scalar>, a: seq<Row>, b: seq<Row>)
    requires Alike(SameOn(s, fields), a, b) && AllFields(order) <= fields
    ensures Map(KeyFn(env, s, order), a) == Map(KeyFn(env, s, order), b)
  {
    SameEvalAll(env, s, fields, order);
    forall i | 0 <= i < |a| ensures KeyFn(env, s, order)(a[i]) == KeyFn(env, s, order)(b[i]) {
      assert SameOn(s, fields)(a[i], b[i]);
    }
  }

  lemma SortKeysAlike(key: Row -> Key, desc: bool, a: seq<Row>, b: seq<Row>)
    requires Map(key, a) == Map(key, b)
    ensures Map(key, S.Sort(key, desc, a)) == Map(key, S.Sort(key, desc, b))
  {
    var same := (x: Row, y: Row) => key(x) == key(y);
    assert Alike(same, a, b) by {
      forall i | 0 <= i < |a| ensures key(a[i]) == key(b[i]) {
        assert Map(key, a)[i] == Map(key, b)[i];
      }
    }
    AlikeSort(same, key, key, desc, a, b);
  }

  /** Whether a cut is clean depends on the keys only. */
  lemma CleanCutAlike(key: Row -> Key, desc: bool, k: nat, a: seq<Row>, b: seq<Row>)
    requires Map(key, a) == Map(key, b) && 0 < k < |a|
    requires |a| == |b| && CleanCut(key, desc, k, b)
    ensures CleanCut(key, desc, k, a)
  {
    SortKeysAlike(key, desc, a, b);
    S.SortMultiset(key, desc, a);
    S.SortMultiset(key, desc, b);
    var x, y := S.Sort(key, desc, a), S.Sort(key, desc, b);
    assert Map(key, x)[k - 1] == Map(key, y)[k - 1] && Map(key, x)[k] == Map(key, y)[k];
  }

  lemma BestPermuted(key: Row -> Key, desc: bool, k: nat, a: seq<Row>, b: seq<Row>, out: seq<Row>)
    requires Best(key, desc, k, a, out) && Permuted(a, b)
    ensures Best(key, desc, k, b, out)
  {
    hide S.Sort, S.Sorted, InOrder;
    PermutedLength(a, b);
    var x, y := S.Sort(key, desc, a), S.Sort(key, desc, b);
    S.SortMultiset(key, desc, a);
    S.SortMultiset(key, desc, b);
    S.SortSorted(key, desc, a);
    S.SortSorted(key, desc, b);
    S.SameKeys(key, desc, x, y);
    assert Map(key, Take(k, x)) == Take(k, Map(key, x));
    assert Map(key, Take(k, y)) == Take(k, Map(key, y));
  }

  lemma LimitPermuted(n: nat, a: seq<Row>, b: seq<Row>)
    requires Permuted(a, b) && |a| == |b| && (n == 0 || |a| <= n || a == b)
    ensures Permuted(Take(n, a), Take(n, b))
  {
    if n > 0 && a != b {
      assert Take(n, a) == a && Take(n, b) == b;
    }
  }

  /** A cut that keeps the same rows in every run. */
  lemma CutPermuted(env: Env, t: Turn, sure: seq<bool>, cs: seq<seq<Row>>, fulls: seq<seq<Row>>, out: seq<Row>)
    requires TurnOk(t) && AllArranged(t.op, t.ss, t.required, sure, t.ins, cs, fulls) && KeepsFirst(t.op)
    requires CutSettled(env, t.op, t.ss, fulls, sure) && MayEmit(env, t, out)
    ensures Permuted(out, PhysRows(env, t.op, t.required, t.schema, t.ss, cs))
  {
    hide SameOn, Alike, CleanCut, Best;
    assert Arranged(t.ss[0], InputFields(t.op, t.ss, t.required, 0), sure[0], t.ins[0], cs[0], fulls[0]);
    SameLength(t.ss[0], InputFields(t.op, t.ss, t.required, 0), sure[0], t.ins[0], cs[0], fulls[0]);
    match t.op {
      case LimitOp(n) => LimitPermuted(n, t.ins[0], cs[0]);
      case TopKOp(order, desc, k) =>
        var key := KeyFn(env, t.ss[0], order);
        BestPermuted(key, desc, k, t.ins[0], cs[0], out);
        if 0 < k < |cs[0]| {
          KeysAlike(env, t.ss[0], InputFields(t.op, t.ss, t.required, 0), order, cs[0], fulls[0]);
          CleanCutAlike(key, desc, k, cs[0], fulls[0]);
          CleanCutPermuted(key, desc, k, cs[0], out);
        } else {
          NoCut(key, desc, k, cs[0], out);
        }
    }
  }

  lemma SameLength(s: Schema, fields: set<FieldId>, sure: bool, rows: seq<Row>, c: seq<Row>, full: seq<Row>)
    requires Arranged(s, fields, sure, rows, c, full)
    ensures |rows| == |c| == |full|
  {
    PermutedLength(rows, c);
  }

  // --- order ---

  lemma {:induction false} OneSourceOnly(ins: seq<seq<Row>>, out: seq<Row>)
    requires Interleaved(ins, out) && OneSource(ins)
    ensures out == Flatten(ins)
    decreases |out|
  {
    if out == [] {
      FlattenNothing(ins);
    } else {
      var k :| 0 <= k < |ins| && Goes(ins, k, out[0]) && Interleaved(ins[k := ins[k][1..]], out[1..]);
      OneSourceOnly(ins[k := ins[k][1..]], out[1..]);
      OnlySource(ins, k);
      OnlySource(ins[k := ins[k][1..]], k);
      assert out == [out[0]] + out[1..];
    }
  }

  lemma OnlySource(ins: seq<seq<Row>>, k: nat)
    requires k < |ins| && forall m :: 0 <= m < |ins| && m != k ==> ins[m] == []
    ensures Flatten(ins) == ins[k]
  {
    assert ins == ins[..k] + ([ins[k]] + ins[k + 1..]);
    FlattenAppend(ins[..k], [ins[k]] + ins[k + 1..]);
    FlattenNothing(ins[..k]);
    FlattenNothing(ins[k + 1..]);
  }

  /** Where keys differ, rows taken from the same ones are the same if their keys are. */
  lemma SameByKeys(key: Row -> Key, all: seq<Row>, a: seq<Row>, b: seq<Row>)
    requires KeysDiffer(key, all) && Map(key, a) == Map(key, b)
    requires (forall x :: x in a ==> x in all) && (forall x :: x in b ==> x in all)
    ensures a == b
  {
    assert |a| == |Map(key, a)| == |b|;
    forall i | 0 <= i < |a| ensures a[i] == b[i] {
      assert a[i] in all && b[i] in all;
      var p :| 0 <= p < |all| && all[p] == a[i];
      var q :| 0 <= q < |all| && all[q] == b[i];
      assert Map(key, a)[i] == Map(key, b)[i];
      assert Map(key, all)[p] == Map(key, all)[q];
    }
  }

  lemma SortInOrder(key: Row -> Key, desc: bool, rows: seq<Row>, out: seq<Row>)
    requires KeysDiffer(key, rows) && S.Sorted(key, desc, out) && Permuted(out, rows)
    ensures out == S.Sort(key, desc, rows)
  {
    hide S.Sort, S.Sorted, KeysDiffer;
    S.SortMultiset(key, desc, rows);
    S.SortSorted(key, desc, rows);
    S.SameKeys(key, desc, out, S.Sort(key, desc, rows));
    MembersWithin(out, rows);
    MembersWithin(S.Sort(key, desc, rows), rows);
    SameByKeys(key, rows, out, S.Sort(key, desc, rows));
  }

  lemma TopKInOrder(key: Row -> Key, desc: bool, k: nat, rows: seq<Row>, out: seq<Row>)
    requires KeysDiffer(key, rows) && Best(key, desc, k, rows, out)
    ensures out == Take(k, S.Sort(key, desc, rows))
  {
    hide S.Sort, S.Sorted, KeysDiffer;
    var sorted := S.Sort(key, desc, rows);
    S.SortMultiset(key, desc, rows);
    TakeSplit(k, sorted);
    MembersWithin(out, rows);
    MembersWithin(Take(k, sorted), rows);
    SameByKeys(key, rows, out, Take(k, sorted));
  }

  lemma MergeInOrder(key: Row -> Key, desc: bool, a: seq<Row>, b: seq<Row>, out: seq<Row>)
    requires KeysDiffer(key, a + b) && S.Sorted(key, desc, a) && S.Sorted(key, desc, b)
    requires S.Sorted(key, desc, out) && Interleaved([a, b], out)
    ensures out == S.Merge(key, desc, a, b)
  {
    hide S.Merge, S.Sorted, KeysDiffer, Interleaved;
    InterleavedRows([a, b], out);
    FlattenTwo([a, b]);
    S.MergeMultiset(key, desc, a, b);
    S.MergeSorted(key, desc, a, b);
    S.SameKeys(key, desc, out, S.Merge(key, desc, a, b));
    MembersWithin(out, a + b);
    MembersWithin(S.Merge(key, desc, a, b), a + b);
    SameByKeys(key, a + b, out, S.Merge(key, desc, a, b));
  }

  lemma AtMostOne(a: seq<Row>, b: seq<Row>)
    requires Permuted(a, b) && |b| <= 1
    ensures a == b
  {
    PermutedLength(a, b);
    if |b| == 1 {
      assert a[0] in multiset(a);
      assert a[0] in b;
    }
  }

  lemma UnionInOrder(ins: seq<seq<Row>>, fulls: seq<seq<Row>>, out: seq<Row>)
    requires |ins| == |fulls| && forall k :: 0 <= k < |ins| ==> |ins[k]| == |fulls[k]|
    requires Interleaved(ins, out) && OneSource(fulls)
    ensures out == Flatten(ins)
  {
    forall k, m | 0 <= k < m < |ins| ensures ins[k] == [] || ins[m] == [] {
      assert fulls[k] == [] || fulls[m] == [];
    }
    OneSourceOnly(ins, out);
  }

  lemma ConcatAlike(key: Row -> Key, a: seq<Row>, b: seq<Row>, c: seq<Row>, d: seq<Row>)
    requires Map(key, a) == Map(key, c) && Map(key, b) == Map(key, d)
    ensures Map(key, a + b) == Map(key, c + d)
  {
    assert Map(key, a + b) == Map(key, a) + Map(key, b);
    assert Map(key, c + d) == Map(key, c) + Map(key, d);
  }

  lemma MergeOrderKept(env: Env, t: Turn, fulls: seq<seq<Row>>, out: seq<Row>)
    requires TurnOk(t) && t.op.MergeOp? && |fulls| == 2 && MayEmit(env, t, out)
    requires var key := KeyFn(env, t.ss[0], t.op.order);
             Map(key, t.ins[0]) == Map(key, fulls[0]) && Map(key, t.ins[1]) == Map(key, fulls[1])
    requires MergeInputsSorted(env, t.op, t.ss, fulls)
    requires KeysDiffer(KeyFn(env, t.ss[0], t.op.order), fulls[0] + fulls[1])
    ensures out == S.Merge(KeyFn(env, t.ss[0], t.op.order), t.op.desc, t.ins[0], t.ins[1])
  {
    hide S.Sorted, S.Merge, Interleaved;
    var key, desc := KeyFn(env, t.ss[0], t.op.order), t.op.desc;
    SortedByKeys(key, desc, fulls[0], t.ins[0]);
    SortedByKeys(key, desc, fulls[1], t.ins[1]);
    ConcatAlike(key, t.ins[0], t.ins[1], fulls[0], fulls[1]);
    assert t.ins == [t.ins[0], t.ins[1]];
    MergeInOrder(key, desc, t.ins[0], t.ins[1], out);
  }

  /** An operator that leaves no choice emits its rows in order. */
  lemma OrderIsKept(env: Env, t: Turn, sure: seq<bool>, cs: seq<seq<Row>>, fulls: seq<seq<Row>>, out: seq<Row>)
    requires TurnOk(t) && AllArranged(t.op, t.ss, t.required, sure, t.ins, cs, fulls)
    requires OrderKept(env, t.op, t.ss, fulls, sure) && MayEmit(env, t, out) && OrderFree(env)
    requires t.op.SortOp? || t.op.TopKOp? || t.op.MergeOp? ==> t.ss[0] == t.schema && (t.op.MergeOp? ==> t.ss[1] == t.schema)
    ensures out == PhysRows(env, t.op, t.required, t.schema, t.ss, cs)
  {
    hide SameOn, Alike, Best, Permuted, Interleaved, KeysDiffer, S.Sorted, OrderFree;
    forall k | 0 <= k < |t.ins|
      ensures |t.ins[k]| == |cs[k]| == |fulls[k]| && Permuted(t.ins[k], cs[k]) && (sure[k] ==> cs[k] == t.ins[k])
      ensures Alike(SameOn(t.ss[k], InputFields(t.op, t.ss, t.required, k)), cs[k], fulls[k])
    {
      assert Arranged(t.ss[k], InputFields(t.op, t.ss, t.required, k), sure[k], t.ins[k], cs[k], fulls[k]);
      SameLength(t.ss[k], InputFields(t.op, t.ss, t.required, k), sure[k], t.ins[k], cs[k], fulls[k]);
    }
    match t.op {
      case SortOp(order, desc) =>
        KeysAlike(env, t.ss[0], InputFields(t.op, t.ss, t.required, 0), order, cs[0], fulls[0]);
        SortArranged(KeyFn(env, t.ss[0], order), desc, t.ins[0], cs[0], fulls[0], out);
      case TopKOp(order, desc, k) =>
        KeysAlike(env, t.ss[0], InputFields(t.op, t.ss, t.required, 0), order, cs[0], fulls[0]);
        BestPermuted(KeyFn(env, t.ss[0], order), desc, k, t.ins[0], cs[0], out);
        KeysDifferAlike(KeyFn(env, t.ss[0], order), cs[0], fulls[0]);
        TopKInOrder(KeyFn(env, t.ss[0], order), desc, k, cs[0], out);
      case UnionAllOp =>
        UnionInOrder(t.ins, fulls, out);
        assert cs == t.ins;
      case MergeOp(order, desc) =>
        KeysAlike(env, t.ss[0], InputFields(t.op, t.ss, t.required, 0), order, cs[0], fulls[0]);
        KeysAlike(env, t.ss[0], InputFields(t.op, t.ss, t.required, 1), order, cs[1], fulls[1]);
        MergeOrderKept(env, t, fulls, out);
      case SemiJoinOp(_, _) => MatchSetPermuted(t.ins[1], cs[1]);
      case MarkJoinOp(_, _, _) => MatchSetPermuted(t.ins[1], cs[1]);
      case AggregateOp(aggs) => AggregateRowPermuted(env, t.ss[0], aggs, t.ins[0], cs[0]);
      case _ =>
    }
  }

  lemma KeysDifferAlike(key: Row -> Key, a: seq<Row>, b: seq<Row>)
    requires Map(key, a) == Map(key, b) && KeysDiffer(key, b)
    ensures KeysDiffer(key, a)
  {
  }

  lemma SortArranged(key: Row -> Key, desc: bool, ins: seq<Row>, c: seq<Row>, full: seq<Row>, out: seq<Row>)
    requires Permuted(ins, c) && Map(key, c) == Map(key, full) && KeysDiffer(key, full)
    requires S.Sorted(key, desc, out) && Permuted(out, ins)
    ensures out == S.Sort(key, desc, c)
  {
    KeysDifferAlike(key, c, full);
    SortInOrder(key, desc, c, out);
  }

  /** On arranged inputs an operation emits an arrangement of its full rows. */
  lemma TurnArranged(env: Env, t: Turn, sure: seq<bool>, cs: seq<seq<Row>>, fulls: seq<seq<Row>>, out: seq<Row>, certain: bool)
    requires OpOk(t.op, t.schema, t.ss) && t.required <= FieldSet(t.schema) && !t.op.NamedOp? && |t.ins| == |t.ss|
    requires AllArranged(t.op, t.ss, t.required, sure, t.ins, cs, fulls)
    requires CutSettled(env, t.op, t.ss, fulls, sure) && MayEmit(env, t, out) && OrderFree(env)
    requires t.op.LogOp? ==> ScanOk(env, t.op.name, t.schema, t.required)
    requires certain ==> |OpRows(env, t.op, t.schema, t.ss, fulls)| <= 1 || OrderKept(env, t.op, t.ss, fulls, sure)
    ensures Arranged(t.schema, t.required, certain, out, PhysRows(env, t.op, t.required, t.schema, t.ss, cs),
                     OpRows(env, t.op, t.schema, t.ss, fulls))
  {
    hide SameOn, OrderKept, CutSettled, MayEmit, OrderFree, ScanOk, PhysRows, OpRows, Permuted;
    forall k | 0 <= k < |t.ins|
      ensures Permuted(t.ins[k], cs[k]) && Alike(SameOn(t.ss[k], InputFields(t.op, t.ss, t.required, k)), cs[k], fulls[k])
    {
      assert Arranged(t.ss[k], InputFields(t.op, t.ss, t.required, k), sure[k], t.ins[k], cs[k], fulls[k]);
    }
    PhysAgrees(env, t.op, t.schema, t.ss, t.required, cs, fulls);
    if KeepsFirst(t.op) {
      CutPermuted(env, t, sure, cs, fulls, out);
    } else {
      OpPermuted(env, t, cs, out);
    }
    if certain {
      if OrderKept(env, t.op, t.ss, fulls, sure) {
        OrderIsKept(env, t, sure, cs, fulls, out);
      } else {
        AtMostOne(out, PhysRows(env, t.op, t.required, t.schema, t.ss, cs));
      }
    }
  }

  // --- whole plans ---

  /**
   * In one phase of a run, an operation delivers the rows of the full plan in the required columns, rearranged;
   * in the order of the full plan if that is settled.
   */
  ghost predicate Arrives(env: Env, nodes: seq<Node>, r: Required, arrival: Arrival, i: nat, phase: nat)
    requires PlanOk(nodes) && |r| == |nodes| && Closed(nodes, r) && i < |nodes| && phase in r[i]
  {
    var rows := Pruned(nodes, r, arrival, i, phase);
    rows.Some? && exists c :: Arranged(nodes[i].schema, r[i][phase], Settled(env, nodes, i), rows.value, c, Full(env, nodes, i))
  }

  ghost predicate InputArrives(env: Env, nodes: seq<Node>, r: Required, arrival: Arrival, i: nat, phase: nat, k: nat)
    requires PlanOk(nodes) && |r| == |nodes| && Closed(nodes, r) && i < |nodes| && phase in r[i] && k < |nodes[i].inputs|
  {
    assert NodeOk(nodes, i);
    var rows := PrunedInputs(nodes, r, arrival, i, phase)[k];
    rows.Some? && exists c :: Arranged(InSchemas(nodes, i)[k], AskedFields(nodes, i, r[i][phase], k), SettledInputs(env, nodes, i)[k],
                                       rows.value, c, FullInputs(env, nodes, i)[k])
  }

  lemma ArrangedFewer(s: Schema, some: set<FieldId>, all: set<FieldId>, sure: bool, rows: seq<Row>, c: seq<Row>, full: seq<Row>)
    requires some <= all && Arranged(s, all, sure, rows, c, full)
    ensures Arranged(s, some, sure, rows, c, full)
  {
    SameOnFewer(s, some, all, c, full);
  }

  /** What an operation reads from an input: what that operation delivers in the phase it is asked for. */
  lemma InputIs(env: Env, nodes: seq<Node>, r: Required, arrival: Arrival, i: nat, phase: nat, k: nat)
    requires PlanOk(nodes) && |r| == |nodes| && Closed(nodes, r) && i < |nodes| && phase in r[i] && k < |nodes[i].inputs|
    ensures var child, p := nodes[i].inputs[k], InputPhase(nodes, i, phase, k);
            && NodeOk(nodes, i) && child < i && p in r[child]
            && AskedFields(nodes, i, r[i][phase], k) <= r[child][p]
            && InSchemas(nodes, i)[k] == nodes[child].schema
            && SettledInputs(env, nodes, i)[k] == Settled(env, nodes, child)
            && FullInputs(env, nodes, i)[k] == Full(env, nodes, child)
            && PrunedInputs(nodes, r, arrival, i, phase)[k] == Pruned(nodes, r, arrival, child, p)
  {
    hide OpOk, Closed, AskedFields, InputPhase, Pruned, Full, Settled;
    InputsBuilt(nodes, r, i, phase);
    InputsRecorded(nodes, r, i, phase);
    assert Asked(nodes, r, i, phase, r[i][phase], k);
  }

  lemma InputFollows(env: Env, nodes: seq<Node>, r: Required, arrival: Arrival, i: nat, phase: nat, k: nat)
    requires PlanOk(nodes) && |r| == |nodes| && Closed(nodes, r) && i < |nodes| && phase in r[i] && k < |nodes[i].inputs|
    requires forall j, p :: 0 <= j < i && p in r[j] ==> Arrives(env, nodes, r, arrival, j, p)
    ensures InputArrives(env, nodes, r, arrival, i, phase, k)
  {
    hide NodeOk, PlanOk, Closed, AskedFields, InputPhase, Pruned, Full, Settled, Arranged, InSchemas;
    InputIs(env, nodes, r, arrival, i, phase, k);
    var child, p := nodes[i].inputs[k], InputPhase(nodes, i, phase, k);
    assert Arrives(env, nodes, r, arrival, child, p);
    var s, sure, full := nodes[child].schema, Settled(env, nodes, child), Full(env, nodes, child);
    var rows := Pruned(nodes, r, arrival, child, p).value;
    var c :| Arranged(s, r[child][p], sure, rows, c, full);
    ArrangedFewer(s, AskedFields(nodes, i, r[i][phase], k), r[child][p], sure, rows, c, full);
  }

  /** Arrangements of all inputs. */
  lemma ArrangedInputs(env: Env, nodes: seq<Node>, r: Required, arrival: Arrival, i: nat, phase: nat) returns (cs: seq<seq<Row>>)
    requires PlanOk(nodes) && |r| == |nodes| && Closed(nodes, r) && i < |nodes| && phase in r[i]
    requires forall j, p :: 0 <= j < i && p in r[j] ==> Arrives(env, nodes, r, arrival, j, p)
    ensures NodeOk(nodes, i) && AllKnown(PrunedInputs(nodes, r, arrival, i, phase))
    ensures AllArranged(nodes[i].op, InSchemas(nodes, i), r[i][phase], SettledInputs(env, nodes, i),
                        RowsOf(PrunedInputs(nodes, r, arrival, i, phase)), cs, FullInputs(env, nodes, i))
  {
    hide OpOk, InputPhase, Pruned, Full, Settled, Arrives, Arranged;
    assert NodeOk(nodes, i);
    cs := [];
    while |cs| < |nodes[i].inputs|
      invariant |cs| <= |nodes[i].inputs|
      invariant forall k :: 0 <= k < |cs| ==> PrunedInputs(nodes, r, arrival, i, phase)[k].Some?
      invariant forall k :: 0 <= k < |cs| ==>
        Arranged(InSchemas(nodes, i)[k], AskedFields(nodes, i, r[i][phase], k), SettledInputs(env, nodes, i)[k],
                 PrunedInputs(nodes, r, arrival, i, phase)[k].value, cs[k], FullInputs(env, nodes, i)[k])
    {
      var k := |cs|;
      InputFollows(env, nodes, r, arrival, i, phase, k);
      var c :| Arranged(InSchemas(nodes, i)[k], AskedFields(nodes, i, r[i][phase], k), SettledInputs(env, nodes, i)[k],
                        PrunedInputs(nodes, r, arrival, i, phase)[k].value, c, FullInputs(env, nodes, i)[k]);
      cs := cs + [c];
    }
  }

  lemma ArrivesLength(env: Env, nodes: seq<Node>, r: Required, arrival: Arrival, i: nat, phase: nat)
    requires PlanOk(nodes) && |r| == |nodes| && Closed(nodes, r) && i < |nodes| && phase in r[i]
    requires Arrives(env, nodes, r, arrival, i, phase)
    ensures |Pruned(nodes, r, arrival, i, phase).value| == |Full(env, nodes, i)|
  {
    hide Full, Pruned, Settled;
    var rows := Pruned(nodes, r, arrival, i, phase).value;
    var c :| Arranged(nodes[i].schema, r[i][phase], Settled(env, nodes, i), rows, c, Full(env, nodes, i));
    SameLength(nodes[i].schema, r[i][phase], Settled(env, nodes, i), rows, c, Full(env, nodes, i));
  }

  /** An aggregate whose input brings no rows has none in the full plan. */
  lemma NoRows(env: Env, nodes: seq<Node>, r: Required, i: nat, phase: nat, ins: seq<seq<Row>>, cs: seq<seq<Row>>)
    requires PlanOk(nodes) && |r| == |nodes| && i < |nodes| && phase in r[i] && NodeOk(nodes, i) && nodes[i].op.AggregateOp?
    requires AllArranged(nodes[i].op, InSchemas(nodes, i), r[i][phase], SettledInputs(env, nodes, i), ins, cs,
                         FullInputs(env, nodes, i))
    ensures ins[0] == [] <==> FullInputs(env, nodes, i)[0] == []
  {
    hide Full, Settled;
    SameLength(InSchemas(nodes, i)[0], InputFields(nodes[i].op, InSchemas(nodes, i), r[i][phase], 0),
               SettledInputs(env, nodes, i)[0], ins[0], cs[0], FullInputs(env, nodes, i)[0]);
  }

  /** An aggregate with rows that is read late arrives exactly if it is asked for no value. */
  lemma LateArrives(env: Env, nodes: seq<Node>, r: Required, arrival: Arrival, i: nat, phase: nat, cs: seq<seq<Row>>)
    requires PlanOk(nodes) && |r| == |nodes| && Closed(nodes, r) && Permitted(nodes, r) && i < |nodes| && phase in r[i]
    requires NodeOk(nodes, i) && nodes[i].op.AggregateOp? && MinPhase(nodes, i) !in r[i]
    requires AllKnown(PrunedInputs(nodes, r, arrival, i, phase)) && PrunedInputs(nodes, r, arrival, i, phase)[0].value != []
    requires AllArranged(nodes[i].op, InSchemas(nodes, i), r[i][phase], SettledInputs(env, nodes, i),
                         RowsOf(PrunedInputs(nodes, r, arrival, i, phase)), cs, FullInputs(env, nodes, i))
    ensures Arrives(env, nodes, r, arrival, i, phase) <==> AggregateKept(env, nodes, r, i, phase)
  {
    hide OpRows, SameOn, InputPhase, MinPhase, AsksAggregate, Settled, Closed;
    assert MayAsk(nodes, i, phase, r[i][phase]);
    var op, required, fulls := nodes[i].op, r[i][phase], FullInputs(env, nodes, i);
    NoRows(env, nodes, r, i, phase, RowsOf(PrunedInputs(nodes, r, arrival, i, phase)), cs);
    AggregateIs(env, op, nodes[i].schema, InSchemas(nodes, i), fulls);
    if !AsksAggregate(op.aggregates, required) {
      NothingAsked(op.aggregates, required, AggregateRow(env, InSchemas(nodes, i)[0], fulls[0], op.aggregates));
      assert Arranged(nodes[i].schema, required, Settled(env, nodes, i), [[]], [[]], Full(env, nodes, i));
    }
  }

  /** Everything else arrives. */
  lemma InTime(env: Env, nodes: seq<Node>, r: Required, arrival: Arrival, i: nat, phase: nat, cs: seq<seq<Row>>)
    requires PlanOk(nodes) && |r| == |nodes| && Closed(nodes, r) && Permitted(nodes, r) && i < |nodes| && phase in r[i]
    requires Honest(env, arrival) && OrderFree(env) && CutsSettled(env, nodes) && NodeOk(nodes, i)
    requires AllKnown(PrunedInputs(nodes, r, arrival, i, phase))
    requires nodes[i].op.AggregateOp? ==> MinPhase(nodes, i) in r[i] || PrunedInputs(nodes, r, arrival, i, phase)[0].value == []
    requires nodes[i].op.LogOp? ==> ScanOk(env, nodes[i].op.name, nodes[i].schema, r[i][phase])
    requires AllArranged(nodes[i].op, InSchemas(nodes, i), r[i][phase], SettledInputs(env, nodes, i),
                         RowsOf(PrunedInputs(nodes, r, arrival, i, phase)), cs, FullInputs(env, nodes, i))
    ensures Arrives(env, nodes, r, arrival, i, phase) && AggregateKept(env, nodes, r, i, phase)
  {
    hide PhysRows, OpRows, SameOn, InputPhase, MinPhase, ScanOk, AsksAggregate, CutSettled, OrderKept, MayEmit, OrderFree,
         AllArranged, Closed, Arranged, Pruned, Full, Settled;
    var ins := RowsOf(PrunedInputs(nodes, r, arrival, i, phase));
    EmitsTurn(nodes, r, arrival, i, phase);
    TurnArrives(env, nodes, r, arrival, i, phase, ins, cs);
    if nodes[i].op.AggregateOp? && MinPhase(nodes, i) !in r[i] {
      NoRows(env, nodes, r, i, phase, ins, cs);
    }
  }

  lemma EmitsTurn(nodes: seq<Node>, r: Required, arrival: Arrival, i: nat, phase: nat)
    requires PlanOk(nodes) && |r| == |nodes| && Closed(nodes, r) && i < |nodes| && phase in r[i]
    requires AllKnown(PrunedInputs(nodes, r, arrival, i, phase)) && NodeOk(nodes, i)
    requires nodes[i].op.AggregateOp? ==> MinPhase(nodes, i) in r[i] || PrunedInputs(nodes, r, arrival, i, phase)[0].value == []
    ensures Pruned(nodes, r, arrival, i, phase) ==
            Some(arrival(TurnOf(nodes, r, i, phase, RowsOf(PrunedInputs(nodes, r, arrival, i, phase)))))
  {
    hide Closed, MinPhase, InputPhase;
  }

  lemma TurnArrives(env: Env, nodes: seq<Node>, r: Required, arrival: Arrival, i: nat, phase: nat,
                    ins: seq<seq<Row>>, cs: seq<seq<Row>>)
    requires PlanOk(nodes) && |r| == |nodes| && Permitted(nodes, r) && i < |nodes| && phase in r[i]
    requires Honest(env, arrival) && OrderFree(env) && CutsSettled(env, nodes) && NodeOk(nodes, i)
    requires nodes[i].op.LogOp? ==> ScanOk(env, nodes[i].op.name, nodes[i].schema, r[i][phase])
    requires AllArranged(nodes[i].op, InSchemas(nodes, i), r[i][phase], SettledInputs(env, nodes, i), ins, cs,
                         FullInputs(env, nodes, i))
    ensures exists c :: Arranged(nodes[i].schema, r[i][phase], Settled(env, nodes, i),
                                 arrival(TurnOf(nodes, r, i, phase, ins)), c, Full(env, nodes, i))
  {
    hide PhysRows, OpRows, SameOn, InputPhase, MinPhase, ScanOk, CutSettled, OrderKept, MayEmit, OrderFree, Arranged;
    assert MayAsk(nodes, i, phase, r[i][phase]);
    var t := TurnOf(nodes, r, i, phase, ins);
    assert TurnOk(t);
    TurnArranged(env, t, SettledInputs(env, nodes, i), cs, FullInputs(env, nodes, i), arrival(t), Settled(env, nodes, i));
  }

  /** A scan that keeps other lines does not arrive. */
  lemma LostScan(env: Env, nodes: seq<Node>, r: Required, arrival: Arrival, i: nat, phase: nat)
    requires PlanOk(nodes) && |r| == |nodes| && Closed(nodes, r) && i < |nodes| && phase in r[i] && Honest(env, arrival)
    requires nodes[i].op.LogOp? && !ScanOk(env, nodes[i].op.name, nodes[i].schema, r[i][phase])
    ensures !Arrives(env, nodes, r, arrival, i, phase)
  {
    hide PhysRows, OpRows, InputPhase, MinPhase, ScanOk, Settled, Closed;
    assert NodeOk(nodes, i);
    if Arrives(env, nodes, r, arrival, i, phase) {
      var ins, fulls := RowsOf(PrunedInputs(nodes, r, arrival, i, phase)), FullInputs(env, nodes, i);
      var t := TurnOf(nodes, r, i, phase, ins);
      assert TurnOk(t);
      LogEmits(env, t, arrival(t));
      LogIs(env, t.op, t.required, t.schema, t.ss, ins, fulls);
      ScanLoses(env, t.op.name, t.schema, t.required);
      ArrivesLength(env, nodes, r, arrival, i, phase);
    }
  }

  /**
   * In any run, an operation whose inputs arrive delivers too, if its cut is settled, exactly when its scan and its
   * aggregates are kept.
   */
  lemma ArrivesExactly(env: Env, nodes: seq<Node>, r: Required, arrival: Arrival, i: nat, phase: nat)
    requires PlanOk(nodes) && |r| == |nodes| && Closed(nodes, r) && Permitted(nodes, r) && i < |nodes| && phase in r[i]
    requires Honest(env, arrival) && OrderFree(env) && CutsSettled(env, nodes)
    requires forall j, p :: 0 <= j < i && p in r[j] ==> Arrives(env, nodes, r, arrival, j, p)
    ensures Arrives(env, nodes, r, arrival, i, phase) <==>
            AggregateKept(env, nodes, r, i, phase) && (nodes[i].op.LogOp? ==>
              ScanOk(env, nodes[i].op.name, nodes[i].schema, r[i][phase]))
  {
    hide PhysRows, OpRows, SameOn, InputPhase, MinPhase, ScanOk, AsksAggregate, OrderFree, Honest, CutsSettled, Arrives,
         AllArranged, Closed;
    assert NodeOk(nodes, i) && MayAsk(nodes, i, phase, r[i][phase]);
    var cs := ArrangedInputs(env, nodes, r, arrival, i, phase);
    if nodes[i].op.AggregateOp? && MinPhase(nodes, i) !in r[i] && PrunedInputs(nodes, r, arrival, i, phase)[0].value != [] {
      LateArrives(env, nodes, r, arrival, i, phase, cs);
    } else if nodes[i].op.LogOp? && !ScanOk(env, nodes[i].op.name, nodes[i].schema, r[i][phase]) {
      LostScan(env, nodes, r, arrival, i, phase);
    } else {
      InTime(env, nodes, r, arrival, i, phase, cs);
    }
  }

  lemma LogEmits(env: Env, t: Turn, out: seq<Row>)
    requires TurnOk(t) && t.op.LogOp? && MayEmit(env, t, out)
    ensures out == PhysRows(env, t.op, t.required, t.schema, t.ss, t.ins)
  {
  }

  /** In any run every operation of the plan delivers, in every phase. */
  lemma {:induction false} RunArrives(env: Env, nodes: seq<Node>, r: Required, arrival: Arrival, i: nat, phase: nat)
    requires PlanOk(nodes) && |r| == |nodes| && Closed(nodes, r) && Permitted(nodes, r)
    requires ScansOk(env, nodes, r) && AggregatesKept(env, nodes, r)
    requires Honest(env, arrival) && OrderFree(env) && CutsSettled(env, nodes)
    requires i < |nodes| && phase in r[i]
    ensures Arrives(env, nodes, r, arrival, i, phase)
    decreases i
  {
    hide Arrives, ScanOk, AggregateKept, Honest, OrderFree, CutsSettled;
    forall j, p | 0 <= j < i && p in r[j] ensures Arrives(env, nodes, r, arrival, j, p) {
      RunArrives(env, nodes, r, arrival, j, p);
    }
    ArrivesExactly(env, nodes, r, arrival, i, phase);
  }

  /** A run of a plan whose cuts are settled delivers everywhere if and only if scans and aggregates are kept. */
  lemma RunExactly(env: Env, nodes: seq<Node>, r: Required, arrival: Arrival)
    requires PlanOk(nodes) && |r| == |nodes| && Closed(nodes, r) && Permitted(nodes, r)
    requires Honest(env, arrival) && OrderFree(env) && CutsSettled(env, nodes)
    ensures (forall i, phase :: 0 <= i < |nodes| && phase in r[i] ==> Arrives(env, nodes, r, arrival, i, phase)) <==>
            ScansOk(env, nodes, r) && AggregatesKept(env, nodes, r)
  {
    hide Arrives, ScanOk, AggregateKept, Honest, OrderFree, CutsSettled;
    if ScansOk(env, nodes, r) && AggregatesKept(env, nodes, r) {
      forall i, phase | 0 <= i < |nodes| && phase in r[i] ensures Arrives(env, nodes, r, arrival, i, phase) {
        RunArrives(env, nodes, r, arrival, i, phase);
      }
    } else if forall i, phase :: 0 <= i < |nodes| && phase in r[i] ==> Arrives(env, nodes, r, arrival, i, phase) {
      forall i, phase | 0 <= i < |nodes| && phase in r[i]
        ensures AggregateKept(env, nodes, r, i, phase)
        ensures nodes[i].op.LogOp? ==> ScanOk(env, nodes[i].op.name, nodes[i].schema, r[i][phase])
      {
        ArrivesExactly(env, nodes, r, arrival, i, phase);
      }
    }
  }

  // --- sorted results ---

  /** In every run the rows of an operation come sorted: it sorts them, or hands on rows that come sorted. */
  ghost predicate ComesSorted(env: Env, nodes: seq<Node>, i: nat, order: seq<Scalar>, desc: bool)
    requires PlanOk(nodes) && i < |nodes|
    decreases i
  {
    assert NodeOk(nodes, i);
    (Settled(env, nodes, i) && S.Sorted(KeyFn(env, nodes[i].schema, order), desc, Full(env, nodes, i))) ||
    match nodes[i].op
    case SortOp(o, d) => o == order && d == desc
    case TopKOp(o, d, _) => o == order && d == desc
    case MergeOp(o, d) =>
      o == order && d == desc &&
      ComesSorted(env, nodes, nodes[i].inputs[0], order, desc) && ComesSorted(env, nodes, nodes[i].inputs[1], order, desc)
    case FilterOp(_) => ComesSorted(env, nodes, nodes[i].inputs[0], order, desc)
    case LimitOp(_) => ComesSorted(env, nodes, nodes[i].inputs[0], order, desc)
    case SemiJoinOp(_, _) => ComesSorted(env, nodes, nodes[i].inputs[0], order, desc)
    case MaterializeOp => ComesSorted(env, nodes, nodes[i].inputs[0], order, desc)
    case _ => false
  }

  predicate HandsOn(op: Op) { op.FilterOp? || op.LimitOp? || op.SemiJoinOp? || op.MaterializeOp? }

  lemma PrefixSorted(key: Row -> Key, desc: bool, n: nat, rows: seq<Row>)
    requires S.Sorted(key, desc, rows)
    ensures S.Sorted(key, desc, Take(n, rows))
  {
  }

  /** Operators that hand on some of their rows keep them sorted; so do sorts, heaps and merges of sorted rows. */
  lemma EmitsSorted(env: Env, t: Turn, order: seq<Scalar>, desc: bool, out: seq<Row>)
    requires OpOk(t.op, t.schema, t.ss) && |t.ins| == |t.ss| && MayEmit(env, t, out)
    requires HandsOn(t.op) || (t.op.MergeOp? && t.op.order == order && t.op.desc == desc) ==>
      forall k :: 0 <= k < |t.ins| && (k == 0 || t.op.MergeOp?) ==> S.Sorted(KeyFn(env, t.schema, order), desc, t.ins[k])
    requires HandsOn(t.op) || ((t.op.SortOp? || t.op.TopKOp? || t.op.MergeOp?) && t.op.order == order && t.op.desc == desc)
    ensures S.Sorted(KeyFn(env, t.schema, order), desc, out)
  {
    hide S.Sorted;
    var key := KeyFn(env, t.schema, order);
    match t.op {
      case FilterOp(c) => S.FilterSorted(CondFn(env, t.ss[0], c), key, desc, t.ins[0]);
      case LimitOp(n) => PrefixSorted(key, desc, n, t.ins[0]);
      case SemiJoinOp(k, _) => S.FilterSorted(MatchFn(env, t.ss[0], k, MatchSet(t.ins[1])), key, desc, t.ins[0]);
      case _ =>
    }
  }

  lemma SettledSorted(env: Env, nodes: seq<Node>, r: Required, arrival: Arrival, i: nat, phase: nat, order: seq<Scalar>, desc: bool)
    requires PlanOk(nodes) && |r| == |nodes| && Closed(nodes, r) && i < |nodes| && phase in r[i]
    requires Arrives(env, nodes, r, arrival, i, phase) && AllFields(order) <= r[i][phase] && Settled(env, nodes, i)
    requires S.Sorted(KeyFn(env, nodes[i].schema, order), desc, Full(env, nodes, i))
    ensures S.Sorted(KeyFn(env, nodes[i].schema, order), desc, Pruned(nodes, r, arrival, i, phase).value)
  {
    hide Pruned, Full, Settled, Closed, S.Sorted;
    var rows := Pruned(nodes, r, arrival, i, phase).value;
    var c :| Arranged(nodes[i].schema, r[i][phase], Settled(env, nodes, i), rows, c, Full(env, nodes, i));
    KeysAlike(env, nodes[i].schema, r[i][phase], order, rows, Full(env, nodes, i));
    SortedByKeys(KeyFn(env, nodes[i].schema, order), desc, Full(env, nodes, i), rows);
  }

  /** Rows that come sorted in every run are sorted in this one. */
  lemma {:induction false} SortedArrives(env: Env, nodes: seq<Node>, r: Required, arrival: Arrival, i: nat, phase: nat,
                                         order: seq<Scalar>, desc: bool)
    requires PlanOk(nodes) && |r| == |nodes| && Closed(nodes, r) && Permitted(nodes, r)
    requires ScansOk(env, nodes, r) && AggregatesKept(env, nodes, r)
    requires Honest(env, arrival) && OrderFree(env) && CutsSettled(env, nodes)
    requires i < |nodes| && phase in r[i] && AllFields(order) <= r[i][phase] && ComesSorted(env, nodes, i, order, desc)
    ensures Pruned(nodes, r, arrival, i, phase).Some?
    ensures S.Sorted(KeyFn(env, nodes[i].schema, order), desc, Pruned(nodes, r, arrival, i, phase).value)
    decreases i
  {
    hide OpOk, Closed, Permitted, ScansOk, AggregatesKept, OrderFree, CutsSettled, AskedFields, Pruned, Full, MinPhase, MayEmit,
         S.Sorted, Settled;
    assert NodeOk(nodes, i);
    RunArrives(env, nodes, r, arrival, i, phase);
    if Settled(env, nodes, i) && S.Sorted(KeyFn(env, nodes[i].schema, order), desc, Full(env, nodes, i)) {
      SettledSorted(env, nodes, r, arrival, i, phase, order, desc);
    } else {
      KnownInputs(nodes, r, arrival, i, phase);
      InputsBuilt(nodes, r, i, phase);
      var ins := RowsOf(PrunedInputs(nodes, r, arrival, i, phase));
      forall k | 0 <= k < |ins| && (HandsOn(nodes[i].op) || nodes[i].op.MergeOp?) && (k == 0 || nodes[i].op.MergeOp?)
        ensures S.Sorted(KeyFn(env, nodes[i].schema, order), desc, ins[k])
      {
        OrderAsked(nodes, r, i, phase, order, k);
        SortedArrives(env, nodes, r, arrival, nodes[i].inputs[k], InputPhase(nodes, i, phase, k), order, desc);
      }
      EmitsTurn(nodes, r, arrival, i, phase);
      var t := TurnOf(nodes, r, i, phase, ins);
      ArityOf(t.op, t.schema, t.ss);
      EmitsSorted(env, t, order, desc, arrival(t));
    }
  }

  lemma ArityOf(op: Op, schema: Schema, ss: seq<Schema>)
    requires OpOk(op, schema, ss)
    ensures ArityIs(op, |ss|)
  {
  }

  lemma KnownInputs(nodes: seq<Node>, r: Required, arrival: Arrival, i: nat, phase: nat)
    requires PlanOk(nodes) && |r| == |nodes| && Closed(nodes, r) && i < |nodes| && phase in r[i]
    requires Pruned(nodes, r, arrival, i, phase).Some?
    ensures AllKnown(PrunedInputs(nodes, r, arrival, i, phase))
  {
    hide Closed, MinPhase, InputPhase, OpOk;
  }

  /** The order list is asked of whatever hands on its rows. */
  lemma OrderAsked(nodes: seq<Node>, r: Required, i: nat, phase: nat, order: seq<Scalar>, k: nat)
    requires PlanOk(nodes) && |r| == |nodes| && Closed(nodes, r) && i < |nodes| && phase in r[i] && k < |nodes[i].inputs|
    requires AllFields(order) <= r[i][phase] && (HandsOn(nodes[i].op) || nodes[i].op.MergeOp?) && (k == 0 || nodes[i].op.MergeOp?)
    ensures k == 0 || k == 1
    ensures var child, p := nodes[i].inputs[k], InputPhase(nodes, i, phase, k);
            child < i && p in r[child] && AllFields(order) <= r[child][p] && nodes[child].schema == nodes[i].schema
  {
    hide Closed, MinPhase, InputPhase;
    assert NodeOk(nodes, i);
    InputsBuilt(nodes, r, i, phase);
    InputsRecorded(nodes, r, i, phase);
    assert Asked(nodes, r, i, phase, r[i][phase], k);
    assert InSchemas(nodes, i)[k] == nodes[nodes[i].inputs[k]].schema;
  }
}
