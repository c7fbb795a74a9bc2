/** Rewriting the scalars of a relation: when they agree on the rows at hand, the meaning is kept. */
module ScalarRewrites {
  import opened Values
  import opened Sequences
  import opened Scalars
  import opened Relations
  import opened Pointwise
  import S = Sorting

  // --- agreement of scalars on rows ---

  ghost predicate Agree(env: Env, s: Schema, rows: seq<Row>, e: Scalar, q: Scalar) {
    forall row :: row in rows ==> Eval(env, s, row, e) == Eval(env, s, row, q)
  }

  ghost predicate AllAgree(env: Env, s: Schema, rows: seq<Row>, es: seq<Scalar>, qs: seq<Scalar>) {
    |es| == |qs| && forall row :: row in rows ==> EvalAll(env, s, row, es) == EvalAll(env, s, row, qs)
  }

  ghost predicate AggregateAgrees(env: Env, s: Schema, rows: seq<Row>, a: AggregateNode, b: AggregateNode) {
    match a
    case ConstAggregate(_, _) => a == b
    case FnAggregate(fn, args) => b.FnAggregate? && b.fn == fn && AllAgree(env, s, rows, args, b.args)
  }

  ghost predicate AggregatesAgree(env: Env, s: Schema, rows: seq<Row>, aggs: seq<Aggregate>, bggs: seq<Aggregate>) {
    && Outputs(aggs) == Outputs(bggs)
    && |aggs| == |bggs|
    && forall i | 0 <= i < |aggs| :: AggregateAgrees(env, s, rows, aggs[i].node, bggs[i].node)
  }

  ghost predicate ProjectorsAgree(env: Env, s: Schema, rows: seq<Row>, ps: seq<Projector>, qs: seq<Projector>) {
    Aliases(ps) == Aliases(qs) && AllAgree(env, s, rows, Exprs(ps), Exprs(qs))
  }

  /** The same operator, with scalars that agree on the rows they are evaluated on. */
  ghost predicate OpAgrees(env: Env, op: Op, q: Op, ss: seq<Schema>, ins: seq<seq<Row>>)
    requires |ss| == |ins| && ArityIs(op, |ins|)
  {
    match op
    case ProjectionOp(ps) => q.ProjectionOp? && ProjectorsAgree(env, ss[0], ins[0], ps, q.projectors)
    case FilterOp(c) => q.FilterOp? && Agree(env, ss[0], ins[0], c, q.condition)
    case SortOp(order, desc) => q.SortOp? && q.desc == desc && AllAgree(env, ss[0], ins[0], order, q.order)
    case TopKOp(order, desc, k) =>
      q.TopKOp? && q.desc == desc && q.topCount == k && AllAgree(env, ss[0], ins[0], order, q.order)
    case MergeOp(order, desc) =>
      q.MergeOp? && q.desc == desc && AllAgree(env, ss[0], ins[0] + ins[1], order, q.order)
    case LeftJoinOp(lk, rk) =>
      q.LeftJoinOp? && Agree(env, ss[0], ins[0], lk, q.leftKey) && Agree(env, ss[1], ins[1], rk, q.rightKey)
    case SemiJoinOp(key, m) => q.SemiJoinOp? && q.matchField == m && Agree(env, ss[0], ins[0], key, q.key)
    case MarkJoinOp(key, m, output) =>
      q.MarkJoinOp? && q.matchField == m && q.output == output && Agree(env, ss[0], ins[0], key, q.key)
    case AggregateOp(aggs) => q.AggregateOp? && AggregatesAgree(env, ss[0], ins[0], aggs, q.aggregates)
    case GroupOp(aggs, keys) =>
      && q.GroupOp?
      && AggregatesAgree(env, ss[0], ins[0], aggs, q.aggregates)
      && ProjectorsAgree(env, ss[0], ins[0], keys, q.keys)
    case _ => q == op
  }

  // --- functions that agree on the elements of a sequence ---

  ghost function Same<T(!new)>(s: seq<T>): (T, T) -> bool { (x: T, y: T) => x == y && x in s }

  lemma SameSelf<T(!new)>(s: seq<T>, t: seq<T>)
    requires forall x :: x in t ==> x in s
    ensures Alike(Same(s), t, t)
  {
  }

  lemma SameEqual<T(!new)>(s: seq<T>, a: seq<T>, b: seq<T>)
    requires Alike(Same(s), a, b)
    ensures a == b
  {
  }

  lemma SortOn<T(!new)>(k: T -> Key, m: T -> Key, desc: bool, s: seq<T>)
    requires forall x :: x in s ==> k(x) == m(x)
    ensures S.Sort(k, desc, s) == S.Sort(m, desc, s)
  {
    SameSelf(s, s);
    AlikeSort(Same(s), k, m, desc, s, s);
    SameEqual(s, S.Sort(k, desc, s), S.Sort(m, desc, s));
  }

  lemma MergeOn<T(!new)>(k: T -> Key, m: T -> Key, desc: bool, a: seq<T>, b: seq<T>)
    requires forall x :: x in a + b ==> k(x) == m(x)
    ensures S.Merge(k, desc, a, b) == S.Merge(m, desc, a, b)
  {
    var s := a + b;
    SameSelf(s, a);
    SameSelf(s, b);
    AlikeMerge(Same(s), k, m, desc, a, a, b, b);
    SameEqual(s, S.Merge(k, desc, a, b), S.Merge(m, desc, a, b));
  }

  lemma SortedOn<T(!new)>(k: T -> Key, m: T -> Key, desc: bool, s: seq<T>)
    requires S.Sorted(k, desc, s) && forall x :: x in s ==> k(x) == m(x)
    ensures S.Sorted(m, desc, s)
  {
  }

  lemma FilterOn<T(!new)>(p: T -> bool, q: T -> bool, s: seq<T>)
    requires forall x :: x in s ==> p(x) == q(x)
    ensures Filter(p, s) == Filter(q, s)
  {
    FilterAgree(p, q, s);
  }

  // --- operators ---

  lemma KeysAgree(env: Env, s: Schema, rows: seq<Row>, order: seq<Scalar>, q: seq<Scalar>)
    requires AllAgree(env, s, rows, order, q)
    ensures forall row :: row in rows ==> KeyFn(env, s, order)(row) == KeyFn(env, s, q)(row)
  {
  }

  lemma AggregateRowAgrees(env: Env, s: Schema, all: seq<Row>, rows: seq<Row>, aggs: seq<Aggregate>, bggs: seq<Aggregate>)
    requires AggregatesAgree(env, s, all, aggs, bggs) && forall row :: row in rows ==> row in all
    ensures AggregateRow(env, s, rows, aggs) == AggregateRow(env, s, rows, bggs)
  {
    forall i | 0 <= i < |aggs|
      ensures AggregateValue(env, s, rows, aggs[i].node) == AggregateValue(env, s, rows, bggs[i].node)
    {
      assert AggregateAgrees(env, s, all, aggs[i].node, bggs[i].node);
      if aggs[i].node.FnAggregate? {
        var args, brgs := aggs[i].node.args, bggs[i].node.args;
        assert ArgTuples(env, s, rows, args) == ArgTuples(env, s, rows, brgs);
      }
    }
  }

  lemma GroupAgrees(env: Env, s: Schema, rows: seq<Row>, aggs: seq<Aggregate>, keys: seq<Projector>,
                    bggs: seq<Aggregate>, keys': seq<Projector>)
    requires AggregatesAgree(env, s, rows, aggs, bggs) && ProjectorsAgree(env, s, rows, keys, keys')
    ensures GroupRows(env, s, rows, aggs, keys) == GroupRows(env, s, rows, bggs, keys')
  {
    KeysAgree(env, s, rows, Exprs(keys), Exprs(keys'));
    var ks := Map(KeyFn(env, s, Exprs(keys)), rows);
    assert ks == Map(KeyFn(env, s, Exprs(keys')), rows);
    forall k | k in DistinctKeys(ks)
      ensures GroupRow(env, s, rows, aggs, keys)(k) == GroupRow(env, s, rows, bggs, keys')(k)
    {
      FilterOn(HasKey(env, s, keys, k), HasKey(env, s, keys', k), rows);
      FilterMembers(HasKey(env, s, keys, k), rows);
      AggregateRowAgrees(env, s, rows, Filter(HasKey(env, s, keys, k), rows), aggs, bggs);
    }
  }

  lemma JoinAgrees(env: Env, ls: Schema, rs: Schema, left: seq<Row>, right: seq<Row>,
                   lk: Scalar, rk: Scalar, lk': Scalar, rk': Scalar)
    requires Agree(env, ls, left, lk, lk') && Agree(env, rs, right, rk, rk')
    ensures Map(JoinFn(env, ls, rs, lk, rk, right), left) == Map(JoinFn(env, ls, rs, lk', rk', right), left)
  {
    hide Eval, JoinRows, Filter;
    forall i | 0 <= i < |left|
      ensures JoinFn(env, ls, rs, lk, rk, right)(left[i]) == JoinFn(env, ls, rs, lk', rk', right)(left[i])
    {
      assert left[i] in left;
      var key := Eval(env, ls, left[i], lk);
      FilterOn(RightMatches(env, rs, rk, key), RightMatches(env, rs, rk', key), right);
    }
  }

  /** Agreeing operators give the same rows. */
  lemma AgreeingRows(env: Env, op: Op, q: Op, schema: Schema, ss: seq<Schema>, ins: seq<seq<Row>>)
    requires |ss| == |ins| && ArityIs(op, |ins|) && OpAgrees(env, op, q, ss, ins)
    ensures ArityIs(q, |ins|) && OpRows(env, op, schema, ss, ins) == OpRows(env, q, schema, ss, ins)
  {
    match op {
      case ProjectionOp(ps) =>
        assert Map(ProjectFn(env, ss[0], ps), ins[0]) == Map(ProjectFn(env, ss[0], q.projectors), ins[0]);
      case FilterOp(c) => FilterOn(CondFn(env, ss[0], c), CondFn(env, ss[0], q.condition), ins[0]);
      case SortOp(order, desc) =>
        KeysAgree(env, ss[0], ins[0], order, q.order);
        SortOn(KeyFn(env, ss[0], order), KeyFn(env, ss[0], q.order), desc, ins[0]);
      case TopKOp(order, desc, _) =>
        KeysAgree(env, ss[0], ins[0], order, q.order);
        SortOn(KeyFn(env, ss[0], order), KeyFn(env, ss[0], q.order), desc, ins[0]);
      case MergeOp(order, desc) =>
        KeysAgree(env, ss[0], ins[0] + ins[1], order, q.order);
        MergeOn(KeyFn(env, ss[0], order), KeyFn(env, ss[0], q.order), desc, ins[0], ins[1]);
      case LeftJoinOp(lk, rk) => JoinAgrees(env, ss[0], ss[1], ins[0], ins[1], lk, rk, q.leftKey, q.rightKey);
      case SemiJoinOp(key, _) =>
        FilterOn(MatchFn(env, ss[0], key, MatchSet(ins[1])), MatchFn(env, ss[0], q.key, MatchSet(ins[1])), ins[0]);
      case MarkJoinOp(key, _, _) =>
        assert Map(MarkFn(env, ss[0], key, MatchSet(ins[1])), ins[0]) == Map(MarkFn(env, ss[0], q.key, MatchSet(ins[1])), ins[0]);
      case AggregateOp(aggs) => AggregateRowAgrees(env, ss[0], ins[0], ins[0], aggs, q.aggregates);
      case GroupOp(aggs, keys) => GroupAgrees(env, ss[0], ins[0], aggs, keys, q.aggregates, q.keys);
      case _ =>
    }
  }

  lemma AgreeingMerge(env: Env, op: Op, q: Op, ss: seq<Schema>, ins: seq<seq<Row>>)
    requires |ss| == |ins| && ArityIs(op, |ins|) && ArityIs(q, |ins|) && OpAgrees(env, op, q, ss, ins)
    requires MergeInputsSorted(env, op, ss, ins)
    ensures MergeInputsSorted(env, q, ss, ins)
  {
    if op.MergeOp? {
      var k, m := KeyFn(env, ss[0], op.order), KeyFn(env, ss[0], q.order);
      KeysAgree(env, ss[0], ins[0] + ins[1], op.order, q.order);
      SortedOn(k, m, op.desc, ins[0]);
      SortedOn(k, m, op.desc, ins[1]);
    }
  }

  /** An operator may be exchanged for one that agrees with it on the rows of its inputs. */
  lemma ExchangeOp(env: Env, r: Relation, q: Op)
    requires Sound(env, r) && OpOk(q, r.schema, Schemas(r.inputs))
    requires OpAgrees(env, r.op, q, Schemas(r.inputs), DenoteAll(env, r.inputs))
    ensures Replaces(env, r.(op := q), r)
  {
    var p := r.(op := q);
    assert WellFormed(p);
    AgreeingRows(env, r.op, q, r.schema, Schemas(r.inputs), DenoteAll(env, r.inputs));
    AgreeingMerge(env, r.op, q, Schemas(r.inputs), DenoteAll(env, r.inputs));
    Unfold(env, p);
    Unfold(env, r);
  }
}
