/** Caching leaves a tree whose scalars are as good as before: cache nodes have the types of what they cache. */
module ProperCaching {
  import opened Values
  import opened Sequences
  import opened Scalars
  import opened Relations
  import opened ScalarCost
  import opened ScalarRewrites
  import opened Standards
  import SC = ScalarCache
  import SP = ScalarPasses
  import SS = ScalarSimplify

  /** Without cache nodes a scalar is as proper. */
  lemma {:induction false} StripProper(env: Env, s: Schema, row: Row, e: Scalar)
    requires SS.Proper(env, s, row, e)
    ensures SS.Proper(env, s, row, SC.Strip(e))
  {
    SC.StripEval(env, s, row, e);
    if e.Cached? {
      StripProper(env, s, row, e.inner);
    } else if e.Coalesce? || e.Call? {
      var q := SC.Strip(e);
      forall i | 0 <= i < |e.args|
        ensures SS.Proper(env, s, row, q.args[i]) && Eval(env, s, row, q.args[i]) == Eval(env, s, row, e.args[i])
      {
        StripProper(env, s, row, e.args[i]);
        SC.StripEval(env, s, row, e.args[i]);
      }
      assert EvalAll(env, s, row, q.args) == EvalAll(env, s, row, e.args);
    }
  }

  /** With cache nodes of the right types it still is. */
  lemma {:induction false} CachedProper(env: Env, s: Schema, row: Row, q: Scalar)
    requires SS.Proper(env, s, row, SC.Strip(q)) && SC.CachesTyped(q)
    ensures SS.Proper(env, s, row, q)
  {
    SC.StripEval(env, s, row, q);
    if q.Cached? {
      CachedProper(env, s, row, q.inner);
    } else if q.Coalesce? || q.Call? {
      var e := SC.Strip(q);
      forall i | 0 <= i < |q.args|
        ensures SS.Proper(env, s, row, q.args[i]) && Eval(env, s, row, q.args[i]) == Eval(env, s, row, e.args[i])
      {
        assert e.args[i] == SC.Strip(q.args[i]);
        CachedProper(env, s, row, q.args[i]);
        SC.StripEval(env, s, row, q.args[i]);
      }
      assert EvalAll(env, s, row, q.args) == EvalAll(env, s, row, e.args);
    }
  }

  /** A scalar that differs only in cache nodes, all of the right types, is as good. */
  lemma RecachedScalar(env: Env, s: Schema, row: Row, e: Scalar, q: Scalar)
    requires Good(Typed, env, s, row, e) && SC.Strip(q) == SC.Strip(e) && SC.CachesTyped(q) && ArityOk(q)
    ensures Good(Typed, env, s, row, q)
  {
    StripProper(env, s, row, e);
    CachedProper(env, s, row, q);
  }

  /** The scalar of the original a recached one stands for. */
  lemma OriginalScalar(op: Op, q: Op, x: Scalar) returns (e: Scalar)
    requires SC.StripOp(op) == SC.StripOp(q) && SC.ScopeTyped(q) && x in LeftScalars(q)
    ensures e in LeftScalars(op) && (x == e || (SC.Strip(x) == SC.Strip(e) && SC.CachesTyped(x)))
  {
    match q {
      case ProjectionOp(ps) => e := OriginalProjector(op.projectors, ps, x);
      case FilterOp(c) => e := op.condition;
      case AggregateOp(aggs) => e := OriginalArgument(op.aggregates, aggs, x);
      case GroupOp(aggs, keys) =>
        if x in AggregateScalars(aggs) {
          e := OriginalArgument(op.aggregates, aggs, x);
        } else {
          e := x;
        }
      case _ => e := x;
    }
  }

  lemma OriginalProjector(ps: seq<Projector>, qs: seq<Projector>, x: Scalar) returns (e: Scalar)
    requires SP.MapProjectors(SC.StripFn(), ps) == SP.MapProjectors(SC.StripFn(), qs)
    requires x in ProjectorScalars(qs) && forall i | 0 <= i < |qs| :: SC.CachesTyped(qs[i].expr)
    ensures e in ProjectorScalars(ps) && SC.Strip(x) == SC.Strip(e) && SC.CachesTyped(x)
  {
    var i :| 0 <= i < |qs| && qs[i].expr == x;
    assert |SP.MapProjectors(SC.StripFn(), ps)| == |ps|;
    assert SP.MapProjectors(SC.StripFn(), ps)[i].expr == SC.Strip(ps[i].expr);
    assert SP.MapProjectors(SC.StripFn(), qs)[i].expr == SC.Strip(x);
    e := ps[i].expr;
  }

  lemma OriginalArgument(aggs: seq<Aggregate>, bggs: seq<Aggregate>, x: Scalar) returns (e: Scalar)
    requires SP.MapAggregates(SC.StripFn(), aggs) == SP.MapAggregates(SC.StripFn(), bggs)
    requires x in AggregateScalars(bggs) && SC.ArgsTyped(bggs)
    ensures e in AggregateScalars(aggs) && SC.Strip(x) == SC.Strip(e) && SC.CachesTyped(x)
  {
    var f := SC.StripFn();
    var i :| 0 <= i < |bggs| && x in AggregateArgs(bggs[i].node);
    var j :| 0 <= j < |bggs[i].node.args| && bggs[i].node.args[j] == x;
    assert |SP.MapAggregates(f, aggs)| == |aggs|;
    assert SP.MapAggregates(f, aggs)[i].node == SP.MapAggregates(f, bggs)[i].node;
    assert Map(f, aggs[i].node.args) == Map(f, bggs[i].node.args);
    e := aggs[i].node.args[j];
    assert Map(f, aggs[i].node.args)[j] == SC.Strip(e) && Map(f, bggs[i].node.args)[j] == SC.Strip(x);
    assert e in AggregateArgs(aggs[i].node);
  }

  lemma ScalarsOfOk(q: Op, schema: Schema, ss: seq<Schema>, x: Scalar)
    requires OpOk(q, schema, ss) && x in LeftScalars(q)
    ensures ArityOk(x)
  {
    match q {
      case ProjectionOp(ps) => ProjectorOk(ss[0], ps, x);
      case SortOp(order, _) => var i :| 0 <= i < |order| && order[i] == x; assert ScalarOk(ss[0], order[i]);
      case TopKOp(order, _, _) => var i :| 0 <= i < |order| && order[i] == x; assert ScalarOk(ss[0], order[i]);
      case MergeOp(order, _) => var i :| 0 <= i < |order| && order[i] == x; assert ScalarOk(ss[0], order[i]);
      case AggregateOp(aggs) => ArgumentOk(ss[0], aggs, x);
      case GroupOp(aggs, keys) =>
        if x in AggregateScalars(aggs) {
          ArgumentOk(ss[0], aggs, x);
        } else {
          ProjectorOk(ss[0], keys, x);
        }
      case _ =>
    }
  }

  lemma ProjectorOk(s: Schema, ps: seq<Projector>, x: Scalar)
    requires ScalarsOk(s, Exprs(ps)) && x in ProjectorScalars(ps)
    ensures ArityOk(x)
  {
    var i :| 0 <= i < |ps| && ps[i].expr == x;
    assert ScalarOk(s, Exprs(ps)[i]);
  }

  lemma ArgumentOk(s: Schema, aggs: seq<Aggregate>, x: Scalar)
    requires AggregatesOk(s, aggs) && x in AggregateScalars(aggs)
    ensures ArityOk(x)
  {
    var i :| 0 <= i < |aggs| && x in AggregateArgs(aggs[i].node);
    var j :| 0 <= j < |AggregateArgs(aggs[i].node)| && AggregateArgs(aggs[i].node)[j] == x;
    assert ScalarOk(s, AggregateArgs(aggs[i].node)[j]);
  }

  lemma RecachedLeft(env: Env, op: Op, q: Op, schema: Schema, ss: seq<Schema>, rows: seq<Row>)
    requires |ss| >= 1 && OpOk(q, schema, ss) && SC.StripOp(op) == SC.StripOp(q) && SC.ScopeTyped(q)
    requires GoodScalars(Typed, env, ss[0], rows, LeftScalars(op))
    ensures GoodScalars(Typed, env, ss[0], rows, LeftScalars(q))
  {
    hide SC.StripOp, SC.ScopeTyped, LeftScalars, SS.Proper, OpOk;
    forall x, row | x in LeftScalars(q) && row in rows ensures Good(Typed, env, ss[0], row, x) {
      var e := OriginalScalar(op, q, x);
      assert Good(Typed, env, ss[0], row, e);
      ScalarsOfOk(q, schema, ss, x);
      if x != e {
        RecachedScalar(env, ss[0], row, e, x);
      }
    }
  }

  lemma RecachedFilter(env: Env, s: Schema, rows: seq<Row>, c: Scalar, q: Scalar)
    requires SC.Strip(c) == SC.Strip(q) && GoodFilter(Typed, env, s, rows, c) && GoodScalars(Typed, env, s, rows, {q})
    ensures GoodFilter(Typed, env, s, rows, q)
  {
    hide SS.Proper;
    forall row | row in rows ensures GoodCondition(Typed, env, s, row, q) {
      assert q in {q} && Good(Typed, env, s, row, q) && GoodCondition(Typed, env, s, row, c);
      ConditionDecides(Typed, env, s, row, c);
      SC.StripEval(env, s, row, c);
      SC.StripEval(env, s, row, q);
      ProperCondition(env, s, row, q);
    }
  }

  lemma RecachedShape(op: Op, q: Op)
    requires SC.StripOp(op) == SC.StripOp(q)
    ensures SameAggregateTypes(op, q) && RightScalars(op) == RightScalars(q)
    ensures op.FilterOp? <==> q.FilterOp?
    ensures op.FilterOp? ==> SC.Strip(op.condition) == SC.Strip(q.condition) && LeftScalars(q) == {q.condition}
    ensures op.MergeOp? <==> q.MergeOp?
  {
    if op.AggregateOp? {
      RecachedTypes(op.aggregates, q.aggregates);
    } else if op.GroupOp? {
      RecachedTypes(op.aggregates, q.aggregates);
    }
  }

  lemma RecachedTypes(aggs: seq<Aggregate>, bggs: seq<Aggregate>)
    requires SP.MapAggregates(SC.StripFn(), aggs) == SP.MapAggregates(SC.StripFn(), bggs)
    ensures SameTypes(aggs, bggs)
  {
    var f := SC.StripFn();
    assert |SP.MapAggregates(f, aggs)| == |aggs|;
    forall i | 0 <= i < |aggs| ensures bggs[i].ty == aggs[i].ty {
      assert SP.MapAggregates(f, aggs)[i].ty == SP.MapAggregates(f, bggs)[i].ty;
    }
  }

  /** An operator recached with cache nodes of the right types is as good. */
  lemma RecachedOpGood(env: Env, op: Op, q: Op, schema: Schema, ss: seq<Schema>, ins: seq<seq<Row>>)
    requires |ss| == |ins| && ArityIs(op, |ins|) && OpOk(q, schema, ss) && GoodOp(Typed, env, op, ss, ins)
    requires SC.StripOp(op) == SC.StripOp(q) && SC.ScopeTyped(q)
    ensures GoodOp(Typed, env, q, ss, ins)
  {
    hide SC.StripOp, SC.ScopeTyped, OpOk, GoodFilter, GoodScalars, Good, OpAgrees, AggregatesTyped;
    RecachedShape(op, q);
    assert LeftRows(op, ins) == LeftRows(q, ins);
    if |ss| >= 1 {
      RecachedLeft(env, op, q, schema, ss, LeftRows(op, ins));
      SC.SameStripOp(env, op, q, ss, ins);
      AgreeingTyped(env, op, q, ss, ins);
      if op.FilterOp? {
        RecachedFilter(env, ss[0], ins[0], op.condition, q.condition);
      }
    }
  }

  lemma {:induction false} RecachedGood(env: Env, costs: Costs, q: Relation, r: Relation)
    requires Sound(env, r) && GoodTree(Typed, env, r) && WellFormed(q) && SC.Recached(costs, q, r)
    ensures GoodTree(Typed, env, q)
    decreases r
  {
    hide OpOk, GoodOp, SC.StripOp, SC.OpCost, SC.ScopeTyped;
    forall i | 0 <= i < |r.inputs| ensures Replaces(env, q.inputs[i], r.inputs[i]) && GoodTree(Typed, env, q.inputs[i]) {
      RecachedGood(env, costs, q.inputs[i], r.inputs[i]);
      SC.RecachedMeaning(env, costs, q.inputs[i], r.inputs[i]);
    }
    GoodCongruence(Typed, env, r, q.inputs);
    var mid := r.(inputs := q.inputs);
    if q.op != r.op {
      SP.OpArity(mid.op, mid.schema, Schemas(mid.inputs));
      RecachedOpGood(env, mid.op, q.op, q.schema, Schemas(q.inputs), DenoteAll(env, q.inputs));
    }
  }
}
