/** Constant folding and scalar simplification as the optimizer runs them, reporting every change. */
module ScalarPassesRun {
  import opened Sequences
  import opened Scalars
  import opened Relations
  import opened ScalarSimplify
  import opened ScalarPasses
  import opened OptimizerContext

  method AtRootOf(rule: Rule, e: Scalar, ctx: Context) returns (q: Scalar)
    requires ArityOk(e)
    modifies ctx
    ensures q == AtRoot(rule, e)
    ensures (old(ctx.changes) ==> ctx.changes) && (!ctx.changes ==> q == e)
  {
    q := e;
    match rule {
      case Fold(env) =>
        if e.Call? && AllConst(e.args) {
          ctx.SetChanges();
          q := Const(Apply(env, e.fn, ConstValues(e.args)), e.ty);
        }
      case Simplify =>
        if e.Coalesce? {
          var changed: bool;
          q, changed := OptimizeCoalesce(e);
          if changed {
            ctx.SetChanges();
          }
        } else if e.Call? {
          q := OptimizeCall(e, ctx);
        }
    }
  }

  method OptimizeCall(e: Scalar, ctx: Context) returns (q: Scalar)
    requires e.Call? && ArityOk(e)
    modifies ctx
    ensures q == SimplifyCall(e)
    ensures (old(ctx.changes) ==> ctx.changes) && (!ctx.changes ==> q == e)
  {
    q := e;
    match e.fn {
      case Cast(to) =>
        if e.args[0].ty == to {
          ctx.SetChanges();
          q := e.args[0];
        }
      case And => q := SimplifyBinaryCall(e, true, ctx);
      case Or => q := SimplifyBinaryCall(e, false, ctx);
      case Not =>
        var inner := e.args[0];
        assert ArityOk(inner);
        if inner.Call? && inner.fn == Not {
          ctx.SetChanges();
          q := inner.args[0];
        }
      case CoalesceFn =>
        ctx.SetChanges();
        q := Coalesce(e.args, e.ty);
      case Named(_) =>
    }
  }

  /** Looks at the two operands in turn and stops at the first boolean constant. */
  method SimplifyBinaryCall(e: Scalar, conjunction: bool, ctx: Context) returns (q: Scalar)
    requires e.Call? && |e.args| == 2
    modifies ctx
    ensures q == SimplifyBinary(e, conjunction)
    ensures (old(ctx.changes) ==> ctx.changes) && (!ctx.changes ==> q == e)
  {
    for index := 0 to 2
      invariant ctx.changes == old(ctx.changes)
      invariant forall k | 0 <= k < index :: !IsBoolConst(e.args[k])
    {
      var constant, other := e.args[index], e.args[1 - index];
      if IsBoolConst(constant) {
        ctx.SetChanges();
        return if constant.v.b == conjunction then other else constant;
      }
    }
    return e;
  }

  /** Rewrites the parts of a scalar, then the scalar. */
  method VisitScalar(rule: Rule, e: Scalar, ctx: Context) returns (q: Scalar)
    requires ArityOk(e)
    modifies ctx
    ensures q == Rewrite(rule, e)
    ensures (old(ctx.changes) ==> ctx.changes) && (!ctx.changes ==> q == e)
    decreases e, 2
  {
    hide AtRoot;
    var parts := e;
    match e {
      case Cached(inner, ty) =>
        var x := VisitScalar(rule, inner, ctx);
        parts := Cached(x, ty);
      case Coalesce(args, ty) =>
        var qs := VisitScalars(rule, args, ctx);
        parts := Coalesce(qs, ty);
      case Call(fn, args, ty) =>
        var qs := VisitScalars(rule, args, ctx);
        parts := Call(fn, qs, ty);
      case _ =>
    }
    assert parts == RewriteParts(rule, e);
    q := AtRootOf(rule, parts, ctx);
  }

  method VisitScalars(rule: Rule, es: seq<Scalar>, ctx: Context) returns (qs: seq<Scalar>)
    requires forall i :: 0 <= i < |es| ==> ArityOk(es[i])
    modifies ctx
    ensures |qs| == |es| && forall i | 0 <= i < |es| :: qs[i] == Rewrite(rule, es[i])
    ensures (old(ctx.changes) ==> ctx.changes) && (!ctx.changes ==> qs == es)
    decreases es, 1
  {
    hide Rewrite;
    qs := [];
    for i := 0 to |es|
      invariant |qs| == i && forall k | 0 <= k < i :: qs[k] == Rewrite(rule, es[k])
      invariant (old(ctx.changes) ==> ctx.changes) && (!ctx.changes ==> qs == es[..i])
    {
      var q := VisitScalar(rule, es[i], ctx);
      qs := qs + [q];
    }
  }

  method VisitList(rule: Rule, es: seq<Scalar>, ctx: Context, ghost s: Schema) returns (qs: seq<Scalar>)
    requires ScalarsOk(s, es)
    modifies ctx
    ensures qs == Map(RuleFn(rule), es)
    ensures (old(ctx.changes) ==> ctx.changes) && (!ctx.changes ==> qs == es)
  {
    forall i | 0 <= i < |es| ensures ArityOk(es[i]) {
      assert ScalarOk(s, es[i]);
    }
    qs := VisitScalars(rule, es, ctx);
  }

  method VisitProjectors(rule: Rule, ps: seq<Projector>, ctx: Context, ghost s: Schema) returns (qs: seq<Projector>)
    requires ScalarsOk(s, Exprs(ps))
    modifies ctx
    ensures qs == MapProjectors(RuleFn(rule), ps)
    ensures (old(ctx.changes) ==> ctx.changes) && (!ctx.changes ==> qs == ps)
  {
    var es := VisitList(rule, Exprs(ps), ctx, s);
    qs := seq(|ps|, i requires 0 <= i < |ps| && |es| == |ps| => Projector(ps[i].alias, es[i]));
    assert es == Exprs(ps) ==> qs == ps;
  }

  method VisitAggregates(rule: Rule, aggs: seq<Aggregate>, ctx: Context, ghost s: Schema) returns (bggs: seq<Aggregate>)
    requires AggregatesOk(s, aggs)
    modifies ctx
    ensures bggs == MapAggregates(RuleFn(rule), aggs)
    ensures (old(ctx.changes) ==> ctx.changes) && (!ctx.changes ==> bggs == aggs)
  {
    hide RuleFn, ScalarsOk, MapAggregate;
    bggs := [];
    for i := 0 to |aggs|
      invariant |bggs| == i
      invariant forall k | 0 <= k < i :: bggs[k] == aggs[k].(node := MapAggregate(RuleFn(rule), aggs[k].node))
      invariant (old(ctx.changes) ==> ctx.changes) && (!ctx.changes ==> bggs == aggs[..i])
    {
      var a := VisitAggregate(rule, aggs[i], ctx, s);
      bggs := bggs + [a];
    }
  }

  method VisitAggregate(rule: Rule, a: Aggregate, ctx: Context, ghost s: Schema) returns (b: Aggregate)
    requires ScalarsOk(s, AggregateArgs(a.node))
    modifies ctx
    ensures b == a.(node := MapAggregate(RuleFn(rule), a.node))
    ensures (old(ctx.changes) ==> ctx.changes) && (!ctx.changes ==> b == a)
  {
    hide RuleFn, ScalarsOk;
    b := a;
    if a.node.FnAggregate? {
      var args := VisitList(rule, a.node.args, ctx, s);
      b := a.(node := FnAggregate(a.node.fn, args));
    }
  }

  method VisitOne(rule: Rule, e: Scalar, ctx: Context, ghost s: Schema) returns (q: Scalar)
    requires ScalarOk(s, e)
    modifies ctx
    ensures q == RuleFn(rule)(e)
    ensures (old(ctx.changes) ==> ctx.changes) && (!ctx.changes ==> q == e)
  {
    q := VisitScalar(rule, e, ctx);
  }

  /** Rewrites every scalar of one operator. */
  method VisitOp(rule: Rule, op: Op, ctx: Context, ghost schema: Schema, ghost ss: seq<Schema>) returns (q: Op)
    requires OpOk(op, schema, ss)
    modifies ctx
    ensures q == MapOp(RuleFn(rule), op)
    ensures (old(ctx.changes) ==> ctx.changes) && (!ctx.changes ==> q == op)
  {
    hide Distinct, ScalarOk, ScalarsOk, AggregatesOk, RuleFn;
    match op {
      case ProjectionOp(ps) =>
        var qs := VisitProjectors(rule, ps, ctx, ss[0]);
        q := ProjectionOp(qs);
      case FilterOp(c) =>
        var d := VisitOne(rule, c, ctx, ss[0]);
        q := FilterOp(d);
      case SortOp(order, desc) =>
        var es := VisitList(rule, order, ctx, ss[0]);
        q := SortOp(es, desc);
      case TopKOp(order, desc, k) =>
        var es := VisitList(rule, order, ctx, ss[0]);
        q := TopKOp(es, desc, k);
      case MergeOp(order, desc) =>
        var es := VisitList(rule, order, ctx, ss[0]);
        q := MergeOp(es, desc);
      case LeftJoinOp(lk, rk) =>
        var l := VisitOne(rule, lk, ctx, ss[0]);
        var r := VisitOne(rule, rk, ctx, ss[1]);
        q := LeftJoinOp(l, r);
      case SemiJoinOp(key, m) =>
        var k := VisitOne(rule, key, ctx, ss[0]);
        q := SemiJoinOp(k, m);
      case MarkJoinOp(key, m, output) =>
        var k := VisitOne(rule, key, ctx, ss[0]);
        q := MarkJoinOp(k, m, output);
      case AggregateOp(aggs) =>
        var bggs := VisitAggregates(rule, aggs, ctx, ss[0]);
        q := AggregateOp(bggs);
      case GroupOp(aggs, keys) =>
        var bggs := VisitAggregates(rule, aggs, ctx, ss[0]);
        var qs := VisitProjectors(rule, keys, ctx, ss[0]);
        q := GroupOp(bggs, qs);
      case _ =>
        q := op;
    }
  }

  method Visit(rule: Rule, r: Relation, ctx: Context) returns (q: Relation)
    requires WellFormed(r)
    modifies ctx
    ensures q == MapTree(RuleFn(rule), r)
    ensures (old(ctx.changes) ==> ctx.changes) && (!ctx.changes ==> q == r)
    decreases r
  {
    hide OpOk, MapOp, RuleFn;
    var inputs: seq<Relation> := [];
    for i := 0 to |r.inputs|
      invariant |inputs| == i && forall k | 0 <= k < i :: inputs[k] == MapTree(RuleFn(rule), r.inputs[k])
      invariant (old(ctx.changes) ==> ctx.changes) && (!ctx.changes ==> inputs == r.inputs[..i])
    {
      var input := Visit(rule, r.inputs[i], ctx);
      inputs := inputs + [input];
    }
    var op := VisitOp(rule, r.op, ctx, r.schema, Schemas(r.inputs));
    q := Relation(op, inputs, r.schema);
  }
}
