/** Passes that rewrite every scalar of a relation in place: constant folding and simplification. */
module ScalarPasses {
  import opened Values
  import opened Sequences
  import opened Scalars
  import opened Relations
  import opened ScalarRewrites
  import opened ScalarSimplify
  import opened Standards

  // --- the scalars of an operator ---

  function MapProjectors(f: Scalar -> Scalar, ps: seq<Projector>): (qs: seq<Projector>)
    ensures |qs| == |ps| && forall i | 0 <= i < |ps| :: qs[i] == Projector(ps[i].alias, f(ps[i].expr))
  {
    seq(|ps|, i requires 0 <= i < |ps| => Projector(ps[i].alias, f(ps[i].expr)))
  }

  function MapAggregate(f: Scalar -> Scalar, a: AggregateNode): AggregateNode {
    match a
    case FnAggregate(fn, args) => FnAggregate(fn, Map(f, args))
    case ConstAggregate(_, _) => a
  }

  function MapAggregates(f: Scalar -> Scalar, aggs: seq<Aggregate>): (bggs: seq<Aggregate>)
    ensures |bggs| == |aggs|
    ensures forall i | 0 <= i < |aggs| :: bggs[i] == aggs[i].(node := MapAggregate(f, aggs[i].node))
  {
    seq(|aggs|, i requires 0 <= i < |aggs| => aggs[i].(node := MapAggregate(f, aggs[i].node)))
  }

  function MapOp(f: Scalar -> Scalar, op: Op): Op {
    match op
    case ProjectionOp(ps) => ProjectionOp(MapProjectors(f, ps))
    case FilterOp(c) => FilterOp(f(c))
    case SortOp(order, desc) => SortOp(Map(f, order), desc)
    case TopKOp(order, desc, k) => TopKOp(Map(f, order), desc, k)
    case MergeOp(order, desc) => MergeOp(Map(f, order), desc)
    case LeftJoinOp(lk, rk) => LeftJoinOp(f(lk), f(rk))
    case SemiJoinOp(key, m) => SemiJoinOp(f(key), m)
    case MarkJoinOp(key, m, output) => MarkJoinOp(f(key), m, output)
    case AggregateOp(aggs) => AggregateOp(MapAggregates(f, aggs))
    case GroupOp(aggs, keys) => GroupOp(MapAggregates(f, aggs), MapProjectors(f, keys))
    case _ => op
  }

  // --- what a map of scalars keeps ---

  ghost predicate FitsAll(f: Scalar -> Scalar) {
    forall e :: Fits(f(e), e)
  }

  ghost predicate KeepsScalars(env: Env, f: Scalar -> Scalar, s: Schema, rows: seq<Row>, es: set<Scalar>) {
    forall e :: e in es ==> Agree(env, s, rows, e, f(e))
  }

  ghost predicate Keeps(env: Env, f: Scalar -> Scalar, op: Op, ss: seq<Schema>, ins: seq<seq<Row>>)
    requires |ss| == |ins|
  {
    && (|ss| >= 1 ==> KeepsScalars(env, f, ss[0], LeftRows(op, ins), LeftScalars(op)))
    && (|ss| >= 2 ==> KeepsScalars(env, f, ss[1], ins[1], RightScalars(op)))
  }

  lemma MapScalarsOk(f: Scalar -> Scalar, s: Schema, es: seq<Scalar>)
    requires FitsAll(f) && ScalarsOk(s, es)
    ensures ScalarsOk(s, Map(f, es))
  {
    forall i | 0 <= i < |es| ensures ScalarOk(s, Map(f, es)[i]) {
      assert ScalarOk(s, es[i]) && Fits(f(es[i]), es[i]);
    }
  }

  lemma MapScalarOk(f: Scalar -> Scalar, s: Schema, e: Scalar)
    requires FitsAll(f) && ScalarOk(s, e)
    ensures ScalarOk(s, f(e))
  {
    assert Fits(f(e), e);
  }

  lemma MapProjectorsOk(f: Scalar -> Scalar, s: Schema, ps: seq<Projector>)
    requires FitsAll(f) && ScalarsOk(s, Exprs(ps))
    ensures ScalarsOk(s, Exprs(MapProjectors(f, ps))) && Aliases(MapProjectors(f, ps)) == Aliases(ps)
  {
    MapScalarsOk(f, s, Exprs(ps));
    assert Exprs(MapProjectors(f, ps)) == Map(f, Exprs(ps));
  }

  lemma MapAggregatesOk(f: Scalar -> Scalar, s: Schema, aggs: seq<Aggregate>)
    requires FitsAll(f) && AggregatesOk(s, aggs)
    ensures AggregatesOk(s, MapAggregates(f, aggs)) && Outputs(MapAggregates(f, aggs)) == Outputs(aggs)
  {
    forall i | 0 <= i < |aggs| ensures ScalarsOk(s, AggregateArgs(MapAggregates(f, aggs)[i].node)) {
      MapScalarsOk(f, s, AggregateArgs(aggs[i].node));
    }
  }

  lemma MapOpOk(f: Scalar -> Scalar, op: Op, schema: Schema, ss: seq<Schema>)
    requires FitsAll(f) && OpOk(op, schema, ss)
    ensures OpOk(MapOp(f, op), schema, ss)
  {
    hide FitsAll, ScalarOk, ScalarsOk, AggregatesOk, Distinct;
    match op {
      case ProjectionOp(ps) => MapProjectorsOk(f, ss[0], ps);
      case FilterOp(c) => MapScalarOk(f, ss[0], c);
      case SortOp(order, _) => MapScalarsOk(f, ss[0], order);
      case TopKOp(order, _, _) => MapScalarsOk(f, ss[0], order);
      case MergeOp(order, _) => MapScalarsOk(f, ss[0], order);
      case LeftJoinOp(lk, rk) => MapScalarOk(f, ss[0], lk); MapScalarOk(f, ss[1], rk);
      case SemiJoinOp(key, _) => MapScalarOk(f, ss[0], key);
      case MarkJoinOp(key, _, _) => MapScalarOk(f, ss[0], key);
      case AggregateOp(aggs) => MapAggregatesOk(f, ss[0], aggs);
      case GroupOp(aggs, keys) => MapAggregatesOk(f, ss[0], aggs); MapProjectorsOk(f, ss[0], keys);
      case _ =>
    }
  }

  lemma MapAgrees(env: Env, f: Scalar -> Scalar, s: Schema, rows: seq<Row>, es: seq<Scalar>)
    requires forall e :: e in es ==> Agree(env, s, rows, e, f(e))
    ensures AllAgree(env, s, rows, es, Map(f, es))
  {
    forall row | row in rows ensures EvalAll(env, s, row, es) == EvalAll(env, s, row, Map(f, es)) {
      forall i | 0 <= i < |es| ensures Eval(env, s, row, es[i]) == Eval(env, s, row, f(es[i])) {
        assert Agree(env, s, rows, es[i], f(es[i]));
      }
    }
  }

  lemma MapProjectorsAgree(env: Env, f: Scalar -> Scalar, s: Schema, rows: seq<Row>, ps: seq<Projector>)
    requires KeepsScalars(env, f, s, rows, ProjectorScalars(ps))
    ensures ProjectorsAgree(env, s, rows, ps, MapProjectors(f, ps))
  {
    assert Exprs(MapProjectors(f, ps)) == Map(f, Exprs(ps));
    assert forall e :: e in Exprs(ps) ==> e in ProjectorScalars(ps);
    MapAgrees(env, f, s, rows, Exprs(ps));
  }

  lemma MapAggregatesAgree(env: Env, f: Scalar -> Scalar, s: Schema, rows: seq<Row>, aggs: seq<Aggregate>)
    requires KeepsScalars(env, f, s, rows, AggregateScalars(aggs))
    ensures AggregatesAgree(env, s, rows, aggs, MapAggregates(f, aggs))
  {
    var bggs := MapAggregates(f, aggs);
    forall i | 0 <= i < |aggs| ensures AggregateAgrees(env, s, rows, aggs[i].node, bggs[i].node) {
      if aggs[i].node.FnAggregate? {
        assert forall e :: e in AggregateArgs(aggs[i].node) ==> e in AggregateScalars(aggs);
        MapAgrees(env, f, s, rows, aggs[i].node.args);
      }
    }
  }

  /** A map that keeps the value of every scalar on the rows it sees gives an agreeing operator. */
  lemma MapOpAgrees(env: Env, f: Scalar -> Scalar, op: Op, ss: seq<Schema>, ins: seq<seq<Row>>)
    requires |ss| == |ins| && ArityIs(op, |ins|) && Keeps(env, f, op, ss, ins)
    ensures OpAgrees(env, op, MapOp(f, op), ss, ins)
  {
    hide Agree, AllAgree;
    match op {
      case ProjectionOp(ps) => MapProjectorsAgree(env, f, ss[0], ins[0], ps);
      case SortOp(order, _) => MapAgrees(env, f, ss[0], ins[0], order);
      case TopKOp(order, _, _) => MapAgrees(env, f, ss[0], ins[0], order);
      case MergeOp(order, _) => MapAgrees(env, f, ss[0], ins[0] + ins[1], order);
      case AggregateOp(aggs) => MapAggregatesAgree(env, f, ss[0], ins[0], aggs);
      case GroupOp(aggs, keys) =>
        assert KeepsScalars(env, f, ss[0], ins[0], AggregateScalars(aggs) + ProjectorScalars(keys));
        MapAggregatesAgree(env, f, ss[0], ins[0], aggs);
        MapProjectorsAgree(env, f, ss[0], ins[0], keys);
      case _ =>
    }
  }

  // --- the pass over a tree ---

  /** Rewrites the scalars of every node. */
  function MapTree(f: Scalar -> Scalar, r: Relation): Relation {
    Relation(MapOp(f, r.op), seq(|r.inputs|, i requires 0 <= i < |r.inputs| => MapTree(f, r.inputs[i])), r.schema)
  }

  function RuleFn(rule: Rule): Scalar -> Scalar {
    e => if ArityOk(e) then Rewrite(rule, e) else e
  }

  /** Folds every call of constants. */
  function FoldConstants(env: Env, r: Relation): Relation {
    MapTree(RuleFn(Fold(env)), r)
  }

  function SimplifyScalars(r: Relation): Relation {
    MapTree(RuleFn(Simplify), r)
  }

  lemma RuleFits(rule: Rule)
    ensures FitsAll(RuleFn(rule))
  {
  }

  lemma RuleKeeps(env: Env, rule: Rule, s: Schema, rows: seq<Row>, es: set<Scalar>)
    requires GoodScalars(Typed, env, s, rows, es) && (rule.Fold? ==> rule.env == env)
    ensures KeepsScalars(env, RuleFn(rule), s, rows, es)
    ensures forall e, row :: e in es && row in rows ==> Right(env, s, row, RuleFn(rule)(e), e)
  {
    forall e, row | e in es && row in rows ensures Right(env, s, row, RuleFn(rule)(e), e) {
      assert Good(Typed, env, s, row, e);
      RewriteRight(env, s, row, rule, e);
    }
  }

  lemma MapLeftScalars(f: Scalar -> Scalar, op: Op, q: Scalar) returns (e: Scalar)
    requires q in LeftScalars(MapOp(f, op))
    ensures e in LeftScalars(op) && q == f(e)
  {
    match op {
      case ProjectionOp(ps) => e := MapProjectorScalars(f, ps, q);
      case FilterOp(c) => e := c;
      case SortOp(order, _) => var i :| 0 <= i < |order| && f(order[i]) == q; e := order[i];
      case TopKOp(order, _, _) => var i :| 0 <= i < |order| && f(order[i]) == q; e := order[i];
      case MergeOp(order, _) => var i :| 0 <= i < |order| && f(order[i]) == q; e := order[i];
      case LeftJoinOp(lk, _) => e := lk;
      case SemiJoinOp(key, _) => e := key;
      case MarkJoinOp(key, _, _) => e := key;
      case AggregateOp(aggs) => e := MapAggregateScalars(f, aggs, q);
      case GroupOp(aggs, keys) =>
        if q in AggregateScalars(MapAggregates(f, aggs)) {
          e := MapAggregateScalars(f, aggs, q);
        } else {
          e := MapProjectorScalars(f, keys, q);
        }
    }
  }

  lemma MapProjectorScalars(f: Scalar -> Scalar, ps: seq<Projector>, q: Scalar) returns (e: Scalar)
    requires q in ProjectorScalars(MapProjectors(f, ps))
    ensures e in ProjectorScalars(ps) && q == f(e)
  {
    var i :| 0 <= i < |ps| && MapProjectors(f, ps)[i].expr == q;
    e := ps[i].expr;
  }

  lemma MapAggregateScalars(f: Scalar -> Scalar, aggs: seq<Aggregate>, q: Scalar) returns (e: Scalar)
    requires q in AggregateScalars(MapAggregates(f, aggs))
    ensures e in AggregateScalars(aggs) && q == f(e)
  {
    var i :| 0 <= i < |aggs| && q in AggregateArgs(MapAggregates(f, aggs)[i].node);
    var args := aggs[i].node.args;
    var j :| 0 <= j < |args| && Map(f, args)[j] == q;
    e := args[j];
    assert e in AggregateArgs(aggs[i].node);
  }

  lemma RuleKeepsLeft(env: Env, rule: Rule, op: Op, s: Schema, rows: seq<Row>)
    requires GoodScalars(Typed, env, s, rows, LeftScalars(op)) && (rule.Fold? ==> rule.env == env)
    ensures GoodScalars(Typed, env, s, rows, LeftScalars(MapOp(RuleFn(rule), op)))
  {
    hide Proper, Eval, Fields, Rewrite;
    var f := RuleFn(rule);
    RuleKeeps(env, rule, s, rows, LeftScalars(op));
    forall q, row | q in LeftScalars(MapOp(f, op)) && row in rows ensures Good(Typed, env, s, row, q) {
      var e := MapLeftScalars(f, op, q);
      assert Good(Typed, env, s, row, e);
      assert Right(env, s, row, f(e), e) && Fits(f(e), e);
    }
  }

  /** A rewritten filter condition is still a boolean on every row. */
  lemma RuleKeepsFilter(env: Env, rule: Rule, s: Schema, rows: seq<Row>, c: Scalar)
    requires GoodScalars(Typed, env, s, rows, {c}) && GoodFilter(Typed, env, s, rows, c) && (rule.Fold? ==> rule.env == env)
    ensures GoodFilter(Typed, env, s, rows, RuleFn(rule)(c))
  {
    hide Proper, Eval, Fields, Rewrite, GoodCondition;
    var f := RuleFn(rule);
    RuleKeeps(env, rule, s, rows, {c});
    forall row | row in rows ensures GoodCondition(Typed, env, s, row, f(c)) {
      assert c in {c} && Good(Typed, env, s, row, c) && GoodCondition(Typed, env, s, row, c);
      ConditionDecides(Typed, env, s, row, c);
      assert Right(env, s, row, f(c), c) && Fits(f(c), c);
      ProperCondition(env, s, row, f(c));
    }
  }

  lemma RuleKeepsRight(env: Env, rule: Rule, op: Op, s: Schema, rows: seq<Row>)
    requires GoodScalars(Typed, env, s, rows, RightScalars(op)) && (rule.Fold? ==> rule.env == env)
    ensures KeepsScalars(env, RuleFn(rule), s, rows, RightScalars(op))
    ensures GoodScalars(Typed, env, s, rows, RightScalars(MapOp(RuleFn(rule), op)))
  {
    hide Proper, Eval, Fields, Rewrite;
    var f := RuleFn(rule);
    RuleKeeps(env, rule, s, rows, RightScalars(op));
    forall q, row | q in RightScalars(MapOp(f, op)) && row in rows ensures Good(Typed, env, s, row, q) {
      assert op.rightKey in RightScalars(op) && Good(Typed, env, s, row, op.rightKey);
      assert Right(env, s, row, f(op.rightKey), op.rightKey) && Fits(f(op.rightKey), op.rightKey);
    }
  }

  lemma RuleKeepsOp(env: Env, rule: Rule, op: Op, ss: seq<Schema>, ins: seq<seq<Row>>)
    requires |ss| == |ins| && ArityIs(op, |ins|) && GoodOp(Typed, env, op, ss, ins) && (rule.Fold? ==> rule.env == env)
    ensures OpAgrees(env, op, MapOp(RuleFn(rule), op), ss, ins)
    ensures GoodOp(Typed, env, MapOp(RuleFn(rule), op), ss, ins)
  {
    hide Good, GoodCondition, GoodFilter, GoodScalars, Rewrite, OpAgrees, AggregatesTyped, KeepsScalars;
    var f := RuleFn(rule);
    if |ss| >= 1 {
      LeftKept(env, rule, op, ss[0], LeftRows(op, ins));
      if op.FilterOp? {
        RuleKeepsFilter(env, rule, ss[0], ins[0], op.condition);
      }
    }
    if |ss| >= 2 {
      RuleKeepsRight(env, rule, op, ss[1], ins[1]);
    }
    MapOpAgrees(env, f, op, ss, ins);
    if |ss| >= 1 {
      MappedTypes(f, op);
      AgreeingTyped(env, op, MapOp(f, op), ss, ins);
    }
    assert LeftRows(MapOp(f, op), ins) == LeftRows(op, ins);
  }

  lemma LeftKept(env: Env, rule: Rule, op: Op, s: Schema, rows: seq<Row>)
    requires GoodScalars(Typed, env, s, rows, LeftScalars(op)) && (rule.Fold? ==> rule.env == env)
    ensures KeepsScalars(env, RuleFn(rule), s, rows, LeftScalars(op))
    ensures GoodScalars(Typed, env, s, rows, LeftScalars(MapOp(RuleFn(rule), op)))
  {
    RuleKeeps(env, rule, s, rows, LeftScalars(op));
    RuleKeepsLeft(env, rule, op, s, rows);
  }

  lemma MappedTypes(f: Scalar -> Scalar, op: Op)
    ensures SameAggregateTypes(op, MapOp(f, op))
  {
  }

  lemma OpArity(op: Op, schema: Schema, ss: seq<Schema>)
    requires OpOk(op, schema, ss)
    ensures ArityIs(op, |ss|)
  {
  }

  /** Rewriting all scalars of a tree by either rule keeps its rows, and its scalars stay proper. */
  lemma {:induction false} RewriteTree(env: Env, rule: Rule, r: Relation)
    requires Sound(env, r) && ProperTree(env, r) && (rule.Fold? ==> rule.env == env)
    ensures Replaces(env, MapTree(RuleFn(rule), r), r) && ProperTree(env, MapTree(RuleFn(rule), r))
  {
    hide OpOk, OpRows, OpAgrees, GoodOp, MapOp;
    var f := RuleFn(rule);
    var q := MapTree(f, r);
    forall i | 0 <= i < |r.inputs|
      ensures Replaces(env, q.inputs[i], r.inputs[i]) && ProperTree(env, q.inputs[i])
    {
      RewriteTree(env, rule, r.inputs[i]);
    }
    Congruence(env, r, q.inputs);
    var mid := r.(inputs := q.inputs);
    assert Schemas(q.inputs) == Schemas(r.inputs) && DenoteAll(env, q.inputs) == DenoteAll(env, r.inputs);
    RuleFits(rule);
    OpArity(r.op, r.schema, Schemas(r.inputs));
    MapOpOk(f, r.op, r.schema, Schemas(r.inputs));
    RuleKeepsOp(env, rule, r.op, Schemas(r.inputs), DenoteAll(env, r.inputs));
    ExchangeOp(env, mid, MapOp(f, r.op));
  }

  lemma FoldConstantsMeaning(env: Env, r: Relation)
    requires Sound(env, r) && ProperTree(env, r)
    ensures Replaces(env, FoldConstants(env, r), r) && ProperTree(env, FoldConstants(env, r))
  {
    RewriteTree(env, Fold(env), r);
  }

  lemma SimplifyScalarsMeaning(env: Env, r: Relation)
    requires Sound(env, r) && ProperTree(env, r)
    ensures Replaces(env, SimplifyScalars(r), r) && ProperTree(env, SimplifyScalars(r))
  {
    RewriteTree(env, Simplify, r);
  }
}
