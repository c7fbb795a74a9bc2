/** Every pass leaves a tree whose scalars are as good as before, so another round may follow. */
module ProperPasses {
  import opened Values
  import opened Sequences
  import opened Scalars
  import opened Relations
  import opened ScalarCost
  import opened Standards
  import AR = AggregateRewrites
  import EP = EmptyPrune
  import LP = LimitPushdown
  import PC = ProjectionCollapse
  import RP = RelationPasses
  import RS = RelationSimplify
  import SS = ScalarSimplify

  // --- nodes without scalars ---

  predicate NoScalars(op: Op) {
    op.EmptyOp? || op.LimitOp? || op.UnionAllOp? || op.MaterializeOp?
  }

  lemma NoScalarsGood(std: Standard, env: Env, op: Op, ss: seq<Schema>, ins: seq<seq<Row>>)
    requires |ss| == |ins| && NoScalars(op)
    ensures GoodOp(std, env, op, ss, ins)
  {
  }

  lemma NodeGood(std: Standard, env: Env, r: Relation)
    requires WellFormed(r) && GoodOp(std, env, r.op, Schemas(r.inputs), DenoteAll(env, r.inputs))
    requires forall i :: 0 <= i < |r.inputs| ==> GoodTree(std, env, r.inputs[i])
    ensures GoodTree(std, env, r)
  {
  }

  lemma PlainNodeGood(std: Standard, env: Env, r: Relation)
    requires WellFormed(r) && NoScalars(r.op)
    requires forall i :: 0 <= i < |r.inputs| ==> GoodTree(std, env, r.inputs[i])
    ensures GoodTree(std, env, r)
  {
    hide GoodTree, WellFormed, GoodOp;
    NoScalarsGood(std, env, r.op, SchemasOf(r), DenoteOf(env, r));
    NodeGood(std, env, r);
  }

  function SchemasOf(r: Relation): (ss: seq<Schema>)
    ensures ss == Schemas(r.inputs)
  {
    Schemas(r.inputs)
  }

  function DenoteOf(env: Env, r: Relation): (ins: seq<seq<Row>>)
    requires WellFormed(r)
    ensures WellFormed(r) && ins == DenoteAll(env, r.inputs) && |ins| == |r.inputs|
  {
    DenoteAll(env, r.inputs)
  }

  lemma EmptyGood(std: Standard, env: Env, r: Relation)
    requires WellFormed(r)
    ensures WellFormed(EP.Empty(r)) && GoodTree(std, env, EP.Empty(r))
  {
    assert Distinct(r.schema);
  }

  // --- pruning ---

  lemma PruneNodeGood(std: Standard, env: Env, r: Relation)
    requires WellFormed(r) && GoodTree(std, env, r)
    ensures WellFormed(EP.PruneNode(r)) && GoodTree(std, env, EP.PruneNode(r))
  {
    hide GoodTree, OpOk, WellFormed;
    EP.PruneNodeOk(r);
    EmptyGood(std, env, r);
    var q := EP.PruneNode(r);
    if r.op.UnionAllOp? {
      var rest := EP.NonEmpty(r.inputs);
      FilterMembers(EP.HasRows(), r.inputs);
      forall i | 0 <= i < |rest| ensures WellFormed(rest[i]) && GoodTree(std, env, rest[i]) {
        assert rest[i] in rest;
        GoodMember(std, env, r, rest[i]);
      }
      if |rest| > 1 {
        PlainNodeGood(std, env, q);
      }
    } else {
      EP.PruneNodeShape(r);
      if q in r.inputs {
        GoodMember(std, env, r, q);
      }
    }
  }

  // --- simplifying relations ---

  ghost predicate AllGood(std: Standard, env: Env, rs: seq<Relation>) {
    forall i :: 0 <= i < |rs| ==> WellFormed(rs[i]) && GoodTree(std, env, rs[i])
  }

  lemma AllGoodAppend(std: Standard, env: Env, a: seq<Relation>, b: seq<Relation>)
    requires AllGood(std, env, a) && AllGood(std, env, b)
    ensures AllGood(std, env, a + b)
  {
    hide GoodTree, WellFormed;
  }

  lemma InputsGood(std: Standard, env: Env, r: Relation)
    requires WellFormed(r) && GoodTree(std, env, r)
    ensures AllGood(std, env, r.inputs)
  {
  }

  lemma {:induction false} FlattenedGood(std: Standard, env: Env, rs: seq<Relation>)
    requires AllGood(std, env, rs)
    ensures AllGood(std, env, RS.Flattened(rs))
  {
    hide GoodTree, WellFormed;
    if rs != [] {
      var last := rs[|rs| - 1];
      FlattenedGood(std, env, rs[..|rs| - 1]);
      if last.op.UnionAllOp? {
        InputsGood(std, env, last);
        AllGoodAppend(std, env, RS.Flattened(rs[..|rs| - 1]), last.inputs);
      } else {
        AllGoodAppend(std, env, RS.Flattened(rs[..|rs| - 1]), [last]);
      }
    }
  }

  /** Outside unions a step leaves the node, empties it or takes its input. */
  lemma SimplifyNodeShape(r: Relation)
    requires WellFormed(r) && !r.op.UnionAllOp?
    ensures RS.SimplifyNode(r) == r || RS.SimplifyNode(r) == EP.Empty(r) || RS.SimplifyNode(r) in r.inputs
  {
  }

  lemma SimplifyNodeGood(std: Standard, env: Env, r: Relation)
    requires WellFormed(r) && GoodTree(std, env, r)
    ensures WellFormed(RS.SimplifyNode(r)) && GoodTree(std, env, RS.SimplifyNode(r))
  {
    hide GoodTree, WellFormed, RS.IsForwarding;
    RS.SimplifyNodeOk(r);
    if r.op.UnionAllOp? {
      InputsGood(std, env, r);
      FlattenedGood(std, env, r.inputs);
      PlainNodeGood(std, env, RS.SimplifyNode(r));
    } else {
      SimplifyNodeShape(r);
      EmptyGood(std, env, r);
      if RS.SimplifyNode(r) in r.inputs {
        GoodMember(std, env, r, RS.SimplifyNode(r));
      }
    }
  }

  // --- limits ---

  /** The same scalars over the same rows. */
  lemma SameScalarsGood(std: Standard, env: Env, op: Op, q: Op, ss: seq<Schema>, ins: seq<seq<Row>>)
    requires |ss| == |ins| && GoodOp(std, env, op, ss, ins) && (op.SortOp? || op.TopKOp?)
    requires q.TopKOp? && q.order == op.order
    ensures GoodOp(std, env, q, ss, ins)
  {
    assert LeftScalars(q) == LeftScalars(op);
  }

  lemma TopKGood(std: Standard, env: Env, r: Relation, q: Relation)
    requires WellFormed(r) && GoodTree(std, env, r) && (r.op.SortOp? || r.op.TopKOp?)
    requires WellFormed(q) && q.op.TopKOp? && q.op.order == r.op.order && q.inputs == r.inputs
    ensures GoodTree(std, env, q)
  {
    hide GoodOp, OpOk;
    SameScalarsGood(std, env, r.op, q.op, Schemas(r.inputs), DenoteAll(env, r.inputs));
  }

  lemma EnsureLimitedGood(std: Standard, env: Env, limit: nat, node: Relation)
    requires WellFormed(node) && GoodTree(std, env, node)
    ensures WellFormed(LP.EnsureLimited(limit, node)) && GoodTree(std, env, LP.EnsureLimited(limit, node))
  {
    hide GoodTree, WellFormed;
    LP.EnsureLimitedOk(limit, node);
    var q := LP.EnsureLimited(limit, node);
    if node.op.TopKOp? {
      TopKGood(std, env, node, q);
    } else if node.op.LimitOp? {
      InputsGood(std, env, node);
      PlainNodeGood(std, env, q);
    } else {
      PlainNodeGood(std, env, q);
    }
  }

  lemma AllLimitedGood(std: Standard, env: Env, limit: nat, src: Relation)
    requires Sound(env, src) && GoodTree(std, env, src) && (src.op.UnionAllOp? || src.op.MergeOp?)
    ensures var q := src.(inputs := LP.EnsureAllLimited(limit, src.inputs)); WellFormed(q) && GoodTree(std, env, q)
  {
    hide GoodTree, OpOk;
    LP.EnsureAllLimitedOk(limit, src);
    var q := src.(inputs := LP.EnsureAllLimited(limit, src.inputs));
    InputsGood(std, env, src);
    forall i | 0 <= i < |src.inputs|
      ensures q.inputs[i].schema == src.inputs[i].schema && GoodTree(std, env, q.inputs[i])
      ensures Within(Denote(env, q.inputs[i]), Denote(env, src.inputs[i]))
    {
      EnsureLimitedGood(std, env, limit, src.inputs[i]);
      LP.EnsureLimitedOk(limit, src.inputs[i]);
      LP.EnsureLimitedMeaning(env, limit, src.inputs[i]);
      PrefixWithin(Denote(env, q.inputs[i]), Denote(env, src.inputs[i]));
    }
    FewerInputsGood(std, env, src, q);
  }

  lemma PrefixWithin(a: seq<Row>, b: seq<Row>)
    requires a <= b
    ensures Within(a, b)
  {
    assert b[..|a|] == a;
  }

  lemma LimitedProjectionGood(std: Standard, env: Env, limit: nat, src: Relation, q: Relation)
    requires WellFormed(src) && GoodTree(std, env, src) && src.op.ProjectionOp? && |src.inputs| == 1
    requires WellFormed(q) && q.op == src.op && q.inputs == [LP.LimitNode(src.inputs[0], limit)]
    ensures GoodTree(std, env, q)
  {
    hide GoodTree, OpOk;
    var capped := LP.LimitNode(src.inputs[0], limit);
    assert q.inputs[0] == capped;
    InputsGood(std, env, src);
    LP.DenoteLimit(env, capped);
    PlainNodeGood(std, env, capped);
    PrefixWithin(Denote(env, capped), Denote(env, src.inputs[0]));
    FewerInputsGood(std, env, src, q);
  }

  lemma PushLimitGood(std: Standard, env: Env, r: Relation)
    requires Sound(env, r) && GoodTree(std, env, r) && r.op.LimitOp?
    ensures |r.inputs| == 1 && WellFormed(r.inputs[0])
    ensures WellFormed(LP.PushLimit(r.op.limit, r.inputs[0], r)) && GoodTree(std, env, LP.PushLimit(r.op.limit, r.inputs[0], r))
  {
    hide GoodTree, OpOk;
    LP.PushLimitOk(r);
    var src, limit := r.inputs[0], r.op.limit;
    var q := LP.PushLimit(limit, src, r);
    InputsGood(std, env, r);
    if src.op.ProjectionOp? {
      PC.InnerColumns(src);
      LimitedProjectionGood(std, env, limit, src, q);
    } else if src.op.SortOp? || src.op.TopKOp? {
      TopKGood(std, env, src, q);
    } else if src.op.LimitOp? {
      InputsGood(std, env, src);
      PlainNodeGood(std, env, q);
    } else if src.op.UnionAllOp? || src.op.MergeOp? {
      AllLimitedGood(std, env, limit, src);
      PlainNodeGood(std, env, q);
    }
  }

  /** Limits move without any scalar seeing a row it did not see before. */
  lemma {:induction false} LimitsGood(std: Standard, env: Env, r: Relation)
    requires Sound(env, r) && GoodTree(std, env, r)
    ensures GoodTree(std, env, LP.Pushdown(r))
    decreases r
  {
    hide OpOk, GoodOp;
    forall i | 0 <= i < |r.inputs|
      ensures Replaces(env, LP.Pushdown(r.inputs[i]), r.inputs[i]) && GoodTree(std, env, LP.Pushdown(r.inputs[i]))
    {
      LimitsGood(std, env, r.inputs[i]);
      LP.PushdownMeaning(env, r.inputs[i]);
    }
    var p := LP.PushdownInputs(r);
    GoodCongruence(std, env, r, p.inputs);
    Congruence(env, r, p.inputs);
    if p.op.LimitOp? {
      PushLimitGood(std, env, p);
    }
  }

  // --- collapsing projections ---

  /** On this row every inner scalar is proper. */
  ghost predicate ProperInners(env: Env, s: Schema, row: Row, inner: map<FieldId, Scalar>) {
    forall f :: f in inner ==> SS.Proper(env, s, row, inner[f])
  }

  /** A scalar that is proper on a projected row is proper, after substitution, on the row that was projected. */
  lemma {:induction false} CollapseProper(env: Env, s: Schema, row: Row, t: Schema, out: Row, e: Scalar, inner: map<FieldId, Scalar>)
    requires Fields(e) <= inner.Keys && PC.Computes(env, s, row, inner, t, out)
    requires ProperInners(env, s, row, inner) && SS.Proper(env, t, out, e)
    ensures SS.Proper(env, s, row, PC.Collapse(e, inner))
  {
    PC.CollapseMeaning(env, s, row, t, out, e, inner);
    if e.Cached? {
      CollapseProper(env, s, row, t, out, e.inner, inner);
    } else if e.Coalesce? || e.Call? {
      var qs := PC.CollapseAll(e.args, inner);
      forall i | 0 <= i < |e.args| ensures SS.Proper(env, s, row, qs[i]) {
        assert Fields(e.args[i]) <= Fields(e);
        CollapseProper(env, s, row, t, out, e.args[i], inner);
      }
      PC.CollapseAllMeaning(env, s, row, t, out, e.args, inner);
    }
  }

  lemma InnersProper(env: Env, s: Schema, row: Row, ps: seq<Projector>)
    requires forall e :: e in ProjectorScalars(ps) ==> Good(Typed, env, s, row, e)
    ensures ProperInners(env, s, row, PC.InnerScalars(ps))
    ensures PC.Computes(env, s, row, PC.InnerScalars(ps), Aliases(ps), ProjectFn(env, s, ps)(row))
  {
    var m := PC.InnerScalars(ps);
    forall f | f in m
      ensures SS.Proper(env, s, row, m[f])
      ensures Eval(env, s, row, m[f]) == At(Aliases(ps), ProjectFn(env, s, ps)(row), f)
    {
      var i := Slot(Aliases(ps), f);
      assert m[f] == ps[i].expr && Exprs(ps)[i] == ps[i].expr;
      assert Good(Typed, env, s, row, ps[i].expr);
      EvalAt(env, s, row, Exprs(ps), i);
    }
  }

  lemma ComposedScalar(r: Relation, e: Scalar) returns (outer: Scalar)
    requires WellFormed(r) && PC.IsProjectionProjection(r) && e in ProjectorScalars(PC.Composed(r))
    ensures outer in ProjectorScalars(r.op.projectors)
    ensures Fields(outer) <= PC.InnerScalars(r.inputs[0].op.projectors).Keys
    ensures e == PC.Collapse(outer, PC.InnerScalars(r.inputs[0].op.projectors)) && ArityOk(e)
  {
    var i :| 0 <= i < |PC.Composed(r)| && PC.Composed(r)[i].expr == e;
    PC.OuterFields(r);
    PC.InnerColumns(r.inputs[0]);
    PC.ComposedOk(r);
    outer := r.op.projectors[i].expr;
    assert Exprs(r.op.projectors)[i] == outer && Fields(outer) <= AllFields(Exprs(r.op.projectors));
    assert ScalarOk(r.inputs[0].inputs[0].schema, Exprs(PC.Composed(r))[i]);
  }

  /** The scalars of a projection are good on the rows of its source. */
  lemma ProjectorsGood(std: Standard, env: Env, r: Relation)
    requires WellFormed(r) && r.op.ProjectionOp? && GoodTree(std, env, r)
    ensures |r.inputs| == 1 && r.schema == Aliases(r.op.projectors)
    ensures GoodScalars(std, env, r.inputs[0].schema, Denote(env, r.inputs[0]), ProjectorScalars(r.op.projectors))
  {
    PC.InnerColumns(r);
    assert Schemas(r.inputs)[0] == r.inputs[0].schema && DenoteAll(env, r.inputs)[0] == Denote(env, r.inputs[0]);
  }

  lemma ComposedGood(env: Env, r: Relation, row: Row, e: Scalar)
    requires WellFormed(r) && PC.IsProjectionProjection(r) && GoodTree(Typed, env, r)
    requires e in ProjectorScalars(PC.Composed(r)) && |r.inputs[0].inputs| == 1 && row in Denote(env, r.inputs[0].inputs[0])
    ensures Good(Typed, env, r.inputs[0].inputs[0].schema, row, e)
  {
    hide GoodTree, OpOk, SS.Proper, PC.Composed;
    var inner := r.inputs[0];
    var s, ps := inner.inputs[0].schema, inner.op.projectors;
    InputsGood(Typed, env, r);
    ProjectorsGood(Typed, env, r);
    ProjectorsGood(Typed, env, inner);
    InnersProper(env, s, row, ps);
    var outer := ComposedScalar(r, e);
    PC.ProjectionRows(env, inner);
    var rows := Denote(env, inner.inputs[0]);
    var i :| 0 <= i < |rows| && rows[i] == row;
    var out := ProjectFn(env, s, ps)(row);
    assert Denote(env, inner)[i] == out;
    assert Good(Typed, env, inner.schema, out, outer);
    CollapseProper(env, s, row, inner.schema, out, outer, PC.InnerScalars(ps));
  }

  lemma ProjectionGood(std: Standard, env: Env, ps: seq<Projector>, source: Relation, schema: Schema)
    requires var q := Relation(ProjectionOp(ps), [source], schema);
             WellFormed(q) && WellFormed(source) && GoodTree(std, env, source) &&
             GoodScalars(std, env, source.schema, Denote(env, source), ProjectorScalars(ps))
    ensures GoodTree(std, env, Relation(ProjectionOp(ps), [source], schema))
  {
    var q := Relation(ProjectionOp(ps), [source], schema);
    assert Schemas(q.inputs) == [source.schema] && DenoteAll(env, q.inputs) == [Denote(env, source)];
  }

  lemma CollapseNodeGood(env: Env, costs: Costs, r: Relation)
    requires WellFormed(r) && GoodTree(Typed, env, r)
    ensures WellFormed(PC.CollapseNode(costs, r)) && GoodTree(Typed, env, PC.CollapseNode(costs, r))
  {
    hide GoodTree, OpOk, Good, PC.Composed;
    PC.CollapseNodeOk(costs, r);
    var q := PC.CollapseNode(costs, r);
    if q != r {
      var inner := r.inputs[0];
      PC.InnerColumns(inner);
      InputsGood(Typed, env, r);
      InputsGood(Typed, env, inner);
      var source := inner.inputs[0];
      forall e, row | e in ProjectorScalars(PC.Composed(r)) && row in Denote(env, source)
        ensures Good(Typed, env, source.schema, row, e)
      {
        ComposedGood(env, r, row, e);
      }
      assert q == Relation(ProjectionOp(PC.Composed(r)), [source], r.schema);
      ProjectionGood(Typed, env, PC.Composed(r), source, r.schema);
    }
  }

  // --- folding aggregates ---

  lemma FoldedScalars(aggs: seq<Aggregate>)
    ensures AggregateScalars(AR.FoldAggregates(aggs)) <= AggregateScalars(aggs)
  {
    forall e | e in AggregateScalars(AR.FoldAggregates(aggs)) ensures e in AggregateScalars(aggs) {
      var i :| 0 <= i < |aggs| && e in AggregateArgs(AR.FoldAggregates(aggs)[i].node);
      assert e in AggregateArgs(aggs[i].node);
    }
  }

  lemma FoldedTyped(env: Env, s: Schema, rows: seq<Row>, aggs: seq<Aggregate>)
    requires TypedOver(env, s, rows, aggs)
    ensures TypedOver(env, s, rows, AR.FoldAggregates(aggs))
  {
    forall i | 0 <= i < |aggs|
      ensures SS.HasType(AggregateValue(env, s, rows, AR.FoldAggregates(aggs)[i].node), AR.FoldAggregates(aggs)[i].ty)
    {
      AR.FoldAggregateMeaning(env, s, rows, aggs[i].node);
    }
  }

  lemma FoldedOpGood(env: Env, op: Op, q: Op, ss: seq<Schema>, ins: seq<seq<Row>>)
    requires |ss| == |ins| == 1 && GoodOp(Typed, env, op, ss, ins)
    requires match op
             case AggregateOp(aggs) => q == AggregateOp(AR.FoldAggregates(aggs))
             case GroupOp(aggs, keys) => q == GroupOp(AR.FoldAggregates(aggs), keys)
             case _ => false
    ensures GoodOp(Typed, env, q, ss, ins)
  {
    hide Good, TypedOver, AggregateScalars;
    FoldedScalars(op.aggregates);
    assert LeftRows(op, ins) == LeftRows(q, ins) == ins[0];
    if op.AggregateOp? {
      FoldedTyped(env, ss[0], ins[0], op.aggregates);
    } else {
      forall k | k in Map(KeyFn(env, ss[0], Exprs(op.keys)), ins[0])
        ensures TypedOver(env, ss[0], Filter(HasKey(env, ss[0], op.keys, k), ins[0]), q.aggregates)
      {
        FoldedTyped(env, ss[0], Filter(HasKey(env, ss[0], op.keys, k), ins[0]), op.aggregates);
      }
    }
  }

  lemma FoldNodeGood(env: Env, r: Relation)
    requires WellFormed(r) && GoodTree(Typed, env, r)
    ensures WellFormed(AR.FoldNode(r)) && GoodTree(Typed, env, AR.FoldNode(r))
  {
    hide GoodOp, OpOk;
    AR.FoldNodeOk(r);
    if r.op.AggregateOp? || r.op.GroupOp? {
      OneInput(r);
      FoldedOpGood(env, r.op, AR.FoldNode(r).op, Schemas(r.inputs), DenoteAll(env, r.inputs));
    }
  }

  lemma OneInput(r: Relation)
    requires WellFormed(r) && (r.op.AggregateOp? || r.op.GroupOp?)
    ensures |r.inputs| == 1
  {
  }

  // --- computing equal aggregates once ---

  lemma KeptScalars(aggs: seq<Aggregate>, kept: seq<Aggregate>)
    requires forall k | 0 <= k < |kept| :: kept[k] in aggs
    ensures AggregateScalars(kept) <= AggregateScalars(aggs)
  {
    forall e | e in AggregateScalars(kept) ensures e in AggregateScalars(aggs) {
      var k :| 0 <= k < |kept| && e in AggregateArgs(kept[k].node);
      assert kept[k] in aggs;
      var i :| 0 <= i < |aggs| && aggs[i] == kept[k];
      assert e in AggregateArgs(aggs[i].node);
    }
  }

  lemma KeptTyped(env: Env, s: Schema, rows: seq<Row>, aggs: seq<Aggregate>, kept: seq<Aggregate>)
    requires TypedOver(env, s, rows, aggs) && forall k | 0 <= k < |kept| :: kept[k] in aggs
    ensures TypedOver(env, s, rows, kept)
  {
    forall k | 0 <= k < |kept| ensures SS.HasType(AggregateValue(env, s, rows, kept[k].node), kept[k].ty) {
      assert kept[k] in aggs;
      var i :| 0 <= i < |aggs| && aggs[i] == kept[k];
    }
  }

  lemma KeptOpGood(env: Env, op: Op, q: Op, ss: seq<Schema>, ins: seq<seq<Row>>)
    requires |ss| == |ins| == 1 && GoodOp(Typed, env, op, ss, ins)
    requires (op.AggregateOp? && q.AggregateOp?) || (op.GroupOp? && q.GroupOp? && op.keys == q.keys)
    requires forall k | 0 <= k < |q.aggregates| :: q.aggregates[k] in op.aggregates
    ensures GoodOp(Typed, env, q, ss, ins)
  {
    hide Good, TypedOver, AggregateScalars;
    KeptScalars(op.aggregates, q.aggregates);
    assert LeftRows(op, ins) == LeftRows(q, ins) == ins[0];
    if op.AggregateOp? {
      KeptTyped(env, ss[0], ins[0], op.aggregates, q.aggregates);
    } else {
      forall k | k in Map(KeyFn(env, ss[0], Exprs(op.keys)), ins[0])
        ensures TypedOver(env, ss[0], Filter(HasKey(env, ss[0], op.keys, k), ins[0]), q.aggregates)
      {
        KeptTyped(env, ss[0], Filter(HasKey(env, ss[0], op.keys, k), ins[0]), op.aggregates, q.aggregates);
      }
    }
  }

  /** A forwarded aggregate has the type it is declared with. */
  lemma ForwarderGood(env: Env, s: Schema, rows: seq<Row>, aggs: seq<Aggregate>, kept: seq<Aggregate>, columns: seq<FieldId>,
                      rest: Schema, tail: Row)
    requires |columns| == |aggs| && AR.Covers(aggs, kept, columns) && Distinct(Outputs(kept) + rest) && TypedOver(env, s, rows, aggs)
    ensures forall e :: e in ProjectorScalars(AR.Forwarders(aggs, columns)) ==>
              Good(Typed, env, Outputs(kept) + rest, AggregateRow(env, s, rows, kept) + tail, e)
  {
    hide AggregateValue, Distinct, At, AR.Served;
    var t, row := Outputs(kept) + rest, AggregateRow(env, s, rows, kept) + tail;
    forall e | e in ProjectorScalars(AR.Forwarders(aggs, columns)) ensures Good(Typed, env, t, row, e) {
      var i :| 0 <= i < |aggs| && AR.Forwarders(aggs, columns)[i].expr == e;
      AR.ForwardedAggregate(env, s, rows, aggs[i], kept, columns[i], rest, tail);
    }
  }

  /** A forwarded group key has the type of the key scalar. */
  lemma KeyForwarderGood(env: Env, s: Schema, keys: seq<Projector>, head: Row, tail: Row)
    requires Distinct(s + Aliases(keys)) && |head| == |s| && |tail| == |keys|
    requires forall i :: 0 <= i < |keys| ==> SS.HasType(tail[i], keys[i].expr.ty)
    ensures forall e :: e in ProjectorScalars(AR.KeyForwarders(keys)) ==> Good(Typed, env, s + Aliases(keys), head + tail, e)
  {
    var t := s + Aliases(keys);
    forall e | e in ProjectorScalars(AR.KeyForwarders(keys)) ensures Good(Typed, env, t, head + tail, e) {
      var i :| 0 <= i < |keys| && AR.KeyForwarders(keys)[i].expr == e;
      assert t[|s| + i] == keys[i].alias;
      SlotUnique(t, |s| + i);
    }
  }

  lemma ProjectorScalarsAppend(a: seq<Projector>, b: seq<Projector>)
    ensures ProjectorScalars(a + b) == ProjectorScalars(a) + ProjectorScalars(b)
  {
    forall e | e in ProjectorScalars(a) + ProjectorScalars(b) ensures e in ProjectorScalars(a + b) {
      if e in ProjectorScalars(a) {
        var i :| 0 <= i < |a| && a[i].expr == e;
        assert (a + b)[i].expr == e;
      } else {
        var i :| 0 <= i < |b| && b[i].expr == e;
        assert (a + b)[|a| + i].expr == e;
      }
    }
  }

  /** The key of a group was evaluated on one of its rows. */
  lemma KeyTyped(env: Env, s: Schema, rows: seq<Row>, keys: seq<Projector>, k: Key)
    requires k in Map(KeyFn(env, s, Exprs(keys)), rows) && GoodScalars(Typed, env, s, rows, ProjectorScalars(keys))
    ensures |k| == |keys| && forall i :: 0 <= i < |keys| ==> SS.HasType(k[i], keys[i].expr.ty)
  {
    var ks := Map(KeyFn(env, s, Exprs(keys)), rows);
    var n :| 0 <= n < |ks| && ks[n] == k;
    forall i | 0 <= i < |keys| ensures SS.HasType(k[i], keys[i].expr.ty) {
      assert keys[i].expr in ProjectorScalars(keys) && rows[n] in rows;
      assert Good(Typed, env, s, rows[n], keys[i].expr);
      EvalAt(env, s, rows[n], Exprs(keys), i);
    }
  }

  lemma GroupForwardersGood(env: Env, s: Schema, rows: seq<Row>, aggs: seq<Aggregate>, kept: seq<Aggregate>, columns: seq<FieldId>,
                            keys: seq<Projector>, k: Key)
    requires |columns| == |aggs| && AR.Covers(aggs, kept, columns) && Distinct(Outputs(kept) + Aliases(keys))
    requires k in Map(KeyFn(env, s, Exprs(keys)), rows) && GoodScalars(Typed, env, s, rows, ProjectorScalars(keys))
    requires TypedOver(env, s, Filter(HasKey(env, s, keys, k), rows), aggs)
    ensures forall e :: e in ProjectorScalars(AR.Forwarders(aggs, columns) + AR.KeyForwarders(keys)) ==>
              Good(Typed, env, Outputs(kept) + Aliases(keys), GroupRow(env, s, rows, kept, keys)(k), e)
  {
    hide Good, AR.Covers, Distinct, TypedOver, GoodScalars, ProjectorScalars, SS.HasType, AR.Forwarders, AR.KeyForwarders;
    var group := Filter(HasKey(env, s, keys, k), rows);
    KeyTyped(env, s, rows, keys, k);
    ForwarderGood(env, s, group, aggs, kept, columns, Aliases(keys), k);
    KeyForwarderGood(env, Outputs(kept), keys, AggregateRow(env, s, group, kept), k);
    ProjectorScalarsAppend(AR.Forwarders(aggs, columns), AR.KeyForwarders(keys));
  }

  lemma GroupNodeRows(env: Env, r: Relation)
    requires WellFormed(r) && r.op.GroupOp? && |r.inputs| == 1
    ensures Denote(env, r) == GroupRows(env, r.inputs[0].schema, Denote(env, r.inputs[0]), r.op.aggregates, r.op.keys)
  {
    Unfold(env, r);
  }

  lemma AggregateNodeRows(env: Env, r: Relation)
    requires WellFormed(r) && r.op.AggregateOp? && |r.inputs| == 1
    ensures Denote(env, r) == [AggregateRow(env, r.inputs[0].schema, Denote(env, r.inputs[0]), r.op.aggregates)]
  {
    Unfold(env, r);
  }

  /** What a good aggregation has for its rows and scalars. */
  lemma AggregationGood(env: Env, r: Relation)
    requires WellFormed(r) && GoodTree(Typed, env, r) && (r.op.AggregateOp? || r.op.GroupOp?) && |r.inputs| == 1
    ensures GoodOp(Typed, env, r.op, [r.inputs[0].schema], [Denote(env, r.inputs[0])])
    ensures AggregatesTyped(env, r.op, r.inputs[0].schema, Denote(env, r.inputs[0]))
    ensures r.op.GroupOp? ==>
      GoodScalars(Typed, env, r.inputs[0].schema, Denote(env, r.inputs[0]), ProjectorScalars(r.op.keys))
  {
    assert Schemas(r.inputs) == [r.inputs[0].schema] && DenoteAll(env, r.inputs) == [Denote(env, r.inputs[0])];
  }

  lemma KeptNodeGood(env: Env, r: Relation, q: Relation)
    requires WellFormed(r) && GoodTree(Typed, env, r) && |r.inputs| == 1 && WellFormed(q) && q.inputs == r.inputs
    requires (r.op.AggregateOp? && q.op.AggregateOp?) || (r.op.GroupOp? && q.op.GroupOp? && r.op.keys == q.op.keys)
    requires forall k | 0 <= k < |q.op.aggregates| :: q.op.aggregates[k] in r.op.aggregates
    ensures GoodTree(Typed, env, q)
  {
    hide GoodOp, OpOk;
    KeptOpGood(env, r.op, q.op, Schemas(r.inputs), DenoteAll(env, r.inputs));
  }

  lemma DeduplicatedAggregateGood(env: Env, r: Relation)
    requires WellFormed(r) && r.op.AggregateOp? && GoodTree(Typed, env, r)
    ensures var (kept, columns) := AR.Deduplicated(r.op.aggregates);
            var q := AR.Over(AR.Forwarders(r.op.aggregates, columns), AggregateOp(kept), r, Outputs(kept));
            WellFormed(q) && GoodTree(Typed, env, q)
  {
    hide GoodTree, OpOk, GoodOp, Good, AR.Covers, TypedOver, AR.Deduplicated, AggregateRow, ProjectorScalars, AR.Forwarders;
    var aggs := r.op.aggregates;
    var (kept, columns) := AR.Deduplicated(aggs);
    AR.AggregateFacts(r);
    AR.KeptFrom(aggs, kept, columns);
    AggregationGood(env, r);
    var source := Relation(AggregateOp(kept), r.inputs, Outputs(kept));
    var s, rows := r.inputs[0].schema, Denote(env, r.inputs[0]);
    KeptNodeGood(env, r, source);
    AggregateNodeRows(env, source);
    ForwarderGood(env, s, rows, aggs, kept, columns, [], []);
    assert Outputs(kept) + [] == Outputs(kept) && AggregateRow(env, s, rows, kept) + [] == AggregateRow(env, s, rows, kept);
    ProjectionGood(Typed, env, AR.Forwarders(aggs, columns), source, r.schema);
  }

  lemma DeduplicatedGroupGood(env: Env, r: Relation)
    requires WellFormed(r) && r.op.GroupOp? && GoodTree(Typed, env, r)
    ensures var aggs, keys := r.op.aggregates, r.op.keys;
            var (kept, columns) := AR.Deduplicated(aggs);
            var q := AR.Over(AR.Forwarders(aggs, columns) + AR.KeyForwarders(keys), GroupOp(kept, keys), r,
                             Outputs(kept) + Aliases(keys));
            WellFormed(q) && GoodTree(Typed, env, q)
  {
    hide GoodTree, OpOk, GoodOp, Good, AR.Covers, TypedOver, AR.Deduplicated, GroupRow, ProjectorScalars, AR.Forwarders, AR.KeyForwarders,
         Distinct;
    var aggs, keys := r.op.aggregates, r.op.keys;
    var (kept, columns) := AR.Deduplicated(aggs);
    AR.GroupFacts(r);
    AR.KeptFrom(aggs, kept, columns);
    AggregationGood(env, r);
    var source := Relation(GroupOp(kept, keys), r.inputs, Outputs(kept) + Aliases(keys));
    var s, rows := r.inputs[0].schema, Denote(env, r.inputs[0]);
    KeptNodeGood(env, r, source);
    GroupNodeRows(env, source);
    var ps := AR.Forwarders(aggs, columns) + AR.KeyForwarders(keys);
    forall row, e | row in Denote(env, source) && e in ProjectorScalars(ps) ensures Good(Typed, env, source.schema, row, e) {
      var k := GroupOfRow(env, s, rows, kept, keys, row);
      GroupForwardersGood(env, s, rows, aggs, kept, columns, keys, k);
    }
    ProjectionGood(Typed, env, ps, source, r.schema);
  }

  lemma GroupOfRow(env: Env, s: Schema, rows: seq<Row>, aggs: seq<Aggregate>, keys: seq<Projector>, row: Row) returns (k: Key)
    requires row in GroupRows(env, s, rows, aggs, keys)
    ensures k in Map(KeyFn(env, s, Exprs(keys)), rows) && row == GroupRow(env, s, rows, aggs, keys)(k)
  {
    var ks := Map(KeyFn(env, s, Exprs(keys)), rows);
    DistinctKeysMembers(ks);
    var all := GroupRows(env, s, rows, aggs, keys);
    var i :| 0 <= i < |all| && all[i] == row;
    k := DistinctKeys(ks)[i];
    assert k in DistinctKeys(ks);
  }

  lemma DeduplicateNodeGood(env: Env, r: Relation)
    requires WellFormed(r) && GoodTree(Typed, env, r)
    ensures WellFormed(AR.DeduplicateNode(r)) && GoodTree(Typed, env, AR.DeduplicateNode(r))
  {
    hide GoodTree, WellFormed, AR.Deduplicated;
    if r.op.AggregateOp? {
      DeduplicatedAggregateGood(env, r);
    } else if r.op.GroupOp? {
      DeduplicatedGroupGood(env, r);
    }
  }

  // --- whole passes ---

  lemma NodeStepGood(env: Env, pass: RP.Pass, r: Relation)
    requires WellFormed(r) && GoodTree(Typed, env, r)
    ensures GoodTree(Typed, env, RP.NodeStep(pass, r))
  {
    hide GoodTree, WellFormed;
    match pass {
      case ConstAggregateFold => FoldNodeGood(env, r);
      case AggregateDeduplicate => DeduplicateNodeGood(env, r);
      case SimplifyRelations => SimplifyNodeGood(Typed, env, r);
      case CollapseProjections(costs) => CollapseNodeGood(env, costs, r);
      case PruneEmpty => PruneNodeGood(Typed, env, r);
    }
  }

  /** The passes that rewrite one node at a time leave properly typed trees properly typed. */
  lemma {:induction false} BottomUpGood(env: Env, pass: RP.Pass, r: Relation)
    requires Sound(env, r) && GoodTree(Typed, env, r)
    ensures GoodTree(Typed, env, RP.BottomUp(pass, r))
    decreases r
  {
    hide OpOk, GoodOp, RP.NodeStep;
    var p := RP.BelowFirst(pass, r);
    forall i | 0 <= i < |r.inputs| ensures Replaces(env, p.inputs[i], r.inputs[i]) && GoodTree(Typed, env, p.inputs[i]) {
      BottomUpGood(env, pass, r.inputs[i]);
      RP.BottomUpMeaning(env, pass, r.inputs[i]);
    }
    GoodCongruence(Typed, env, r, p.inputs);
    assert p == r.(inputs := p.inputs);
    NodeStepGood(env, pass, p);
  }
}
