/** Filter pushdown as the optimizer runs it, reporting every change. */
module FilterPushdownPass {
  import opened Scalars
  import opened Relations
  import opened OptimizerContext
  import F = FilterPushdown

  /** Puts a filter on a relation and pushes it down; unreported, the filter stays where it was put. */
  method AddFilter(source: Relation, condition: Scalar, ctx: Context) returns (q: Relation)
    requires F.Fits(source, condition)
    modifies ctx
    ensures q == F.AddFilter(source, condition)
    ensures (old(ctx.changes) ==> ctx.changes) && (!ctx.changes ==> q == F.FilterNode(source, condition))
    decreases source, 1
  {
    hide OpOk;
    if source.op.UnionAllOp? || source.op.MergeOp? || source.op.SortOp? {
      q := AddToAll(source, condition, ctx);
      ctx.SetChanges();
    } else if source.op.ProjectionOp? {
      q := PushBelowProjection(source, condition, ctx);
    } else if source.op.LeftJoinOp? {
      q := PushBelowJoin(source, condition, ctx);
    } else {
      q := F.FilterNode(source, condition);
    }
  }

  method AddToAll(source: Relation, condition: Scalar, ctx: Context) returns (q: Relation)
    requires F.Fits(source, condition) && (source.op.UnionAllOp? || source.op.MergeOp? || source.op.SortOp?)
    modifies ctx
    ensures q == F.AddToAll(source, condition)
    decreases source, 0
  {
    hide OpOk, F.AddFilter;
    F.SameSchema(source);
    var inputs: seq<Relation> := [];
    for i := 0 to |source.inputs|
      invariant |inputs| == i && forall k | 0 <= k < i :: inputs[k] == F.AddFilter(source.inputs[k], condition)
    {
      var input := AddFilter(source.inputs[i], condition, ctx);
      inputs := inputs + [input];
    }
    q := source.(inputs := inputs);
    assert q.inputs == F.AddToAll(source, condition).inputs;
  }

  method PushBelowProjection(source: Relation, condition: Scalar, ctx: Context) returns (q: Relation)
    requires F.Fits(source, condition) && source.op.ProjectionOp?
    modifies ctx
    ensures q == F.AddFilter(source, condition)
    ensures (old(ctx.changes) ==> ctx.changes) && (!ctx.changes ==> q == F.FilterNode(source, condition))
    decreases source, 0
  {
    var fields := F.ProjectionFields(source);
    var split := F.Split(condition, fields.Keys);
    if split.pushable.None? {
      return F.FilterNode(source, condition);
    }
    F.RebindFits(source, split.pushable.value);
    var input := AddFilter(source.inputs[0], F.Rebind(split.pushable.value, fields), ctx);
    ctx.SetChanges();
    q := source.(inputs := source.inputs[0 := input]);
    if split.remaining.Some? {
      q := F.FilterNode(q, split.remaining.value);
    }
  }

  method PushBelowJoin(source: Relation, condition: Scalar, ctx: Context) returns (q: Relation)
    requires F.Fits(source, condition) && source.op.LeftJoinOp?
    modifies ctx
    ensures q == F.AddFilter(source, condition)
    ensures (old(ctx.changes) ==> ctx.changes) && (!ctx.changes ==> q == F.FilterNode(source, condition))
    decreases source, 0
  {
    var split := F.Split(condition, FieldSet(source.inputs[0].schema));
    if split.pushable.None? {
      return F.FilterNode(source, condition);
    }
    var input := AddFilter(source.inputs[0], split.pushable.value, ctx);
    ctx.SetChanges();
    q := source.(inputs := source.inputs[0 := input]);
    if split.remaining.Some? {
      q := F.FilterNode(q, split.remaining.value);
    }
  }

  method VisitInputs(r: Relation, ctx: Context) returns (inputs: seq<Relation>)
    requires WellFormed(r)
    modifies ctx
    ensures r.(inputs := inputs) == F.PushdownInputs(r)
    ensures (old(ctx.changes) ==> ctx.changes) && (!ctx.changes ==> inputs == r.inputs)
    decreases r, 0
  {
    hide OpOk, F.Pushdown;
    inputs := [];
    for i := 0 to |r.inputs|
      invariant |inputs| == i && forall k | 0 <= k < i :: inputs[k] == F.Pushdown(r.inputs[k])
      invariant (old(ctx.changes) ==> ctx.changes) && (!ctx.changes ==> inputs == r.inputs[..i])
    {
      var input := Visit(r.inputs[i], ctx);
      inputs := inputs + [input];
    }
    assert inputs == F.PushdownInputs(r).inputs;
  }

  method Visit(r: Relation, ctx: Context) returns (q: Relation)
    requires WellFormed(r)
    modifies ctx
    ensures q == F.Pushdown(r)
    ensures (old(ctx.changes) ==> ctx.changes) && (!ctx.changes ==> q == r)
    decreases r, 1
  {
    hide OpOk, F.AddFilter;
    var inputs := VisitInputs(r, ctx);
    q := r.(inputs := inputs);
    if q.op.FilterOp? {
      F.FilterFits(q);
      FilterItself(q);
      q := AddFilter(q.inputs[0], q.op.condition, ctx);
    }
  }

  lemma FilterItself(r: Relation)
    requires WellFormed(r) && r.op.FilterOp?
    ensures |r.inputs| == 1 && F.FilterNode(r.inputs[0], r.op.condition) == r
  {
    F.FilterFits(r);
    assert r.inputs == [r.inputs[0]];
  }
}
