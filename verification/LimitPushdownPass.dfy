/** Limit pushdown as the optimizer runs it, reporting every change. */
module LimitPushdownPass {
  import opened Sequences
  import opened Relations
  import opened OptimizerContext
  import L = LimitPushdown

  method EnsureLimited(limit: nat, node: Relation, ctx: Context) returns (q: Relation)
    modifies ctx
    ensures q == L.EnsureLimited(limit, node)
    ensures (old(ctx.changes) ==> ctx.changes) && (!ctx.changes ==> q == node)
  {
    q := node;
    if node.op.LimitOp? {
      if node.op.limit > limit {
        ctx.SetChanges();
        q := node.(op := node.op.(limit := limit));
      }
    } else if node.op.TopKOp? {
      if node.op.topCount > limit {
        ctx.SetChanges();
        q := node.(op := node.op.(topCount := limit));
      }
    } else {
      ctx.SetChanges();
      q := L.LimitNode(node, limit);
    }
  }

  method EnsureAllLimited(limit: nat, nodes: seq<Relation>, ctx: Context) returns (qs: seq<Relation>)
    modifies ctx
    ensures qs == L.EnsureAllLimited(limit, nodes)
    ensures (old(ctx.changes) ==> ctx.changes) && (!ctx.changes ==> qs == nodes)
  {
    hide L.EnsureLimited;
    qs := [];
    for i := 0 to |nodes|
      invariant qs == L.EnsureAllLimited(limit, nodes)[..i]
      invariant (old(ctx.changes) ==> ctx.changes) && (!ctx.changes ==> qs == nodes[..i])
    {
      var q := EnsureLimited(limit, nodes[i], ctx);
      qs := qs + [q];
    }
  }

  /** One step at a limit: `self` is the limit node, `src` its source. */
  method PushLimit(self: Relation, src: Relation, ctx: Context) returns (q: Relation)
    requires WellFormed(self) && self.op.LimitOp? && self.inputs == [src] && WellFormed(src)
    modifies ctx
    ensures q == L.PushLimit(self.op.limit, src, self)
    ensures (old(ctx.changes) ==> ctx.changes) && (!ctx.changes ==> q == self)
  {
    hide L.EnsureLimited;
    var limit := self.op.limit;
    q := self;
    if src.op.ProjectionOp? {
      ctx.SetChanges();
      q := Relation(src.op, [L.LimitNode(src.inputs[0], limit)], self.schema);
    } else if src.op.SortOp? {
      ctx.SetChanges();
      q := Relation(TopKOp(src.op.order, src.op.desc, limit), src.inputs, self.schema);
    } else if src.op.LimitOp? {
      ctx.SetChanges();
      q := Relation(LimitOp(Min(limit, src.op.limit)), src.inputs, self.schema);
    } else if src.op.TopKOp? {
      ctx.SetChanges();
      q := Relation(TopKOp(src.op.order, src.op.desc, Min(limit, src.op.topCount)), src.inputs, self.schema);
    } else if src.op.UnionAllOp? || src.op.MergeOp? {
      var inputs := EnsureAllLimited(limit, src.inputs, ctx);
      q := self.(inputs := [src.(inputs := inputs)]);
    }
  }

  method VisitInputs(r: Relation, ctx: Context) returns (inputs: seq<Relation>)
    requires WellFormed(r)
    modifies ctx
    ensures r.(inputs := inputs) == L.PushdownInputs(r)
    ensures (old(ctx.changes) ==> ctx.changes) && (!ctx.changes ==> inputs == r.inputs)
    decreases r, 0
  {
    hide OpOk, L.Pushdown;
    inputs := [];
    for i := 0 to |r.inputs|
      invariant |inputs| == i && forall k | 0 <= k < i :: inputs[k] == L.Pushdown(r.inputs[k])
      invariant (old(ctx.changes) ==> ctx.changes) && (!ctx.changes ==> inputs == r.inputs[..i])
    {
      var input := Visit(r.inputs[i], ctx);
      inputs := inputs + [input];
    }
    assert inputs == L.PushdownInputs(r).inputs;
  }

  method Visit(r: Relation, ctx: Context) returns (q: Relation)
    requires WellFormed(r)
    modifies ctx
    ensures q == L.Pushdown(r)
    ensures (old(ctx.changes) ==> ctx.changes) && (!ctx.changes ==> q == r)
    decreases r, 1
  {
    hide OpOk, L.PushLimit;
    var inputs := VisitInputs(r, ctx);
    q := r.(inputs := inputs);
    if q.op.LimitOp? {
      L.LimitSource(q);
      assert q.inputs == [q.inputs[0]];
      q := PushLimit(q, q.inputs[0], ctx);
    }
  }
}
