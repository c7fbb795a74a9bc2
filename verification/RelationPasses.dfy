/** The passes that rewrite one relation node at a time, inputs first. */
module RelationPasses {
  import opened Scalars
  import opened Relations
  import opened ScalarCost
  import opened OptimizerContext
  import AggregateRewrites
  import EmptyPrune
  import ProjectionCollapse
  import RelationSimplify

  datatype Pass =
    | ConstAggregateFold
    | AggregateDeduplicate
    | SimplifyRelations
    | CollapseProjections(costs: Costs)
    | PruneEmpty

  function NodeStep(pass: Pass, r: Relation): (q: Relation)
    requires WellFormed(r)
    ensures WellFormed(q) && q.schema == r.schema
  {
    match pass
    case ConstAggregateFold => AggregateRewrites.FoldNodeOk(r); AggregateRewrites.FoldNode(r)
    case AggregateDeduplicate => AggregateRewrites.DeduplicateNodeOk(r); AggregateRewrites.DeduplicateNode(r)
    case SimplifyRelations => RelationSimplify.SimplifyNodeOk(r); RelationSimplify.SimplifyNode(r)
    case CollapseProjections(costs) => ProjectionCollapse.CollapseNodeOk(costs, r); ProjectionCollapse.CollapseNode(costs, r)
    case PruneEmpty => EmptyPrune.PruneNodeOk(r); EmptyPrune.PruneNode(r)
  }

  function BottomUp(pass: Pass, r: Relation): (q: Relation)
    requires WellFormed(r)
    ensures WellFormed(q) && q.schema == r.schema
    decreases r, 1
  {
    NodeStep(pass, BelowFirst(pass, r))
  }

  function BelowFirst(pass: Pass, r: Relation): (q: Relation)
    requires WellFormed(r)
    ensures WellFormed(q) && q.schema == r.schema && q.op == r.op && |q.inputs| == |r.inputs|
    ensures forall i :: 0 <= i < |r.inputs| ==> q.inputs[i] == BottomUp(pass, r.inputs[i])
    decreases r, 0
  {
    var qs := seq(|r.inputs|, i requires 0 <= i < |r.inputs| => BottomUp(pass, r.inputs[i]));
    InputsKept(r, qs);
    r.(inputs := qs)
  }

  lemma NodeStepMeaning(env: Env, pass: Pass, r: Relation)
    requires Sound(env, r)
    ensures Replaces(env, NodeStep(pass, r), r)
  {
    hide Sound;
    match pass {
      case ConstAggregateFold => AggregateRewrites.FoldNodeMeaning(env, r);
      case AggregateDeduplicate => AggregateRewrites.DeduplicateNodeMeaning(env, r);
      case SimplifyRelations => RelationSimplify.SimplifyNodeMeaning(env, r);
      case CollapseProjections(costs) => ProjectionCollapse.CollapseNodeMeaning(env, costs, r);
      case PruneEmpty => EmptyPrune.PruneNodeMeaning(env, r);
    }
  }

  /** Each of these passes keeps the rows and the columns of every sound tree. */
  lemma {:induction false} BottomUpMeaning(env: Env, pass: Pass, r: Relation)
    requires Sound(env, r)
    ensures Replaces(env, BottomUp(pass, r), r)
    decreases r
  {
    hide OpOk, OpRows, NodeStep;
    var p := BelowFirst(pass, r);
    forall i | 0 <= i < |r.inputs| ensures Replaces(env, p.inputs[i], r.inputs[i]) {
      BottomUpMeaning(env, pass, r.inputs[i]);
    }
    Congruence(env, r, p.inputs);
    assert p == r.(inputs := p.inputs);
    NodeStepMeaning(env, pass, p);
  }

  /** After pruning nothing is left to prune. */
  lemma {:induction false} PrunedNormal(r: Relation)
    requires WellFormed(r)
    ensures EmptyPrune.Normal(BottomUp(PruneEmpty, r))
    decreases r
  {
    hide OpOk, EmptyPrune.PruneNode;
    var p := BelowFirst(PruneEmpty, r);
    forall i | 0 <= i < |r.inputs| ensures EmptyPrune.Normal(p.inputs[i]) {
      PrunedNormal(r.inputs[i]);
    }
    EmptyPrune.PruneNodeNormal(p);
  }

  /** Pruning a pruned tree changes nothing. */
  lemma {:induction false} NormalFixed(r: Relation)
    requires WellFormed(r) && EmptyPrune.Normal(r)
    ensures BottomUp(PruneEmpty, r) == r
    decreases r
  {
    hide OpOk;
    var p := BelowFirst(PruneEmpty, r);
    forall i | 0 <= i < |r.inputs| ensures p.inputs[i] == r.inputs[i] {
      NormalFixed(r.inputs[i]);
    }
    assert p.inputs == r.inputs && p.schema == r.schema;
    assert p == r;
  }

  /** No top-k or limit of nothing is left, so building the operators cannot fail on one. */
  lemma NoZeroCountLeft(r: Relation)
    requires WellFormed(r)
    ensures EmptyPrune.NoZeroCount(BottomUp(PruneEmpty, r))
    ensures BottomUp(PruneEmpty, BottomUp(PruneEmpty, r)) == BottomUp(PruneEmpty, r)
  {
    PrunedNormal(r);
    EmptyPrune.NormalNoZero(BottomUp(PruneEmpty, r));
    NormalFixed(BottomUp(PruneEmpty, r));
  }

  // --- as the optimizer runs it ---

  method Step(pass: Pass, r: Relation, ctx: Context) returns (q: Relation)
    requires WellFormed(r)
    modifies ctx
    ensures q == NodeStep(pass, r)
    ensures (old(ctx.changes) ==> ctx.changes) && (!ctx.changes ==> q == r)
  {
    match pass {
      case ConstAggregateFold => q := AggregateRewrites.Fold(r, ctx);
      case AggregateDeduplicate => q := AggregateRewrites.Deduplicate(r, ctx);
      case SimplifyRelations => q := RelationSimplify.Simplify(r, ctx);
      case CollapseProjections(costs) => q := ProjectionCollapse.Optimize(costs, r, ctx);
      case PruneEmpty => q := EmptyPrune.Prune(r, ctx);
    }
  }

  method VisitInputs(pass: Pass, r: Relation, ctx: Context) returns (inputs: seq<Relation>)
    requires WellFormed(r)
    modifies ctx
    ensures r.(inputs := inputs) == BelowFirst(pass, r)
    ensures (old(ctx.changes) ==> ctx.changes) && (!ctx.changes ==> inputs == r.inputs)
    decreases r, 0
  {
    hide OpOk, NodeStep, BottomUp;
    inputs := [];
    for i := 0 to |r.inputs|
      invariant |inputs| == i && forall k | 0 <= k < i :: inputs[k] == BottomUp(pass, r.inputs[k])
      invariant (old(ctx.changes) ==> ctx.changes) && (!ctx.changes ==> inputs == r.inputs[..i])
    {
      var input := Visit(pass, r.inputs[i], ctx);
      inputs := inputs + [input];
    }
    assert inputs == BelowFirst(pass, r).inputs;
  }

  /** Visits the inputs, then the node; when no change is reported the tree is as it was. */
  method Visit(pass: Pass, r: Relation, ctx: Context) returns (q: Relation)
    requires WellFormed(r)
    modifies ctx
    ensures q == BottomUp(pass, r)
    ensures (old(ctx.changes) ==> ctx.changes) && (!ctx.changes ==> q == r)
    decreases r, 1
  {
    hide OpOk, NodeStep;
    var inputs := VisitInputs(pass, r, ctx);
    q := Step(pass, r.(inputs := inputs), ctx);
  }
}
