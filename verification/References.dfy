/** Rewrites bring in no reference to a named relation that was not there. */
module References {
  import opened Wrappers
  import opened Sequences
  import opened Scalars
  import opened Relations
  import opened ScalarCost
  import opened ScalarPasses
  import opened RelationPasses
  import opened Programs
  import AggregateRewrites
  import EmptyPrune
  import ProjectionCollapse
  import RelationSimplify
  import ScalarCache
  import F = FilterPushdown
  import L = LimitPushdown

  type Known = map<string, Schema>

  /** Whatever names suffice for a tree suffice for its rewrite. */
  ghost predicate KeepsRefs(q: Relation, r: Relation) {
    forall names: Known :: RefsIn(names, r) ==> RefsIn(names, q)
  }

  lemma KeepsThen(p: Relation, q: Relation, r: Relation)
    requires KeepsRefs(q, r) && KeepsRefs(p, q)
    ensures KeepsRefs(p, r)
  {
  }

  lemma RefsOfMember(names: Known, r: Relation, q: Relation)
    requires RefsIn(names, r) && q in r.inputs
    ensures RefsIn(names, q)
  {
  }

  lemma RefsOf(names: Known, op: Op, inputs: seq<Relation>, schema: Schema)
    requires !op.NamedOp? && forall q :: q in inputs ==> RefsIn(names, q)
    ensures RefsIn(names, Relation(op, inputs, schema))
  {
  }

  lemma {:induction false} MapTreeRefs(names: Known, f: Scalar -> Scalar, r: Relation)
    requires RefsIn(names, r)
    ensures RefsIn(names, MapTree(f, r))
    decreases r
  {
    var q := MapTree(f, r);
    forall i | 0 <= i < |r.inputs| ensures RefsIn(names, q.inputs[i]) {
      MapTreeRefs(names, f, r.inputs[i]);
    }
  }

  lemma {:induction false} RecachedRefs(names: Known, costs: Costs, q: Relation, r: Relation)
    requires RefsIn(names, r) && ScalarCache.Recached(costs, q, r)
    ensures RefsIn(names, q)
    decreases r
  {
    forall i | 0 <= i < |r.inputs| ensures RefsIn(names, q.inputs[i]) {
      RecachedRefs(names, costs, q.inputs[i], r.inputs[i]);
    }
    assert q.op.NamedOp? ==> q.op == r.op;
  }

  lemma {:induction false} FlattenedRefs(names: Known, rs: seq<Relation>)
    requires forall q :: q in rs ==> RefsIn(names, q)
    ensures forall q :: q in RelationSimplify.Flattened(rs) ==> RefsIn(names, q)
  {
    if rs != [] {
      var last := rs[|rs| - 1];
      assert rs == rs[..|rs| - 1] + [last];
      FlattenedRefs(names, rs[..|rs| - 1]);
      if last.op.UnionAllOp? {
        forall q | q in last.inputs ensures RefsIn(names, q) {
          RefsOfMember(names, last, q);
        }
      }
    }
  }

  lemma AllInputs(names: Known, r: Relation)
    requires RefsIn(names, r)
    ensures forall q :: q in r.inputs ==> RefsIn(names, q)
  {
  }

  lemma PruneRefs(names: Known, r: Relation)
    requires WellFormed(r) && RefsIn(names, r)
    ensures RefsIn(names, EmptyPrune.PruneNode(r))
  {
    hide OpOk;
    AllInputs(names, r);
    RefsOf(names, EmptyOp, [], r.schema);
    if r.op.UnionAllOp? {
      FilterMembers(EmptyPrune.HasRows(), r.inputs);
      RefsOf(names, UnionAllOp, EmptyPrune.NonEmpty(r.inputs), r.schema);
      assert forall q :: q in EmptyPrune.NonEmpty(r.inputs) ==> RefsIn(names, q);
    } else {
      EmptyPrune.PruneNodeShape(r);
    }
  }

  lemma SimplifyRefs(names: Known, r: Relation)
    requires WellFormed(r) && RefsIn(names, r)
    ensures RefsIn(names, RelationSimplify.SimplifyNode(r))
  {
    AllInputs(names, r);
    RefsOf(names, EmptyOp, [], r.schema);
    if r.op.UnionAllOp? {
      FlattenedRefs(names, r.inputs);
      RefsOf(names, UnionAllOp, RelationSimplify.Flattened(r.inputs), r.schema);
    }
  }

  lemma CollapseRefs(names: Known, costs: Costs, r: Relation)
    requires WellFormed(r) && RefsIn(names, r)
    ensures RefsIn(names, ProjectionCollapse.CollapseNode(costs, r))
  {
    hide ProjectionCollapse.Composed, ProjectionCollapse.ProjectorsCost;
    AllInputs(names, r);
    if ProjectionCollapse.IsProjectionProjection(r) {
      AllInputs(names, r.inputs[0]);
      RefsOf(names, ProjectionOp(ProjectionCollapse.Composed(r)), r.inputs[0].inputs, r.schema);
    }
  }

  lemma DeduplicateRefs(names: Known, r: Relation)
    requires RefsIn(names, r)
    ensures RefsIn(names, AggregateRewrites.DeduplicateNode(r))
  {
    AllInputs(names, r);
    var q := AggregateRewrites.DeduplicateNode(r);
    if q != r {
      var middle := q.inputs[0];
      RefsOf(names, middle.op, r.inputs, middle.schema);
      RefsOf(names, q.op, [middle], r.schema);
    }
  }

  lemma NodeStepRefs(names: Known, pass: Pass, r: Relation)
    requires WellFormed(r) && RefsIn(names, r)
    ensures RefsIn(names, NodeStep(pass, r))
  {
    hide OpOk;
    match pass {
      case ConstAggregateFold =>
        AllInputs(names, r);
        RefsOfSame(names, r, AggregateRewrites.FoldNode(r));
      case AggregateDeduplicate => DeduplicateRefs(names, r);
      case SimplifyRelations => SimplifyRefs(names, r);
      case CollapseProjections(costs) => CollapseRefs(names, costs, r);
      case PruneEmpty => PruneRefs(names, r);
    }
  }

  lemma RefsOfSame(names: Known, r: Relation, q: Relation)
    requires RefsIn(names, r) && q.inputs == r.inputs && q.schema == r.schema && (q.op.NamedOp? ==> q.op == r.op)
    ensures RefsIn(names, q)
  {
  }

  lemma {:induction false} BottomUpRefs(names: Known, pass: Pass, r: Relation)
    requires WellFormed(r) && RefsIn(names, r)
    ensures RefsIn(names, BottomUp(pass, r))
    decreases r
  {
    hide OpOk, NodeStep;
    var p := BelowFirst(pass, r);
    forall i | 0 <= i < |r.inputs| ensures RefsIn(names, p.inputs[i]) {
      BottomUpRefs(names, pass, r.inputs[i]);
    }
    NodeStepRefs(names, pass, p);
  }

  lemma {:induction false} AddFilterRefs(names: Known, source: Relation, c: Scalar)
    requires F.Fits(source, c) && RefsIn(names, source)
    ensures RefsIn(names, F.AddFilter(source, c))
    decreases source
  {
    hide OpOk;
    AllInputs(names, source);
    RefsOf(names, FilterOp(c), [source], source.schema);
    if source.op.UnionAllOp? || source.op.MergeOp? || source.op.SortOp? {
      F.SameSchema(source);
      var q := F.AddToAll(source, c);
      forall i | 0 <= i < |source.inputs| ensures RefsIn(names, q.inputs[i]) {
        AddFilterRefs(names, source.inputs[i], c);
      }
    } else if source.op.ProjectionOp? {
      ProjectionRefs(names, source, c);
    } else if source.op.LeftJoinOp? {
      JoinRefs(names, source, c);
    }
  }

  lemma {:induction false} FirstRefs(names: Known, source: Relation, c: Scalar)
    requires WellFormed(source) && source.inputs != [] && F.Fits(source.inputs[0], c)
    requires RefsIn(names, source) && !source.op.NamedOp?
    ensures RefsIn(names, F.AddToFirst(source, c))
    decreases source, 0
  {
    AddFilterRefs(names, source.inputs[0], c);
  }

  lemma RemainRefs(names: Known, source: Relation, rest: Option<Scalar>)
    requires WellFormed(source) && F.PartOk(rest, FieldSet(source.schema)) && RefsIn(names, source)
    ensures RefsIn(names, F.Remain(source, rest))
  {
    if rest.Some? {
      RefsOf(names, FilterOp(rest.value), [source], source.schema);
    }
  }

  lemma {:induction false} ProjectionRefs(names: Known, source: Relation, c: Scalar)
    requires F.Fits(source, c) && RefsIn(names, source) && source.op.ProjectionOp?
    ensures RefsIn(names, F.AddFilter(source, c))
    decreases source, 1
  {
    var fields := F.ProjectionFields(source);
    var split := F.Split(c, fields.Keys);
    RefsOf(names, FilterOp(c), [source], source.schema);
    if split.pushable.Some? {
      F.RebindFits(source, split.pushable.value);
      var pushed := F.Rebind(split.pushable.value, fields);
      FirstRefs(names, source, pushed);
      RemainRefs(names, F.AddToFirst(source, pushed), split.remaining);
    }
  }

  lemma {:induction false} JoinRefs(names: Known, source: Relation, c: Scalar)
    requires F.Fits(source, c) && RefsIn(names, source) && source.op.LeftJoinOp?
    ensures RefsIn(names, F.AddFilter(source, c))
    decreases source, 1
  {
    var split := F.Split(c, FieldSet(source.inputs[0].schema));
    RefsOf(names, FilterOp(c), [source], source.schema);
    if split.pushable.Some? {
      FirstRefs(names, source, split.pushable.value);
      RemainRefs(names, F.AddToFirst(source, split.pushable.value), split.remaining);
    }
  }

  lemma {:induction false} FilterRefs(names: Known, r: Relation)
    requires WellFormed(r) && RefsIn(names, r)
    ensures RefsIn(names, F.Pushdown(r))
    decreases r
  {
    hide OpOk, F.AddFilter;
    var p := F.PushdownInputs(r);
    forall i | 0 <= i < |r.inputs| ensures RefsIn(names, p.inputs[i]) {
      FilterRefs(names, r.inputs[i]);
    }
    if p.op.FilterOp? {
      F.FilterFits(p);
      AddFilterRefs(names, p.inputs[0], p.op.condition);
    }
  }

  lemma EnsureLimitedRefs(names: Known, limit: nat, node: Relation)
    requires RefsIn(names, node)
    ensures RefsIn(names, L.EnsureLimited(limit, node))
  {
    RefsOf(names, LimitOp(limit), [node], node.schema);
  }

  lemma LimitedInputs(names: Known, limit: nat, src: Relation)
    requires RefsIn(names, src) && !src.op.NamedOp?
    ensures RefsIn(names, src.(inputs := L.EnsureAllLimited(limit, src.inputs)))
  {
    forall i | 0 <= i < |src.inputs| ensures RefsIn(names, L.EnsureLimited(limit, src.inputs[i])) {
      EnsureLimitedRefs(names, limit, src.inputs[i]);
    }
  }

  lemma PushLimitRefs(names: Known, r: Relation)
    requires WellFormed(r) && r.op.LimitOp? && |r.inputs| == 1 && WellFormed(r.inputs[0]) && RefsIn(names, r)
    ensures RefsIn(names, L.PushLimit(r.op.limit, r.inputs[0], r))
  {
    hide L.EnsureLimited;
    var src, limit, q := r.inputs[0], r.op.limit, L.PushLimit(r.op.limit, r.inputs[0], r);
    AllInputs(names, r);
    AllInputs(names, src);
    if src.op.UnionAllOp? || src.op.MergeOp? {
      LimitedInputs(names, limit, src);
      RefsOf(names, r.op, [src.(inputs := L.EnsureAllLimited(limit, src.inputs))], r.schema);
    } else if src.op.ProjectionOp? {
      RefsOf(names, LimitOp(limit), [src.inputs[0]], src.inputs[0].schema);
      RefsOf(names, src.op, [L.LimitNode(src.inputs[0], limit)], r.schema);
    } else if q != r {
      RefsOf(names, q.op, src.inputs, r.schema);
    }
  }

  lemma {:induction false} LimitRefs(names: Known, r: Relation)
    requires WellFormed(r) && RefsIn(names, r)
    ensures RefsIn(names, L.Pushdown(r))
    decreases r
  {
    hide OpOk, L.PushLimit;
    var p := L.PushdownInputs(r);
    forall i | 0 <= i < |r.inputs| ensures RefsIn(names, p.inputs[i]) {
      LimitRefs(names, r.inputs[i]);
    }
    if p.op.LimitOp? {
      L.PushLimitOk(p);
      PushLimitRefs(names, p);
    }
  }

  // --- the same for whatever names there are ---

  lemma MapTreeKeeps(f: Scalar -> Scalar, r: Relation)
    ensures KeepsRefs(MapTree(f, r), r)
  {
    forall names: Known | RefsIn(names, r) ensures RefsIn(names, MapTree(f, r)) {
      MapTreeRefs(names, f, r);
    }
  }

  lemma BottomUpKeeps(pass: Pass, r: Relation)
    requires WellFormed(r)
    ensures KeepsRefs(BottomUp(pass, r), r)
  {
    forall names: Known | RefsIn(names, r) ensures RefsIn(names, BottomUp(pass, r)) {
      BottomUpRefs(names, pass, r);
    }
  }

  lemma FilterKeeps(r: Relation)
    requires WellFormed(r)
    ensures KeepsRefs(F.Pushdown(r), r)
  {
    forall names: Known | RefsIn(names, r) ensures RefsIn(names, F.Pushdown(r)) {
      FilterRefs(names, r);
    }
  }

  lemma LimitKeeps(r: Relation)
    requires WellFormed(r)
    ensures KeepsRefs(L.Pushdown(r), r)
  {
    forall names: Known | RefsIn(names, r) ensures RefsIn(names, L.Pushdown(r)) {
      LimitRefs(names, r);
    }
  }

  lemma RecachedKeeps(costs: Costs, q: Relation, r: Relation)
    requires ScalarCache.Recached(costs, q, r)
    ensures KeepsRefs(q, r)
  {
    forall names: Known | RefsIn(names, r) ensures RefsIn(names, q) {
      RecachedRefs(names, costs, q, r);
    }
  }
}
