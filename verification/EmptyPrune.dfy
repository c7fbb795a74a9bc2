/** Pruning relations that cannot produce rows. */
module EmptyPrune {
  import opened Values
  import opened Sequences
  import opened Scalars
  import opened Relations
  import opened OptimizerContext

  predicate IsEmpty(r: Relation) { r.op.EmptyOp? }

  function Empty(r: Relation): Relation {
    Relation(EmptyOp, [], r.schema)
  }

  function HasRows(): Relation -> bool { (r: Relation) => !IsEmpty(r) }

  function NonEmpty(rs: seq<Relation>): seq<Relation> {
    Filter(HasRows(), rs)
  }

  /** One step at a node whose inputs are pruned. */
  function PruneNode(r: Relation): Relation
    requires WellFormed(r)
  {
    match r.op
    case ProjectionOp(_) => if IsEmpty(r.inputs[0]) then Empty(r) else r
    case GroupOp(_, _) => if IsEmpty(r.inputs[0]) then Empty(r) else r
    case FilterOp(_) => if IsEmpty(r.inputs[0]) then Empty(r) else r
    case SortOp(_, _) => if IsEmpty(r.inputs[0]) then Empty(r) else r
    case MaterializeOp => if IsEmpty(r.inputs[0]) then Empty(r) else r
    case UnionAllOp =>
      var rest := NonEmpty(r.inputs);
      if rest == [] then Empty(r) else if |rest| == 1 then rest[0] else r.(inputs := rest)
    case MergeOp(_, _) =>
      if IsEmpty(r.inputs[0]) && IsEmpty(r.inputs[1]) then Empty(r)
      else if IsEmpty(r.inputs[0]) then r.inputs[1]
      else if IsEmpty(r.inputs[1]) then r.inputs[0]
      else r
    case TopKOp(_, _, k) => if IsEmpty(r.inputs[0]) || k == 0 then Empty(r) else r
    case LimitOp(n) => if IsEmpty(r.inputs[0]) || n == 0 then Empty(r) else r
    case SemiJoinOp(_, _) => if IsEmpty(r.inputs[0]) || IsEmpty(r.inputs[1]) then Empty(r) else r
    case LeftJoinOp(_, _) => if IsEmpty(r.inputs[0]) then Empty(r) else r
    case MarkJoinOp(_, _, _) => if IsEmpty(r.inputs[0]) then Empty(r) else r
    case _ => r
  }

  // --- well-formedness and meaning ---

  lemma EmptyOk(env: Env, r: Relation)
    requires WellFormed(r)
    ensures WellFormed(Empty(r)) && Sound(env, Empty(r)) && Denote(env, Empty(r)) == []
  {
    assert Distinct(r.schema);
  }

  lemma EmptyRows(env: Env, r: Relation)
    requires WellFormed(r) && IsEmpty(r)
    ensures Denote(env, r) == []
  {
  }

  lemma UnionInput(r: Relation, i: nat)
    requires WellFormed(r) && (r.op.UnionAllOp? || r.op.MergeOp?) && i < |r.inputs|
    ensures WellFormed(r.inputs[i]) && r.inputs[i].schema == r.schema
  {
    hide ScalarsOk, Distinct;
    assert Schemas(r.inputs)[i] == r.inputs[i].schema;
    assert r.op.MergeOp? ==> i == 0 || i == 1;
  }

  lemma UnionInputs(r: Relation, q: Relation)
    requires WellFormed(r) && (r.op.UnionAllOp? || r.op.MergeOp?) && q in r.inputs
    ensures WellFormed(q) && q.schema == r.schema
  {
    hide WellFormed;
    var i :| 0 <= i < |r.inputs| && r.inputs[i] == q;
    UnionInput(r, i);
  }

  lemma NonEmptyUnionOk(r: Relation)
    requires WellFormed(r) && r.op.UnionAllOp?
    ensures WellFormed(r.(inputs := NonEmpty(r.inputs)))
  {
    var rest := NonEmpty(r.inputs);
    FilterMembers(HasRows(), r.inputs);
    forall i | 0 <= i < |rest| ensures WellFormed(rest[i]) && Schemas(rest)[i] == r.schema {
      assert rest[i] in rest;
      UnionInputs(r, rest[i]);
    }
  }

  lemma PruneNodeOk(r: Relation)
    requires WellFormed(r)
    ensures WellFormed(PruneNode(r)) && PruneNode(r).schema == r.schema
  {
    hide ScalarOk, ScalarsOk, AggregatesOk;
    assert Distinct(r.schema);
    if r.op.UnionAllOp? {
      NonEmptyUnionOk(r);
      var rest := NonEmpty(r.inputs);
      if |rest| == 1 {
        FilterMembers(HasRows(), r.inputs);
        assert rest[0] in rest;
        UnionInputs(r, rest[0]);
      }
    }
    if r.op.MergeOp? {
      UnionInputs(r, r.inputs[0]);
      UnionInputs(r, r.inputs[1]);
    }
  }

  ghost predicate AllOk(rs: seq<Relation>) {
    forall i :: 0 <= i < |rs| ==> WellFormed(rs[i])
  }

  lemma DenoteTail(env: Env, rs: seq<Relation>)
    requires AllOk(rs) && rs != []
    ensures AllOk(rs[1..]) && DenoteAll(env, rs) == [Denote(env, rs[0])] + DenoteAll(env, rs[1..])
    ensures Flatten(DenoteAll(env, rs)) == Denote(env, rs[0]) + Flatten(DenoteAll(env, rs[1..]))
  {
    assert DenoteAll(env, rs)[1..] == DenoteAll(env, rs[1..]);
  }

  lemma {:induction false} NonEmptyRows(env: Env, rs: seq<Relation>)
    requires AllOk(rs)
    ensures AllOk(NonEmpty(rs)) && Flatten(DenoteAll(env, NonEmpty(rs))) == Flatten(DenoteAll(env, rs))
  {
    hide WellFormed, Denote;
    if rs != [] {
      DenoteTail(env, rs);
      NonEmptyRows(env, rs[1..]);
      if IsEmpty(rs[0]) {
        EmptyRows(env, rs[0]);
        assert NonEmpty(rs) == NonEmpty(rs[1..]);
      } else {
        assert NonEmpty(rs) == [rs[0]] + NonEmpty(rs[1..]);
        assert AllOk(NonEmpty(rs));
        assert NonEmpty(rs)[1..] == NonEmpty(rs[1..]);
        DenoteTail(env, NonEmpty(rs));
      }
    }
  }

  lemma UnionMeaning(env: Env, r: Relation)
    requires Sound(env, r) && r.op.UnionAllOp?
    ensures Replaces(env, PruneNode(r), r)
  {
    var rest := NonEmpty(r.inputs);
    FilterMembers(HasRows(), r.inputs);
    NonEmptyRows(env, r.inputs);
    NonEmptyUnionOk(r);
    Unfold(env, r);
    var q := r.(inputs := rest);
    Unfold(env, q);
    if rest == [] {
      EmptyOk(env, r);
    } else if |rest| == 1 {
      assert rest[0] in rest;
      UnionInputs(r, rest[0]);
      DenoteTail(env, rest);
      assert DenoteAll(env, rest[1..]) == [];
      SoundInput(env, r, rest[0]);
    } else {
      forall i | 0 <= i < |rest| ensures Sound(env, rest[i]) {
        assert rest[i] in rest;
        SoundInput(env, r, rest[i]);
      }
      SoundNode(env, q);
    }
  }

  lemma SoundInput(env: Env, r: Relation, q: Relation)
    requires Sound(env, r) && q in r.inputs
    ensures Sound(env, q)
  {
  }

  lemma MergeMeaning(env: Env, r: Relation)
    requires WellFormed(r) && Sound(env, r) && r.op.MergeOp?
    ensures Replaces(env, PruneNode(r), r)
  {
    hide Sound;
    Unfold(env, r);
    UnionInputs(r, r.inputs[0]);
    UnionInputs(r, r.inputs[1]);
    SoundInput(env, r, r.inputs[0]);
    SoundInput(env, r, r.inputs[1]);
    EmptyOk(env, r);
    if IsEmpty(r.inputs[0]) {
      EmptyRows(env, r.inputs[0]);
    }
    if IsEmpty(r.inputs[1]) {
      EmptyRows(env, r.inputs[1]);
    }
  }

  /** What an operator yields when the input that matters has no rows, or when it asks for none. */
  lemma NoRows(env: Env, op: Op, schema: Schema, ss: seq<Schema>, ins: seq<seq<Row>>)
    requires |ss| == |ins| && ArityIs(op, |ins|)
    requires match op
             case TopKOp(_, _, k) => ins[0] == [] || k == 0
             case LimitOp(n) => ins[0] == [] || n == 0
             case SemiJoinOp(_, _) => ins[0] == [] || ins[1] == []
             case ProjectionOp(_) => ins[0] == []
             case GroupOp(_, _) => ins[0] == []
             case FilterOp(_) => ins[0] == []
             case SortOp(_, _) => ins[0] == []
             case MaterializeOp => ins[0] == []
             case LeftJoinOp(_, _) => ins[0] == []
             case MarkJoinOp(_, _, _) => ins[0] == []
             case _ => false
    ensures OpRows(env, op, schema, ss, ins) == []
  {
    if op.SemiJoinOp? && ins[1] == [] {
      assert MatchSet(ins[1]) == {};
      FilterNone(MatchFn(env, ss[0], op.key, MatchSet(ins[1])), ins[0]);
    }
  }

  /** Every pruning step keeps the rows. */
  lemma PruneNodeMeaning(env: Env, r: Relation)
    requires Sound(env, r)
    ensures Replaces(env, PruneNode(r), r)
  {
    if r.op.UnionAllOp? {
      UnionMeaning(env, r);
    } else if r.op.MergeOp? {
      MergeMeaning(env, r);
    } else if PruneNode(r) != r {
      var ins := DenoteAll(env, r.inputs);
      Unfold(env, r);
      EmptyOk(env, r);
      EmptyInput(env, r, 0);
      if r.op.SemiJoinOp? {
        EmptyInput(env, r, 1);
      }
      NoRows(env, r.op, r.schema, Schemas(r.inputs), ins);
    }
  }

  lemma EmptyInput(env: Env, r: Relation, i: nat)
    requires WellFormed(r) && i < |r.inputs|
    ensures IsEmpty(r.inputs[i]) ==> DenoteAll(env, r.inputs)[i] == []
  {
    if IsEmpty(r.inputs[i]) {
      EmptyRows(env, r.inputs[i]);
    }
  }

  // --- what no pruned tree has ---

  /** No node of the tree can be pruned any further. */
  ghost predicate Normal(r: Relation)
    requires WellFormed(r)
  {
    PruneNode(r) == r && forall i | 0 <= i < |r.inputs| :: Normal(r.inputs[i])
  }

  /** The operators that must count up to something: a top-k of nothing is refused when it is built. */
  predicate NoZeroCount(r: Relation) {
    && !(r.op.TopKOp? && r.op.topCount == 0)
    && !(r.op.LimitOp? && r.op.limit == 0)
    && forall i | 0 <= i < |r.inputs| :: NoZeroCount(r.inputs[i])
  }

  lemma EmptyNormal(r: Relation)
    requires WellFormed(r)
    ensures WellFormed(Empty(r)) && Normal(Empty(r))
  {
    assert Distinct(r.schema);
  }

  /** Outside unions a step leaves the node, empties it or takes one of its inputs. */
  lemma PruneNodeShape(r: Relation)
    requires WellFormed(r) && !r.op.UnionAllOp?
    ensures PruneNode(r) == r || PruneNode(r) == Empty(r) || PruneNode(r) in r.inputs
  {
  }

  lemma PruneUnionNormal(r: Relation)
    requires WellFormed(r) && r.op.UnionAllOp? && forall i | 0 <= i < |r.inputs| :: Normal(r.inputs[i])
    ensures WellFormed(PruneNode(r)) && Normal(PruneNode(r))
  {
    hide OpOk, ArityIs;
    PruneNodeOk(r);
    EmptyNormal(r);
    var rest := NonEmpty(r.inputs);
    FilterMembers(HasRows(), r.inputs);
    FilterAll(HasRows(), rest);
    forall i | 0 <= i < |rest| ensures WellFormed(rest[i]) && Normal(rest[i]) {
      assert rest[i] in rest;
      var k :| 0 <= k < |r.inputs| && r.inputs[k] == rest[i];
    }
  }

  lemma PruneNodeNormal(r: Relation)
    requires WellFormed(r) && forall i | 0 <= i < |r.inputs| :: Normal(r.inputs[i])
    ensures WellFormed(PruneNode(r)) && Normal(PruneNode(r))
  {
    hide PruneNode, OpOk;
    if r.op.UnionAllOp? {
      PruneUnionNormal(r);
    } else {
      PruneNodeOk(r);
      PruneNodeShape(r);
      EmptyNormal(r);
      if PruneNode(r) in r.inputs {
        var k :| 0 <= k < |r.inputs| && r.inputs[k] == PruneNode(r);
      }
    }
  }

  lemma {:induction false} NormalNoZero(r: Relation)
    requires WellFormed(r) && Normal(r)
    ensures NoZeroCount(r)
  {
    forall i | 0 <= i < |r.inputs| ensures NoZeroCount(r.inputs[i]) {
      NormalNoZero(r.inputs[i]);
    }
  }

  // --- as the optimizer runs it ---

  method PruneUnion(r: Relation, ctx: Context) returns (q: Relation)
    requires WellFormed(r) && r.op.UnionAllOp?
    modifies ctx
    ensures q == PruneNode(r)
    ensures (old(ctx.changes) ==> ctx.changes) && (!ctx.changes ==> q == r)
  {
    hide OpOk, WellFormed;
    var rest: seq<Relation> := [];
    for i := 0 to |r.inputs|
      invariant ctx.changes == old(ctx.changes)
      invariant rest == NonEmpty(r.inputs[..i])
      invariant |rest| <= i && (|rest| == i ==> rest == r.inputs[..i])
    {
      FilterLast(HasRows(), r.inputs, i);
      if !IsEmpty(r.inputs[i]) {
        rest := rest + [r.inputs[i]];
      }
    }
    assert r.inputs[..|r.inputs|] == r.inputs;
    if rest == [] {
      ctx.SetChanges();
      return Empty(r);
    }
    if |rest| == 1 {
      ctx.SetChanges();
      return rest[0];
    }
    if |rest| != |r.inputs| {
      ctx.SetChanges();
    }
    q := r.(inputs := rest);
  }

  method PruneMerge(r: Relation, ctx: Context) returns (q: Relation)
    requires WellFormed(r) && r.op.MergeOp?
    modifies ctx
    ensures q == PruneNode(r)
    ensures (old(ctx.changes) ==> ctx.changes) && (!ctx.changes ==> q == r)
  {
    if IsEmpty(r.inputs[0]) && IsEmpty(r.inputs[1]) {
      ctx.SetChanges();
      return Empty(r);
    }
    if IsEmpty(r.inputs[0]) {
      ctx.SetChanges();
      return r.inputs[1];
    }
    if IsEmpty(r.inputs[1]) {
      ctx.SetChanges();
      return r.inputs[0];
    }
    return r;
  }

  /** Prunes one node, and reports whenever that changes it. */
  method Prune(r: Relation, ctx: Context) returns (q: Relation)
    requires WellFormed(r)
    modifies ctx
    ensures q == PruneNode(r)
    ensures (old(ctx.changes) ==> ctx.changes) && (!ctx.changes ==> q == r)
  {
    if r.op.UnionAllOp? {
      q := PruneUnion(r, ctx);
    } else if r.op.MergeOp? {
      q := PruneMerge(r, ctx);
    } else if r.inputs == [] || r.op.AggregateOp? {
      q := r;
    } else {
      q := r;
      if || IsEmpty(r.inputs[0])
         || (r.op.TopKOp? && r.op.topCount == 0)
         || (r.op.LimitOp? && r.op.limit == 0)
         || (r.op.SemiJoinOp? && IsEmpty(r.inputs[1]))
      {
        ctx.SetChanges();
        q := Empty(r);
      }
    }
  }
}
