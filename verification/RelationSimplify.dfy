/** Removing forwarding projections, constant filters and nested unions. */
module RelationSimplify {
  import opened Values
  import opened Sequences
  import opened Scalars
  import opened Relations
  import opened EmptyPrune
  import opened OptimizerContext

  /** Every column is passed on under its own name, and none is dropped or moved. */
  predicate IsForwarding(ps: seq<Projector>, schema: Schema, source: Schema) {
    && schema == source
    && forall i | 0 <= i < |ps| :: ps[i].expr.Field? && ps[i].expr.id == ps[i].alias
  }

  /** The inputs of a union with nested unions replaced by their inputs. */
  function Flattened(rs: seq<Relation>): seq<Relation> {
    if rs == [] then []
    else Flattened(rs[..|rs| - 1]) + if rs[|rs| - 1].op.UnionAllOp? then rs[|rs| - 1].inputs else [rs[|rs| - 1]]
  }

  /** One step at a node whose inputs are simplified. */
  function SimplifyNode(r: Relation): Relation
    requires WellFormed(r)
  {
    match r.op
    case ProjectionOp(ps) => if IsForwarding(ps, r.schema, r.inputs[0].schema) then r.inputs[0] else r
    case FilterOp(c) => if !c.Const? then r else if c.v == Bool(true) then r.inputs[0] else Empty(r)
    case UnionAllOp => r.(inputs := Flattened(r.inputs))
    case _ => r
  }

  // --- unions ---

  ghost predicate AllUnder(env: Env, rs: seq<Relation>, schema: Schema) {
    forall i :: 0 <= i < |rs| ==> Sound(env, rs[i]) && rs[i].schema == schema
  }

  lemma UnionUnder(env: Env, r: Relation)
    requires Sound(env, r) && r.op.UnionAllOp?
    ensures AllUnder(env, r.inputs, r.schema)
  {
    forall i | 0 <= i < |r.inputs| ensures Sound(env, r.inputs[i]) && r.inputs[i].schema == r.schema {
      UnionInput(r, i);
    }
  }

  lemma UnderOk(env: Env, rs: seq<Relation>, schema: Schema)
    requires AllUnder(env, rs, schema)
    ensures AllOk(rs)
  {
  }

  lemma UnionOf(env: Env, rs: seq<Relation>, schema: Schema)
    requires AllUnder(env, rs, schema) && AllOk(rs) && Distinct(schema)
    ensures var q := Relation(UnionAllOp, rs, schema);
            Sound(env, q) && Denote(env, q) == Flatten(DenoteAll(env, rs))
  {
    var q := Relation(UnionAllOp, rs, schema);
    assert forall i :: 0 <= i < |rs| ==> Schemas(rs)[i] == schema;
    assert WellFormed(q);
    SoundNode(env, q);
    Unfold(env, q);
  }

  lemma DenoteAppend(env: Env, a: seq<Relation>, b: seq<Relation>)
    requires AllOk(a) && AllOk(b)
    ensures AllOk(a + b) && Flatten(DenoteAll(env, a + b)) == Flatten(DenoteAll(env, a)) + Flatten(DenoteAll(env, b))
  {
    hide WellFormed, Denote;
    assert DenoteAll(env, a + b) == DenoteAll(env, a) + DenoteAll(env, b);
    FlattenAppend(DenoteAll(env, a), DenoteAll(env, b));
  }

  lemma DenoteOne(env: Env, r: Relation)
    requires WellFormed(r)
    ensures AllOk([r]) && Flatten(DenoteAll(env, [r])) == Denote(env, r)
  {
    hide WellFormed, Denote;
    DenoteTail(env, [r]);
    assert DenoteAll(env, [r][1..]) == [];
  }

  lemma {:induction false} FlattenedMeaning(env: Env, rs: seq<Relation>, schema: Schema)
    requires AllUnder(env, rs, schema)
    ensures AllUnder(env, Flattened(rs), schema) && AllOk(rs) && AllOk(Flattened(rs))
    ensures Flatten(DenoteAll(env, Flattened(rs))) == Flatten(DenoteAll(env, rs))
  {
    hide Denote, WellFormed, Sound, Flatten, DenoteAll;
    UnderOk(env, rs, schema);
    if rs != [] {
      var before, last := rs[..|rs| - 1], rs[|rs| - 1];
      FlattenedMeaning(env, before, schema);
      assert rs == before + [last];
      DenoteOne(env, last);
      DenoteAppend(env, before, [last]);
      if last.op.UnionAllOp? {
        UnionUnder(env, last);
        UnderOk(env, last.inputs, last.schema);
        Unfold(env, last);
        DenoteAppend(env, Flattened(before), last.inputs);
      } else {
        DenoteAppend(env, Flattened(before), [last]);
      }
    }
  }

  // --- projections and filters ---

  /** A forwarding projection rebuilds each row of its source. */
  lemma ForwardedRow(env: Env, ps: seq<Projector>, s: Schema, row: Row)
    requires Distinct(s) && s == Aliases(ps) && IsForwarding(ps, s, s) && |row| == |s|
    ensures ProjectFn(env, s, ps)(row) == row
  {
    forall i | 0 <= i < |ps| ensures Eval(env, s, row, Exprs(ps)[i]) == row[i] {
      SlotUnique(s, i);
      assert s[i] == ps[i].alias;
    }
  }

  lemma ForwardingMeaning(env: Env, r: Relation)
    requires Sound(env, r) && r.op.ProjectionOp? && |r.inputs| == 1
    requires IsForwarding(r.op.projectors, r.schema, r.inputs[0].schema)
    ensures Replaces(env, r.inputs[0], r)
  {
    var ps, source := r.op.projectors, r.inputs[0];
    assert r.schema == Aliases(ps) && Distinct(r.schema);
    DenoteFits(env, source);
    var rows := Denote(env, source);
    forall i | 0 <= i < |rows| ensures ProjectFn(env, source.schema, ps)(rows[i]) == rows[i] {
      ForwardedRow(env, ps, source.schema, rows[i]);
    }
    assert Map(ProjectFn(env, source.schema, ps), rows) == rows;
    Unfold(env, r);
  }

  lemma ConstFilterMeaning(env: Env, r: Relation)
    requires Sound(env, r) && r.op.FilterOp? && r.op.condition.Const?
    ensures Replaces(env, SimplifyNode(r), r)
  {
    var source, c := r.inputs[0], r.op.condition;
    var rows, p := Denote(env, source), CondFn(env, source.schema, c);
    Unfold(env, r);
    assert Schemas(r.inputs)[0] == source.schema;
    if c.v == Bool(true) {
      FilterAll(p, rows);
    } else {
      FilterNone(p, rows);
      EmptyOk(env, r);
    }
  }

  /** Every simplification step keeps the rows and the columns. */
  lemma SimplifyNodeMeaning(env: Env, r: Relation)
    requires Sound(env, r)
    ensures Replaces(env, SimplifyNode(r), r)
  {
    if r.op.UnionAllOp? {
      UnionUnder(env, r);
      FlattenedMeaning(env, r.inputs, r.schema);
      assert Distinct(r.schema);
      UnionOf(env, Flattened(r.inputs), r.schema);
      UnionOf(env, r.inputs, r.schema);
      assert r == Relation(UnionAllOp, r.inputs, r.schema);
    } else if r.op.FilterOp? && r.op.condition.Const? {
      ConstFilterMeaning(env, r);
    } else if r.op.ProjectionOp? && IsForwarding(r.op.projectors, r.schema, r.inputs[0].schema) {
      ForwardingMeaning(env, r);
    }
  }

  lemma {:induction false} FlattenedOk(rs: seq<Relation>, schema: Schema)
    requires forall i | 0 <= i < |rs| :: WellFormed(rs[i]) && rs[i].schema == schema
    ensures forall i | 0 <= i < |Flattened(rs)| :: WellFormed(Flattened(rs)[i]) && Flattened(rs)[i].schema == schema
  {
    hide OpOk;
    if rs != [] {
      FlattenedOk(rs[..|rs| - 1], schema);
      var last := rs[|rs| - 1];
      if last.op.UnionAllOp? {
        forall i | 0 <= i < |last.inputs| ensures WellFormed(last.inputs[i]) && last.inputs[i].schema == schema {
          UnionInput(last, i);
        }
      }
    }
  }

  lemma SimplifyNodeOk(r: Relation)
    requires WellFormed(r)
    ensures WellFormed(SimplifyNode(r)) && SimplifyNode(r).schema == r.schema
  {
    assert Distinct(r.schema);
    if r.op.UnionAllOp? {
      forall i | 0 <= i < |r.inputs| ensures r.inputs[i].schema == r.schema {
        UnionInput(r, i);
      }
      FlattenedOk(r.inputs, r.schema);
      var qs := Flattened(r.inputs);
      assert forall i | 0 <= i < |qs| :: Schemas(qs)[i] == r.schema;
    } else if r.inputs != [] {
      assert Schemas(r.inputs)[0] == r.inputs[0].schema;
    }
  }

  // --- as the optimizer runs it ---

  lemma FlattenedNext(rs: seq<Relation>, i: nat)
    requires i < |rs|
    ensures Flattened(rs[..i + 1]) == Flattened(rs[..i]) + if rs[i].op.UnionAllOp? then rs[i].inputs else [rs[i]]
  {
    assert rs[..i + 1][..i] == rs[..i];
  }

  lemma NothingFlattened()
    ensures Flattened([]) == []
  {
  }

  lemma UnionStep(r: Relation, sources: seq<Relation>)
    requires WellFormed(r) && r.op.UnionAllOp? && sources == Flattened(r.inputs)
    ensures SimplifyNode(r) == r.(inputs := sources)
  {
  }

  method FlattenUnion(r: Relation, ctx: Context) returns (q: Relation)
    requires WellFormed(r) && r.op.UnionAllOp?
    modifies ctx
    ensures q == SimplifyNode(r)
    ensures (old(ctx.changes) ==> ctx.changes) && (!ctx.changes ==> q == r)
  {
    hide WellFormed, SimplifyNode, Flattened;
    NothingFlattened();
    var sources: seq<Relation> := [];
    for i := 0 to |r.inputs|
      invariant sources == Flattened(r.inputs[..i])
      invariant (old(ctx.changes) ==> ctx.changes) && (!ctx.changes ==> sources == r.inputs[..i])
    {
      FlattenedNext(r.inputs, i);
      if r.inputs[i].op.UnionAllOp? {
        ctx.SetChanges();
        sources := sources + r.inputs[i].inputs;
      } else {
        sources := sources + [r.inputs[i]];
      }
    }
    assert r.inputs[..|r.inputs|] == r.inputs;
    q := r.(inputs := sources);
    UnionStep(r, sources);
  }

  method Simplify(r: Relation, ctx: Context) returns (q: Relation)
    requires WellFormed(r)
    modifies ctx
    ensures q == SimplifyNode(r)
    ensures (old(ctx.changes) ==> ctx.changes) && (!ctx.changes ==> q == r)
  {
    q := r;
    if r.op.UnionAllOp? {
      q := FlattenUnion(r, ctx);
    } else if r.op.ProjectionOp? {
      if IsForwarding(r.op.projectors, r.schema, r.inputs[0].schema) {
        ctx.SetChanges();
        q := r.inputs[0];
      }
    } else if r.op.FilterOp? && r.op.condition.Const? {
      ctx.SetChanges();
      q := if r.op.condition.v == Bool(true) then r.inputs[0] else Empty(r);
    }
  }
}
