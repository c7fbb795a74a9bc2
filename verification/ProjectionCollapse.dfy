/** Composing a projection with the projection below it. */
module ProjectionCollapse {
  import opened Values
  import opened Sequences
  import opened Scalars
  import opened Relations
  import opened ScalarCost
  import opened OptimizerContext

  // --- simultaneous substitution ---

  /** Every field replaced by the scalar computed for it, all at once. */
  function Collapse(e: Scalar, inner: map<FieldId, Scalar>): Scalar
    requires Fields(e) <= inner.Keys
    decreases e
  {
    match e
    case Field(id, _) => inner[id]
    case Const(_, _) => e
    case Coalesce(args, ty) => Coalesce(CollapseAll(args, inner), ty)
    case Call(fn, args, ty) => Call(fn, CollapseAll(args, inner), ty)
    case Cached(x, ty) => Cached(Collapse(x, inner), ty)
  }

  function CollapseAll(es: seq<Scalar>, inner: map<FieldId, Scalar>): (qs: seq<Scalar>)
    requires AllFields(es) <= inner.Keys
    ensures |qs| == |es|
    ensures forall i | 0 <= i < |es| :: Fields(es[i]) <= inner.Keys && qs[i] == Collapse(es[i], inner)
    decreases es
  {
    assert forall i | 0 <= i < |es| :: Fields(es[i]) <= AllFields(es);
    seq(|es|, i requires 0 <= i < |es| => Collapse(es[i], inner))
  }

  /** The fields of one row are what the inner scalars evaluate to on another. */
  ghost predicate Computes(env: Env, s: Schema, row: Row, inner: map<FieldId, Scalar>, t: Schema, out: Row) {
    forall f | f in inner :: Eval(env, s, row, inner[f]) == At(t, out, f)
  }

  /** Evaluating a collapsed scalar on the input is evaluating the outer one on the inner projection's row. */
  lemma {:induction false} CollapseMeaning(env: Env, s: Schema, row: Row, t: Schema, out: Row, e: Scalar, inner: map<FieldId, Scalar>)
    requires Fields(e) <= inner.Keys && Computes(env, s, row, inner, t, out)
    ensures Eval(env, s, row, Collapse(e, inner)) == Eval(env, t, out, e)
    decreases e, 1
  {
    match e {
      case Field(_, _) =>
      case Const(_, _) =>
      case Coalesce(args, _) => CollapseAllMeaning(env, s, row, t, out, args, inner);
        assert EvalAll(env, t, out, args) == seq(|args|, i requires 0 <= i < |args| => Eval(env, t, out, args[i]));
        var qs := CollapseAll(args, inner);
        assert EvalAll(env, s, row, qs) == seq(|qs|, i requires 0 <= i < |qs| => Eval(env, s, row, qs[i]));
      case Call(_, args, _) => CollapseAllMeaning(env, s, row, t, out, args, inner);
        assert EvalAll(env, t, out, args) == seq(|args|, i requires 0 <= i < |args| => Eval(env, t, out, args[i]));
        var qs := CollapseAll(args, inner);
        assert EvalAll(env, s, row, qs) == seq(|qs|, i requires 0 <= i < |qs| => Eval(env, s, row, qs[i]));
      case Cached(x, _) => CollapseMeaning(env, s, row, t, out, x, inner);
    }
  }

  lemma {:induction false} CollapseAllMeaning(env: Env, s: Schema, row: Row, t: Schema, out: Row,
                                              es: seq<Scalar>, inner: map<FieldId, Scalar>)
    requires AllFields(es) <= inner.Keys && Computes(env, s, row, inner, t, out)
    ensures EvalAll(env, s, row, CollapseAll(es, inner)) == EvalAll(env, t, out, es)
    decreases es, 0
  {
    var qs := CollapseAll(es, inner);
    forall i | 0 <= i < |es| ensures Eval(env, s, row, qs[i]) == Eval(env, t, out, es[i]) {
      CollapseMeaning(env, s, row, t, out, es[i], inner);
    }
  }

  ghost predicate InnersFit(s: Schema, inner: map<FieldId, Scalar>) {
    forall f | f in inner :: ScalarOk(s, inner[f])
  }

  lemma {:induction false} CollapseFits(s: Schema, e: Scalar, inner: map<FieldId, Scalar>)
    requires Fields(e) <= inner.Keys && ArityOk(e) && InnersFit(s, inner)
    ensures ScalarOk(s, Collapse(e, inner))
    decreases e
  {
    match e {
      case Field(_, _) =>
      case Const(_, _) =>
      case Cached(x, _) => CollapseFits(s, x, inner);
      case Coalesce(args, _) =>
        forall i | 0 <= i < |args| ensures ScalarOk(s, CollapseAll(args, inner)[i]) {
          assert Fields(args[i]) <= AllFields(args);
          CollapseFits(s, args[i], inner);
        }
      case Call(_, args, _) =>
        forall i | 0 <= i < |args| ensures ScalarOk(s, CollapseAll(args, inner)[i]) {
          assert Fields(args[i]) <= AllFields(args);
          CollapseFits(s, args[i], inner);
        }
    }
  }

  // --- cloning through a table of finished parts ---

  /** A node inside a scalar, as the path from its root: it stands for the node's address. */
  type Ptr = seq<nat>

  /** The table holds the finished clones of the arguments from `from` on, beside what it held before. */
  ghost predicate Holding(table: map<Ptr, Scalar>, base: map<Ptr, Scalar>, at: Ptr, clones: seq<Scalar>, from: nat) {
    && (forall p | p in base :: p in table && table[p] == base[p])
    && (forall k | from <= k < |clones| :: at + [k] in table && table[at + [k]] == clones[k])
    && (forall p | p in table :: p in base || exists k | from <= k < |clones| :: p == at + [k])
  }

  /** Nothing is in the table for a node or any part of it. */
  ghost predicate Absent(table: map<Ptr, Scalar>, at: Ptr) {
    forall p | p in table :: !(at <= p)
  }

  lemma LongerPath(at: Ptr, k: nat, p: Ptr)
    ensures at + [k] <= p ==> at <= p
  {
  }

  lemma NextAbsent(table: map<Ptr, Scalar>, base: map<Ptr, Scalar>, at: Ptr, clones: seq<Scalar>)
    requires Holding(table, base, at, clones, 0) && Absent(base, at)
    ensures Absent(table, at + [|clones|])
  {
    forall p | p in table ensures !(at + [|clones|] <= p) {
      if p in base {
        LongerPath(at, |clones|, p);
      } else {
        var k :| 0 <= k < |clones| && p == at + [k];
        assert p[|at|] == k && (at + [|clones|])[|at|] == |clones|;
      }
    }
  }

  lemma NextHolding(table: map<Ptr, Scalar>, base: map<Ptr, Scalar>, at: Ptr, clones: seq<Scalar>, x: Scalar)
    requires Holding(table, base, at, clones, 0) && Absent(base, at)
    ensures Holding(table[at + [|clones|] := x], base, at, clones + [x], 0)
  {
    var after, more := table[at + [|clones|] := x], clones + [x];
    assert at <= at + [|clones|];
    forall k | 0 <= k < |more| ensures at + [k] in after && after[at + [k]] == more[k] {
      assert (at + [k])[|at|] == k && (at + [|clones|])[|at|] == |clones|;
    }
    forall p | p in after ensures p in base || exists k | 0 <= k < |more| :: p == at + [k] {
      if p !in base {
        if p == at + [|clones|] {
        } else {
          var k :| 0 <= k < |clones| && p == at + [k];
        }
      }
    }
  }

  lemma NoneYet(base: map<Ptr, Scalar>, at: Ptr)
    ensures Holding(base, base, at, [], 0)
  {
  }

  lemma TakeHolding(table: map<Ptr, Scalar>, base: map<Ptr, Scalar>, at: Ptr, clones: seq<Scalar>, from: nat)
    requires Holding(table, base, at, clones, from) && Absent(base, at) && from < |clones|
    ensures Holding(table - {at + [from]}, base, at, clones, from + 1)
  {
    assert at <= at + [from];
    forall k | from + 1 <= k < |clones| ensures at + [k] in table - {at + [from]} {
      assert (at + [k])[|at|] == k && (at + [from])[|at|] == from;
    }
    forall p | p in table - {at + [from]} ensures p in base || exists k | from + 1 <= k < |clones| :: p == at + [k] {
      if p !in base {
        var k :| from <= k < |clones| && p == at + [k];
        assert k != from;
      }
    }
  }

  lemma TookAll(table: map<Ptr, Scalar>, base: map<Ptr, Scalar>, at: Ptr, clones: seq<Scalar>)
    requires Holding(table, base, at, clones, |clones|)
    ensures table == base
  {
  }

  /** What a walk leaves for a scalar: a copy, or the collapsed scalar when fields are replaced. */
  function Cloned(e: Scalar, collapsing: bool, inner: map<FieldId, Scalar>): Scalar
    requires collapsing ==> Fields(e) <= inner.Keys
  {
    if collapsing then Collapse(e, inner) else e
  }

  /**
   * Clones scalars bottom-up through a table keyed by node address. A collapser replaces fields by
   * clones of inner scalars that it makes with a plain cloner; a plain cloner copies them.
   */
  class CloneScalarView {
    const cloner: CloneScalarView?
    const inner: map<FieldId, Scalar>
    var scalars: map<Ptr, Scalar>

    constructor Plain()
      ensures cloner == null && scalars == map[]
    {
      cloner, inner, scalars := null, map[], map[];
    }

    constructor Collapser(innerScalars: map<FieldId, Scalar>)
      ensures cloner != null && fresh(cloner) && Ready() && inner == innerScalars && scalars == map[]
    {
      cloner := new CloneScalarView.Plain();
      inner, scalars := innerScalars, map[];
    }

    /** The cloner of a collapser is plain, and its table is empty between clones. */
    ghost predicate Ready()
      reads this, cloner
    {
      cloner != null ==> cloner != this && cloner.cloner == null && cloner.scalars == map[]
    }

    /** Every entry is new when it is made: neither check on the table can fail. */
    method Visit(s: Scalar, at: Ptr)
      requires Ready() && Absent(scalars, at) && (cloner != null ==> Fields(s) <= inner.Keys)
      modifies this`scalars, if cloner == null then {} else {cloner}
      ensures Ready() && scalars == old(scalars)[at := Cloned(s, cloner != null, inner)]
      decreases cloner != null, s, 1
    {
      var r: Scalar;
      match s {
        case Field(id, _) =>
          if cloner == null {
            r := s;
          } else {
            r := cloner.Clone(inner[id]);
          }
        case Const(_, _) => r := s;
        case Cached(x, ty) =>
          Visit(x, at + [0]);
          ghost var clones := [Cloned(x, cloner != null, inner)];
          assert [] + clones == clones;
          NextHolding(old(scalars), old(scalars), at, [], clones[0]);
          r := Cached(scalars[at + [0]], ty);
          TakeHolding(scalars, old(scalars), at, clones, 0);
          scalars := scalars - {at + [0]};
          TookAll(scalars, old(scalars), at, clones);
        case Coalesce(args, ty) =>
          var clones := VisitArgs(args, at);
          r := Coalesce(clones, ty);
        case Call(fn, args, ty) =>
          var clones := VisitArgs(args, at);
          r := Call(fn, clones, ty);
      }
      assert at !in scalars;
      scalars := scalars[at := r];
    }

    /** Visits the arguments, then takes their clones out of the table again. */
    method VisitArgs(args: seq<Scalar>, at: Ptr) returns (clones: seq<Scalar>)
      requires Ready() && Absent(scalars, at) && (cloner != null ==> AllFields(args) <= inner.Keys)
      modifies this`scalars, if cloner == null then {} else {cloner}
      ensures Ready() && scalars == old(scalars)
      ensures clones == if cloner != null then CollapseAll(args, inner) else args
      decreases cloner != null, args, 0
    {
      hide Holding, Absent, Collapse, Fields;
      ghost var all := if cloner != null then CollapseAll(args, inner) else args;
      NoneYet(scalars, at);
      for i := 0 to |args|
        invariant Ready() && Holding(scalars, old(scalars), at, all[..i], 0)
      {
        NextAbsent(scalars, old(scalars), at, all[..i]);
        NextHolding(scalars, old(scalars), at, all[..i], all[i]);
        assert all[..i] + [all[i]] == all[..i + 1];
        Visit(args[i], at + [i]);
      }
      assert all[..|args|] == all;
      clones := TakeArgs(|args|, at, old(scalars), all);
    }

    /** Takes the clones of the arguments of a node, in order. */
    method TakeArgs(n: nat, at: Ptr, ghost base: map<Ptr, Scalar>, ghost all: seq<Scalar>) returns (clones: seq<Scalar>)
      requires Ready() && |all| == n && Holding(scalars, base, at, all, 0) && Absent(base, at)
      modifies this`scalars
      ensures Ready() && scalars == base && clones == all
    {
      clones := [];
      for i := 0 to n
        invariant Ready() && clones == all[..i] && Holding(scalars, base, at, all, i)
      {
        TakeHolding(scalars, base, at, all, i);
        clones := clones + [scalars[at + [i]]];
        scalars := scalars - {at + [i]};
      }
      TookAll(scalars, base, at, all);
    }

    /** Clones one scalar; the table is empty again afterwards, so the same scalar may be cloned many times. */
    method Clone(s: Scalar) returns (r: Scalar)
      requires Ready() && scalars == map[] && (cloner != null ==> Fields(s) <= inner.Keys)
      modifies this`scalars, if cloner == null then {} else {cloner}
      ensures Ready() && scalars == map[] && r == Cloned(s, cloner != null, inner)
      decreases cloner != null, s, 2
    {
      Visit(s, []);
      r := scalars[[]];
      scalars := scalars - {[]};
    }
  }

  // --- the pass ---

  /** The scalar an inner projection computes for each of its columns. */
  function InnerScalars(ps: seq<Projector>): (inner: map<FieldId, Scalar>)
    ensures inner.Keys == FieldSet(Aliases(ps))
    ensures forall f | f in inner :: f in Aliases(ps) && inner[f] == ps[Slot(Aliases(ps), f)].expr
  {
    map f | f in FieldSet(Aliases(ps)) :: ps[Slot(Aliases(ps), f)].expr
  }

  function CollapsedProjectors(ps: seq<Projector>, inner: map<FieldId, Scalar>): (qs: seq<Projector>)
    requires AllFields(Exprs(ps)) <= inner.Keys
    ensures |qs| == |ps|
  {
    var es := CollapseAll(Exprs(ps), inner);
    seq(|ps|, i requires 0 <= i < |ps| => Projector(ps[i].alias, es[i]))
  }

  lemma OuterFields(r: Relation)
    requires WellFormed(r) && r.op.ProjectionOp?
    ensures |r.inputs| == 1 && WellFormed(r.inputs[0]) && AllFields(Exprs(r.op.projectors)) <= FieldSet(r.inputs[0].schema)
  {
    var es := Exprs(r.op.projectors);
    assert Schemas(r.inputs)[0] == r.inputs[0].schema;
    forall i | 0 <= i < |es| ensures Fields(es[i]) <= FieldSet(r.inputs[0].schema) {
      assert ScalarOk(r.inputs[0].schema, es[i]);
    }
  }

  lemma InnerColumns(r: Relation)
    requires WellFormed(r) && r.op.ProjectionOp?
    ensures r.schema == Aliases(r.op.projectors) && |r.inputs| == 1
  {
  }

  predicate IsProjectionProjection(r: Relation)
    requires WellFormed(r)
  {
    r.op.ProjectionOp? && |r.inputs| == 1 && r.inputs[0].op.ProjectionOp?
  }

  /** The two projections in one. */
  function Composed(r: Relation): (qs: seq<Projector>)
    requires WellFormed(r) && IsProjectionProjection(r)
  {
    OuterFields(r);
    InnerColumns(r.inputs[0]);
    CollapsedProjectors(r.op.projectors, InnerScalars(r.inputs[0].op.projectors))
  }

  function ProjectorsCost(costs: Costs, ps: seq<Projector>): nat {
    ScopeCost(costs, Exprs(ps))
  }

  /** One step at a projection: composed unless that would cost more than the two and the row between them. */
  function CollapseNode(costs: Costs, r: Relation): Relation
    requires WellFormed(r)
  {
    if !IsProjectionProjection(r) then r
    else
      var inner := r.inputs[0];
      var composed := Composed(r);
      if ProjectorsCost(costs, composed) >
         ProjectorsCost(costs, inner.op.projectors) + ProjectorsCost(costs, r.op.projectors) + costs.projection
      then r
      else Relation(ProjectionOp(composed), inner.inputs, r.schema)
  }

  lemma ComposedOk(r: Relation)
    requires WellFormed(r) && IsProjectionProjection(r)
    ensures Aliases(Composed(r)) == Aliases(r.op.projectors)
    ensures |r.inputs[0].inputs| == 1 && ScalarsOk(r.inputs[0].inputs[0].schema, Exprs(Composed(r)))
  {
    OuterFields(r);
    InnerColumns(r);
    InnerColumns(r.inputs[0]);
    var inner, s := r.inputs[0], r.inputs[0].inputs[0].schema;
    assert Schemas(r.inputs)[0] == inner.schema && Schemas(inner.inputs)[0] == s;
    var m := InnerScalars(inner.op.projectors);
    forall f | f in m ensures ScalarOk(s, m[f]) {
      assert ScalarOk(s, Exprs(inner.op.projectors)[Slot(Aliases(inner.op.projectors), f)]);
    }
    forall i | 0 <= i < |r.op.projectors| ensures ScalarOk(s, Exprs(Composed(r))[i]) {
      assert ScalarOk(inner.schema, Exprs(r.op.projectors)[i]);
      CollapseFits(s, r.op.projectors[i].expr, m);
    }
  }

  lemma CollapseNodeOk(costs: Costs, r: Relation)
    requires WellFormed(r)
    ensures WellFormed(CollapseNode(costs, r)) && CollapseNode(costs, r).schema == r.schema
  {
    if IsProjectionProjection(r) {
      ComposedOk(r);
      InnerColumns(r);
      ProjectionWellFormed(Composed(r), r.inputs[0], r.schema);
    }
  }

  lemma ProjectionWellFormed(ps: seq<Projector>, inner: Relation, schema: Schema)
    requires WellFormed(inner) && |inner.inputs| == 1 && Distinct(schema) && schema == Aliases(ps)
    requires ScalarsOk(inner.inputs[0].schema, Exprs(ps))
    ensures WellFormed(Relation(ProjectionOp(ps), inner.inputs, schema))
  {
    assert Schemas(inner.inputs)[0] == inner.inputs[0].schema;
  }

  /** Projecting twice row by row is projecting once by the composed scalars. */
  lemma ComposedRow(env: Env, s: Schema, row: Row, ps: seq<Projector>, qs: seq<Projector>)
    requires AllFields(Exprs(qs)) <= FieldSet(Aliases(ps))
    ensures ProjectFn(env, s, CollapsedProjectors(qs, InnerScalars(ps)))(row) ==
            ProjectFn(env, Aliases(ps), qs)(ProjectFn(env, s, ps)(row))
  {
    var t, m, out := Aliases(ps), InnerScalars(ps), ProjectFn(env, s, ps)(row);
    forall f | f in m ensures Eval(env, s, row, m[f]) == At(t, out, f) {
      EvalAt(env, s, row, Exprs(ps), Slot(t, f));
    }
    CollapseAllMeaning(env, s, row, t, out, Exprs(qs), m);
    assert Exprs(CollapsedProjectors(qs, m)) == CollapseAll(Exprs(qs), m);
  }

  lemma ComposedRows(env: Env, s: Schema, rows: seq<Row>, ps: seq<Projector>, qs: seq<Projector>)
    requires AllFields(Exprs(qs)) <= FieldSet(Aliases(ps))
    ensures Map(ProjectFn(env, s, CollapsedProjectors(qs, InnerScalars(ps))), rows) ==
            Map(ProjectFn(env, Aliases(ps), qs), Map(ProjectFn(env, s, ps), rows))
  {
    forall i | 0 <= i < |rows|
      ensures ProjectFn(env, s, CollapsedProjectors(qs, InnerScalars(ps)))(rows[i]) ==
              ProjectFn(env, Aliases(ps), qs)(ProjectFn(env, s, ps)(rows[i]))
    {
      ComposedRow(env, s, rows[i], ps, qs);
    }
  }

  lemma ProjectionRows(env: Env, r: Relation)
    requires WellFormed(r) && r.op.ProjectionOp?
    ensures |r.inputs| == 1 && WellFormed(r.inputs[0])
    ensures Denote(env, r) == Map(ProjectFn(env, r.inputs[0].schema, r.op.projectors), Denote(env, r.inputs[0]))
  {
    Unfold(env, r);
  }

  lemma CollapseNodeMeaning(env: Env, costs: Costs, r: Relation)
    requires Sound(env, r)
    ensures Replaces(env, CollapseNode(costs, r), r)
  {
    var q := CollapseNode(costs, r);
    CollapseNodeOk(costs, r);
    if q != r {
      var inner, ps := r.inputs[0], r.op.projectors;
      OuterFields(r);
      InnerColumns(inner);
      ComposedRows(env, inner.inputs[0].schema, Denote(env, inner.inputs[0]), inner.op.projectors, ps);
      ProjectionRows(env, r);
      ProjectionRows(env, inner);
      ProjectionRows(env, q);
      assert Sound(env, inner);
      SoundNode(env, q);
    }
  }

  // --- as the optimizer runs it ---

  /** Collapses the scalars of an outer projection one by one, reusing inner scalars as often as they are read. */
  method CollapseProjectors(ps: seq<Projector>, inner: map<FieldId, Scalar>) returns (qs: seq<Projector>)
    requires AllFields(Exprs(ps)) <= inner.Keys
    ensures qs == CollapsedProjectors(ps, inner)
  {
    var collapser := new CloneScalarView.Collapser(inner);
    qs := [];
    ghost var all := CollapsedProjectors(ps, inner);
    for i := 0 to |ps|
      invariant collapser.Ready() && collapser.scalars == map[] && fresh(collapser) && fresh(collapser.cloner)
      invariant collapser.cloner != null && collapser.inner == inner
      invariant qs == all[..i]
    {
      assert Exprs(ps)[i] == ps[i].expr && Fields(Exprs(ps)[i]) <= AllFields(Exprs(ps));
      var expr := collapser.Clone(ps[i].expr);
      qs := qs + [Projector(ps[i].alias, expr)];
    }
  }

  method Optimize(costs: Costs, r: Relation, ctx: Context) returns (q: Relation)
    requires WellFormed(r)
    modifies ctx
    ensures q == CollapseNode(costs, r)
    ensures (old(ctx.changes) ==> ctx.changes) && (!ctx.changes ==> q == r)
  {
    if !IsProjectionProjection(r) {
      return r;
    }
    var inner := r.inputs[0];
    OuterFields(r);
    InnerColumns(inner);
    var innerCost := EstimateScope(costs, Exprs(inner.op.projectors));
    var outerCost := EstimateScope(costs, Exprs(r.op.projectors));
    var collapsed := CollapseProjectors(r.op.projectors, InnerScalars(inner.op.projectors));
    var collapsedCost := EstimateScope(costs, Exprs(collapsed));
    if collapsedCost > innerCost + outerCost + costs.projection {
      return r;
    }
    ctx.SetChanges();
    q := Relation(ProjectionOp(collapsed), inner.inputs, r.schema);
  }
}
