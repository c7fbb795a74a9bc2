/** Projection and filter over cached scalars: slots are emptied before each row. */
module CachedOperators {
  import opened Wrappers
  import opened Values
  import opened Sequences
  import opened Scalars
  import opened Relations
  import opened ScalarCost
  import opened LazyScalars

  lemma FreshSlots(env: Env, s: Schema, row: Row, slots: map<Scalar, nat>, values: seq<Option<Value>>)
    requires SlotsOk(slots, |values|) && forall i | 0 <= i < |values| :: values[i] == None
    ensures FilledRight(env, s, row, slots, values) && Filled(slots, values) == {}
  {
  }

  /** A projection operation: one plan per projector that some consumer needs. */
  class Projection {
    const scalars: seq<Option<Plan>>
    const context: ScalarContext
    ghost const exprs: seq<Scalar>
    ghost const schema: Schema
    ghost const slots: map<Scalar, nat>

    ghost predicate Valid()
      reads this, context
    {
      && SlotsOk(slots, |context.values|)
      && |scalars| == |exprs|
      && forall i | 0 <= i < |scalars| && scalars[i].Some? :: Plans(scalars[i].value, exprs[i], schema, slots)
    }

    /** Plans all projectors in one scope, then drops those not needed. */
    constructor (projectors: seq<Projector>, source: Schema, needed: set<FieldId>)
      requires ScalarsOk(source, Exprs(projectors))
      ensures Valid() && fresh(context)
      ensures exprs == Exprs(projectors) && schema == source
      ensures |scalars| == |projectors|
      ensures forall i | 0 <= i < |projectors| :: scalars[i].Some? <==> projectors[i].alias in needed
    {
      var scope := new ScalarScope();
      var es := Exprs(projectors);
      assert AllFields(es) <= FieldSet(source) by {
        forall i | 0 <= i < |es| ensures Fields(es[i]) <= FieldSet(source) {
          assert ScalarOk(source, es[i]);
        }
      }
      var plans := ExpressionList(es, source, scope);
      scalars := seq(|projectors|, i requires 0 <= i < |projectors| && |plans| == |projectors| =>
        if projectors[i].alias in needed then Some(plans[i]) else None);
      context := scope.context;
      exprs, schema, slots := es, source, scope.expressions;
    }

    /** What the projection emits for a row: the projected values, null where nothing is needed. */
    ghost function Emitted(env: Env, row: Row): Row
      requires |scalars| == |exprs|
    {
      seq(|scalars|, i requires 0 <= i < |scalars| => if scalars[i].Some? then Eval(env, schema, row, exprs[i]) else Null)
    }

    method Consume(env: Env, row: Row, ghost costs: Costs) returns (record: Row, ghost work: nat)
      requires Valid()
      modifies context
      ensures Valid() && record == Emitted(env, row)
      ensures work <= ScopeCost(costs, exprs)
    {
      hide Plans, Evaluated, FilledRight;
      context.Reset();
      FreshSlots(env, schema, row, slots, context.values);
      record, work := [], 0;
      ghost var start := context.values;
      Nothing(costs, env, schema, row, slots, start, {}, 0);
      for i := 0 to |scalars|
        invariant record == Emitted(env, row)[..i]
        invariant FilledRight(env, schema, row, slots, context.values)
        invariant Evaluated(costs, env, schema, row, slots, start, context.values,
                            CachedInAll(exprs[..i]), FlatAll(costs, exprs[..i]), work)
      {
        assert exprs[..i + 1][..i] == exprs[..i];
        ghost var before := context.values;
        ghost var cost: nat := 0;
        var v := Null;
        if scalars[i].Some? {
          v, cost := EvalPlan(scalars[i].value, row, context, env, exprs[i], schema, slots, costs);
        } else {
          Nothing(costs, env, schema, row, slots, before, {}, 0);
          Weaken(costs, env, schema, row, slots, before, before, {}, 0, 0, CachedIn(exprs[i]), Flat(costs, exprs[i]), 0);
        }
        Then(costs, env, schema, row, slots, start, before, context.values,
             CachedInAll(exprs[..i]), FlatAll(costs, exprs[..i]), work, CachedIn(exprs[i]), Flat(costs, exprs[i]), cost);
        StaysRight(costs, env, schema, row, slots, before, context.values, CachedIn(exprs[i]), Flat(costs, exprs[i]), cost);
        work := work + cost;
        record := record + [v];
      }
      assert exprs[..|exprs|] == exprs;
      WithinEstimate(costs, env, schema, row, slots, start, context.values, exprs, work);
      StillOk(env, schema, row, slots, context.values);
    }
  }

  /** From empty slots, the work on one row is at most the estimated cost of the scope. */
  lemma WithinEstimate(costs: Costs, env: Env, s: Schema, row: Row, slots: map<Scalar, nat>,
                       start: seq<Option<Value>>, end: seq<Option<Value>>, es: seq<Scalar>, work: nat)
    requires SlotsOk(slots, |start|) && Filled(slots, start) == {}
    requires Evaluated(costs, env, s, row, slots, start, end, CachedInAll(es), FlatAll(costs, es), work)
    ensures work <= ScopeCost(costs, es)
  {
    ScopeCostIs(costs, es);
    TotalSubset(costs, Filled(slots, end) - Filled(slots, start), CachedInAll(es));
  }

  lemma StillOk(env: Env, s: Schema, row: Row, slots: map<Scalar, nat>, values: seq<Option<Value>>)
    requires FilledRight(env, s, row, slots, values)
    ensures SlotsOk(slots, |values|)
  {
  }

  /** Projecting every row through the shared slots is the projection of the relational meaning. */
  method ProjectRows(env: Env, projectors: seq<Projector>, source: Schema, rows: seq<Row>, ghost costs: Costs)
    returns (out: seq<Row>, ghost work: nat)
    requires ScalarsOk(source, Exprs(projectors))
    ensures out == Map(ProjectFn(env, source, projectors), rows)
    ensures work <= |rows| * ScopeCost(costs, Exprs(projectors))
  {
    var op := new Projection(projectors, source, FieldSet(Aliases(projectors)));
    out, work := [], 0;
    for i := 0 to |rows|
      invariant op.Valid() && fresh(op) && fresh(op.context)
      invariant out == Map(ProjectFn(env, source, projectors), rows)[..i]
      invariant work <= i * ScopeCost(costs, Exprs(projectors))
    {
      ghost var cost: nat;
      var record;
      record, cost := op.Consume(env, rows[i], costs);
      assert record == ProjectFn(env, source, projectors)(rows[i]) by {
        forall k | 0 <= k < |projectors| ensures op.scalars[k].Some? {
          assert Aliases(projectors)[k] in FieldSet(Aliases(projectors));
        }
      }
      out, work := out + [record], work + cost;
      assert (i + 1) * ScopeCost(costs, Exprs(projectors)) == i * ScopeCost(costs, Exprs(projectors)) + ScopeCost(costs, Exprs(projectors));
    }
  }

  /** Filtering through the shared slots keeps the rows the relational meaning keeps. */
  method FilterRows(env: Env, condition: Scalar, source: Schema, rows: seq<Row>, ghost costs: Costs)
    returns (out: seq<Row>, ghost work: nat)
    requires ScalarOk(source, condition)
    ensures out == Filter(CondFn(env, source, condition), rows)
    ensures work <= |rows| * ScopeCost(costs, [condition])
  {
    var scope := new ScalarScope();
    var plan := PlanScalar(condition, source, scope);
    var context := scope.context;
    ghost var slots := scope.expressions;
    out, work := [], 0;
    for i := 0 to |rows|
      invariant SlotsOk(slots, |context.values|) && fresh(context)
      invariant out == Filter(CondFn(env, source, condition), rows[..i])
      invariant work <= i * ScopeCost(costs, [condition])
    {
      context.Reset();
      FreshSlots(env, source, rows[i], slots, context.values);
      ghost var start := context.values;
      ghost var cost: nat;
      var v;
      v, cost := EvalPlan(plan, rows[i], context, env, condition, source, slots, costs);
      StillOk(env, source, rows[i], slots, context.values);
      OneScalar(costs, condition);
      WithinEstimate(costs, env, source, rows[i], slots, start, context.values, [condition], cost);
      FilterLast(CondFn(env, source, condition), rows, i);
      if IsTrue(v) {
        out := out + [rows[i]];
      }
      work := work + cost;
      assert (i + 1) * ScopeCost(costs, [condition]) == i * ScopeCost(costs, [condition]) + ScopeCost(costs, [condition]);
    }
    assert rows[..|rows|] == rows;
  }

  lemma OneScalar(costs: Costs, e: Scalar)
    ensures CachedInAll([e]) == CachedIn(e) && FlatAll(costs, [e]) == Flat(costs, e)
  {
    assert [e][..0] == [];
  }
}
