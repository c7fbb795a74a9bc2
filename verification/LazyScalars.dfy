/** Planned scalars whose cached expressions share memo slots, and their evaluation row by row. */
module LazyScalars {
  import opened Wrappers
  import opened Values
  import opened Scalars
  import opened ScalarCost

  datatype Plan =
    | Identifier(slot: nat)
    | ValuePlan(v: Value)
    | CoalescePlan(args: seq<Plan>)
    | CallPlan(fn: Fn, args: seq<Plan>)
    | Lazy(id: nat, inner: Plan)

  /** The memo slots that the lazy scalars of one operation share. */
  class ScalarContext {
    var values: seq<Option<Value>>

    constructor ()
      ensures values == []
    {
      values := [];
    }

    method AddSlot() returns (id: nat)
      modifies this
      ensures id == old(|values|) && values == old(values) + [None]
    {
      id := |values|;
      values := values + [None];
    }

    method Reset()
      modifies this
      ensures |values| == old(|values|) && forall i | 0 <= i < |values| :: values[i] == None
    {
      for i := 0 to |values|
        invariant |values| == old(|values|) && forall k | 0 <= k < i :: values[k] == None
      {
        values := values[i := None];
      }
    }
  }

  /** Structurally equal expressions share a slot, different ones do not. */
  ghost predicate SlotsOk(slots: map<Scalar, nat>, n: nat) {
    && (forall x | x in slots :: slots[x] < n)
    && (forall x, y | x in slots && y in slots && slots[x] == slots[y] :: x == y)
  }

  class ScalarScope {
    const context: ScalarContext
    var expressions: map<Scalar, nat>

    constructor ()
      ensures Valid() && fresh(context) && expressions == map[] && context.values == []
    {
      context := new ScalarContext();
      expressions := map[];
    }

    ghost predicate Valid()
      reads this, context
    {
      SlotsOk(expressions, |context.values|)
    }

    method SlotOf(scalar: Scalar) returns (id: nat)
      requires Valid()
      modifies this, context
      ensures Valid() && scalar in expressions && expressions[scalar] == id
      ensures expressions == old(expressions)[scalar := id]
      ensures scalar in old(expressions) ==> expressions == old(expressions)
    {
      if scalar in expressions {
        return expressions[scalar];
      }
      id := context.AddSlot();
      expressions := expressions[scalar := id];
    }
  }

  /** A plan computes a scalar, with a slot for each cached expression. */
  ghost predicate Plans(p: Plan, e: Scalar, s: Schema, slots: map<Scalar, nat>)
    decreases e
  {
    match e
    case Field(id, _) => id in s && p == Identifier(Slot(s, id))
    case Const(v, _) => p == ValuePlan(v)
    case Cached(inner, _) => p.Lazy? && inner in slots && slots[inner] == p.id && Plans(p.inner, inner, s, slots)
    case Coalesce(args, _) =>
      p.CoalescePlan? && |p.args| == |args| && forall i | 0 <= i < |args| :: Plans(p.args[i], args[i], s, slots)
    case Call(fn, args, _) =>
      p.CallPlan? && p.fn == fn && |p.args| == |args| && forall i | 0 <= i < |args| :: Plans(p.args[i], args[i], s, slots)
  }

  ghost predicate PlansAll(ps: seq<Plan>, es: seq<Scalar>, s: Schema, slots: map<Scalar, nat>) {
    |ps| == |es| && forall i | 0 <= i < |es| :: Plans(ps[i], es[i], s, slots)
  }

  ghost predicate Grown(old_: map<Scalar, nat>, new_: map<Scalar, nat>) {
    forall x | x in old_ :: x in new_ && new_[x] == old_[x]
  }

  lemma {:induction false} PlansGrow(p: Plan, e: Scalar, s: Schema, slots: map<Scalar, nat>, more: map<Scalar, nat>)
    requires Plans(p, e, s, slots) && Grown(slots, more)
    ensures Plans(p, e, s, more)
    decreases e
  {
    match e {
      case Field(_, _) =>
      case Const(_, _) =>
      case Cached(inner, _) => PlansGrow(p.inner, inner, s, slots, more);
      case Coalesce(args, _) =>
        forall i | 0 <= i < |args| ensures Plans(p.args[i], args[i], s, more) {
          PlansGrow(p.args[i], args[i], s, slots, more);
        }
      case Call(_, args, _) =>
        forall i | 0 <= i < |args| ensures Plans(p.args[i], args[i], s, more) {
          PlansGrow(p.args[i], args[i], s, slots, more);
        }
    }
  }

  lemma PlansAllGrow(ps: seq<Plan>, es: seq<Scalar>, s: Schema, slots: map<Scalar, nat>, more: map<Scalar, nat>)
    requires PlansAll(ps, es, s, slots) && Grown(slots, more)
    ensures PlansAll(ps, es, s, more)
  {
    forall i | 0 <= i < |es| ensures Plans(ps[i], es[i], s, more) {
      PlansGrow(ps[i], es[i], s, slots, more);
    }
  }

  /** Plans a scalar in a scope; every cached expression gets the slot of its structure. */
  method PlanScalar(e: Scalar, s: Schema, scope: ScalarScope) returns (p: Plan)
    requires Fields(e) <= FieldSet(s) && scope.Valid()
    modifies scope, scope.context
    ensures scope.Valid() && Plans(p, e, s, scope.expressions)
    ensures Grown(old(scope.expressions), scope.expressions)
    ensures scope.expressions.Keys == old(scope.expressions).Keys + CachedIn(e)
    decreases e
  {
    match e {
      case Field(id, _) =>
        assert id in FieldSet(s);
        p := Identifier(Slot(s, id));
      case Const(v, _) => p := ValuePlan(v);
      case Cached(inner, _) =>
        var id := scope.SlotOf(inner);
        var q := PlanScalar(inner, s, scope);
        p := Lazy(id, q);
      case Coalesce(args, _) =>
        assert AllFields(args) <= FieldSet(s);
        var qs := ExpressionList(args, s, scope);
        p := CoalescePlan(qs);
      case Call(fn, args, _) =>
        assert AllFields(args) <= FieldSet(s);
        var qs := ExpressionList(args, s, scope);
        p := CallPlan(fn, qs);
    }
  }

  method ExpressionList(es: seq<Scalar>, s: Schema, scope: ScalarScope) returns (ps: seq<Plan>)
    requires AllFields(es) <= FieldSet(s) && scope.Valid()
    modifies scope, scope.context
    ensures scope.Valid() && PlansAll(ps, es, s, scope.expressions)
    ensures Grown(old(scope.expressions), scope.expressions)
    ensures scope.expressions.Keys == old(scope.expressions).Keys + CachedInAll(es)
    decreases es
  {
    hide Plans;
    ps := [];
    for i := 0 to |es|
      invariant scope.Valid() && PlansAll(ps, es[..i], s, scope.expressions)
      invariant Grown(old(scope.expressions), scope.expressions)
      invariant scope.expressions.Keys == old(scope.expressions).Keys + CachedInAll(es[..i])
    {
      assert es[..i + 1][..i] == es[..i];
      assert Fields(es[i]) <= AllFields(es);
      ghost var before := scope.expressions;
      var p := PlanScalar(es[i], s, scope);
      PlansAllGrow(ps, es[..i], s, before, scope.expressions);
      ps := ps + [p];
    }
    assert es[..|es|] == es;
  }

  // --- evaluation ---

  /** Every filled slot holds the value of its expression on the current row. */
  ghost predicate FilledRight(env: Env, s: Schema, row: Row, slots: map<Scalar, nat>, values: seq<Option<Value>>) {
    && SlotsOk(slots, |values|)
    && forall x | x in slots && values[slots[x]].Some? :: values[slots[x]].value == Eval(env, s, row, x)
  }

  ghost function Filled(slots: map<Scalar, nat>, values: seq<Option<Value>>): set<Scalar>
    requires SlotsOk(slots, |values|)
  {
    set x | x in slots && values[slots[x]].Some?
  }

  /** What evaluation did: the slots stay right, only slots of `met` were filled, and the work is paid for. */
  ghost predicate Evaluated(costs: Costs, env: Env, s: Schema, row: Row, slots: map<Scalar, nat>,
                            before: seq<Option<Value>>, after: seq<Option<Value>>, met: set<Scalar>, flat: nat, work: nat)
  {
    && |after| == |before|
    && FilledRight(env, s, row, slots, before)
    && FilledRight(env, s, row, slots, after)
    && Filled(slots, before) <= Filled(slots, after) <= Filled(slots, before) + met
    && work <= flat + Total(costs, Filled(slots, after) - Filled(slots, before))
  }

  lemma Nothing(costs: Costs, env: Env, s: Schema, row: Row, slots: map<Scalar, nat>, values: seq<Option<Value>>, met: set<Scalar>, flat: nat)
    requires FilledRight(env, s, row, slots, values)
    ensures Evaluated(costs, env, s, row, slots, values, values, met, flat, flat)
  {
  }

  /** One evaluation after another. */
  lemma Then(costs: Costs, env: Env, s: Schema, row: Row, slots: map<Scalar, nat>,
             a: seq<Option<Value>>, b: seq<Option<Value>>, c: seq<Option<Value>>,
             met: set<Scalar>, flat: nat, work: nat, met': set<Scalar>, flat': nat, work': nat)
    requires Evaluated(costs, env, s, row, slots, a, b, met, flat, work)
    requires Evaluated(costs, env, s, row, slots, b, c, met', flat', work')
    ensures Evaluated(costs, env, s, row, slots, a, c, met + met', flat + flat', work + work')
  {
    hide Total;
    var x, y, z := Filled(slots, a), Filled(slots, b), Filled(slots, c);
    TotalUnion(costs, y - x, z - y);
    assert (y - x) + (z - y) == z - x;
  }

  /** Filling the slot of an expression once its value is known. */
  lemma Fill(costs: Costs, env: Env, s: Schema, row: Row, slots: map<Scalar, nat>,
             a: seq<Option<Value>>, b: seq<Option<Value>>, x: Scalar, work: nat)
    requires x in slots && SlotsOk(slots, |a|) && x !in Filled(slots, a)
    requires Evaluated(costs, env, s, row, slots, a, b, CachedIn(x), Flat(costs, x), work)
    ensures Evaluated(costs, env, s, row, slots, a, b[slots[x] := Some(Eval(env, s, row, x))],
                      {x} + CachedIn(x), costs.cached, work + costs.cached)
  {
    hide Total, Flat, Eval;
    if x in CachedIn(x) {
      CachedSmaller(x, x);
      assert false;
    }
    var c := b[slots[x] := Some(Eval(env, s, row, x))];
    assert Filled(slots, c) == Filled(slots, b) + {x};
    TotalRemove(costs, Filled(slots, c) - Filled(slots, a), x);
    assert Filled(slots, c) - Filled(slots, a) - {x} == Filled(slots, b) - Filled(slots, a);
  }

  lemma Weaken(costs: Costs, env: Env, s: Schema, row: Row, slots: map<Scalar, nat>,
               a: seq<Option<Value>>, b: seq<Option<Value>>,
               met: set<Scalar>, flat: nat, work: nat, met': set<Scalar>, flat': nat, work': nat)
    requires Evaluated(costs, env, s, row, slots, a, b, met, flat, work)
    requires met <= met' && work' - flat' <= work - flat
    ensures Evaluated(costs, env, s, row, slots, a, b, met', flat', work')
  {
  }

  lemma {:induction false} Prefix(costs: Costs, es: seq<Scalar>, i: nat)
    requires i <= |es|
    ensures FlatAll(costs, es[..i]) <= FlatAll(costs, es) && CachedInAll(es[..i]) <= CachedInAll(es)
    decreases |es|
  {
    if i == |es| {
      assert es[..i] == es;
    } else {
      Prefix(costs, es[..|es| - 1], i);
      assert es[..|es| - 1][..i] == es[..i];
    }
  }

  lemma {:induction false} FirstNonNullIs(vs: seq<Value>, i: nat)
    requires i <= |vs| && forall k | 0 <= k < i :: vs[k] == Null
    ensures i < |vs| && vs[i] != Null ==> FirstNonNull(vs) == vs[i]
    ensures i == |vs| ==> FirstNonNull(vs) == Null
  {
    if i > 0 {
      FirstNonNullIs(vs[1..], i - 1);
    }
  }

  /**
   * Evaluates a plan on a row. The value is the one of the plain scalar whatever the slots already hold,
   * and the work is within the flat cost of the scalar plus the expressions computed for the first time.
   */
  method EvalPlan(p: Plan, row: Row, context: ScalarContext, env: Env,
                  ghost e: Scalar, ghost s: Schema, ghost slots: map<Scalar, nat>, ghost costs: Costs)
    returns (v: Value, ghost work: nat)
    requires Plans(p, e, s, slots) && FilledRight(env, s, row, slots, context.values)
    modifies context
    ensures v == Eval(env, s, row, e)
    ensures Evaluated(costs, env, s, row, slots, old(context.values), context.values, CachedIn(e), Flat(costs, e), work)
    decreases p, 0
  {
    hide FilledRight, Total, Evaluated;
    match p {
      case Identifier(slot) =>
        v, work := if slot < |row| then row[slot] else Null, 0;
        Nothing(costs, env, s, row, slots, context.values, CachedIn(e), 0);
      case ValuePlan(w) =>
        v, work := w, 0;
        Nothing(costs, env, s, row, slots, context.values, CachedIn(e), 0);
      case Lazy(id, inner) =>
        v, work := EvalLazy(id, inner, row, context, env, e, s, slots, costs);
      case CoalescePlan(args) =>
        v, work := EvalFirst(args, row, context, env, e.args, s, slots, costs);
        Weaken(costs, env, s, row, slots, old(context.values), context.values, CachedInAll(e.args), FlatAll(costs, e.args), work,
               CachedIn(e), Flat(costs, e), work + costs.coalesce);
        work := work + costs.coalesce;
        UnfoldArgs(env, s, row, e);
      case CallPlan(fn, args) =>
        var vs: seq<Value>;
        vs, work := EvalArgs(args, row, context, env, e.args, s, slots, costs);
        v := Apply(env, fn, vs);
        Weaken(costs, env, s, row, slots, old(context.values), context.values, CachedInAll(e.args), FlatAll(costs, e.args), work,
               CachedIn(e), Flat(costs, e), work + CallCost(costs, fn, e.args));
        work := work + CallCost(costs, fn, e.args);
        UnfoldArgs(env, s, row, e);
    }
  }

  /** A lazy scalar computes its value on first use and then reads the slot. */
  method EvalLazy(id: nat, inner: Plan, row: Row, context: ScalarContext, env: Env,
                  ghost e: Scalar, ghost s: Schema, ghost slots: map<Scalar, nat>, ghost costs: Costs)
    returns (v: Value, ghost work: nat)
    requires Plans(Lazy(id, inner), e, s, slots) && FilledRight(env, s, row, slots, context.values)
    modifies context
    ensures v == Eval(env, s, row, e)
    ensures Evaluated(costs, env, s, row, slots, old(context.values), context.values, CachedIn(e), Flat(costs, e), work)
    decreases inner, 1
  {
    hide Total, Evaluated;
    work := 0;
    if context.values[id] == None {
      v, work := EvalPlan(inner, row, context, env, e.inner, s, slots, costs);
      StaysRight(costs, env, s, row, slots, old(context.values), context.values, CachedIn(e.inner), Flat(costs, e.inner), work);
      Fill(costs, env, s, row, slots, old(context.values), context.values, e.inner, work);
      context.values := context.values[id := Some(v)];
      work := work + costs.cached;
    } else {
      Nothing(costs, env, s, row, slots, context.values, CachedIn(e), costs.cached);
      work := costs.cached;
    }
    v := context.values[id].value;
  }

  method EvalFirst(ps: seq<Plan>, row: Row, context: ScalarContext, env: Env,
                   ghost es: seq<Scalar>, ghost s: Schema, ghost slots: map<Scalar, nat>, ghost costs: Costs)
    returns (v: Value, ghost work: nat)
    requires PlansAll(ps, es, s, slots) && FilledRight(env, s, row, slots, context.values)
    modifies context
    ensures v == FirstNonNull(EvalAll(env, s, row, es))
    ensures Evaluated(costs, env, s, row, slots, old(context.values), context.values, CachedInAll(es), FlatAll(costs, es), work)
    decreases ps
  {
    hide FilledRight, Total, Evaluated, Plans;
    work := 0;
    ghost var vs := EvalAll(env, s, row, es);
    Nothing(costs, env, s, row, slots, context.values, {}, 0);
    for i := 0 to |ps|
      invariant forall k | 0 <= k < i :: vs[k] == Null
      invariant FilledRight(env, s, row, slots, context.values)
      invariant Evaluated(costs, env, s, row, slots, old(context.values), context.values,
                          CachedInAll(es[..i]), FlatAll(costs, es[..i]), work)
    {
      assert es[..i + 1][..i] == es[..i];
      ghost var before := context.values;
      ghost var cost: nat;
      v, cost := EvalPlan(ps[i], row, context, env, es[i], s, slots, costs);
      Then(costs, env, s, row, slots, old(context.values), before, context.values,
           CachedInAll(es[..i]), FlatAll(costs, es[..i]), work, CachedIn(es[i]), Flat(costs, es[i]), cost);
      work := work + cost;
      if v != Null {
        FirstNonNullIs(vs, i);
        Prefix(costs, es, i + 1);
        Weaken(costs, env, s, row, slots, old(context.values), context.values, CachedInAll(es[..i + 1]),
               FlatAll(costs, es[..i + 1]), work, CachedInAll(es), FlatAll(costs, es), work);
        return;
      }
      StaysRight(costs, env, s, row, slots, before, context.values, CachedIn(es[i]), Flat(costs, es[i]), cost);
    }
    assert es[..|es|] == es;
    FirstNonNullIs(vs, |vs|);
    v := Null;
  }

  lemma StaysRight(costs: Costs, env: Env, s: Schema, row: Row, slots: map<Scalar, nat>,
                   a: seq<Option<Value>>, b: seq<Option<Value>>, met: set<Scalar>, flat: nat, work: nat)
    requires Evaluated(costs, env, s, row, slots, a, b, met, flat, work)
    ensures |b| == |a| && FilledRight(env, s, row, slots, b)
  {
  }

  method EvalArgs(ps: seq<Plan>, row: Row, context: ScalarContext, env: Env,
                  ghost es: seq<Scalar>, ghost s: Schema, ghost slots: map<Scalar, nat>, ghost costs: Costs)
    returns (vs: seq<Value>, ghost work: nat)
    requires PlansAll(ps, es, s, slots) && FilledRight(env, s, row, slots, context.values)
    modifies context
    ensures vs == EvalAll(env, s, row, es)
    ensures Evaluated(costs, env, s, row, slots, old(context.values), context.values, CachedInAll(es), FlatAll(costs, es), work)
    decreases ps
  {
    hide FilledRight, Total, Evaluated, Plans;
    vs, work := [], 0;
    Nothing(costs, env, s, row, slots, context.values, {}, 0);
    for i := 0 to |ps|
      invariant vs == EvalAll(env, s, row, es[..i])
      invariant FilledRight(env, s, row, slots, context.values)
      invariant Evaluated(costs, env, s, row, slots, old(context.values), context.values,
                          CachedInAll(es[..i]), FlatAll(costs, es[..i]), work)
    {
      assert es[..i + 1][..i] == es[..i];
      ghost var before := context.values;
      ghost var cost: nat;
      var v;
      v, cost := EvalPlan(ps[i], row, context, env, es[i], s, slots, costs);
      Then(costs, env, s, row, slots, old(context.values), before, context.values,
           CachedInAll(es[..i]), FlatAll(costs, es[..i]), work, CachedIn(es[i]), Flat(costs, es[i]), cost);
      StaysRight(costs, env, s, row, slots, before, context.values, CachedIn(es[i]), Flat(costs, es[i]), cost);
      work := work + cost;
      vs := vs + [v];
    }
    assert es[..|es|] == es;
  }
}
