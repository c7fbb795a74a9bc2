/** The pass that wraps repeated expressions in cache nodes when that is estimated to be cheaper. */
module ScalarCache {
  import opened Values
  import opened Sequences
  import opened Scalars
  import opened Relations
  import opened ScalarCost
  import opened ScalarSimplify
  import opened ScalarRewrites
  import opened ScalarPasses
  import opened OptimizerContext
  import S = Sorting

  // --- stripping ---

  /** A scalar without its cache nodes. */
  function Strip(e: Scalar): Scalar
    decreases e
  {
    match e
    case Field(_, _) => e
    case Const(_, _) => e
    case Cached(inner, _) => Strip(inner)
    case Coalesce(args, ty) => Coalesce(seq(|args|, i requires 0 <= i < |args| => Strip(args[i])), ty)
    case Call(fn, args, ty) => Call(fn, seq(|args|, i requires 0 <= i < |args| => Strip(args[i])), ty)
  }

  predicate CacheFree(e: Scalar)
    decreases e
  {
    match e
    case Field(_, _) => true
    case Const(_, _) => true
    case Cached(_, _) => false
    case Coalesce(args, _) => forall i | 0 <= i < |args| :: CacheFree(args[i])
    case Call(_, args, _) => forall i | 0 <= i < |args| :: CacheFree(args[i])
  }

  /** Stripping removes all cache nodes and nothing else. */
  lemma {:induction false} StripFree(e: Scalar)
    ensures CacheFree(Strip(e)) && (CacheFree(e) ==> Strip(e) == e)
    decreases e
  {
    match e {
      case Field(_, _) =>
      case Const(_, _) =>
      case Cached(inner, _) => StripFree(inner);
      case Coalesce(args, ty) =>
        forall i | 0 <= i < |args| ensures CacheFree(Strip(args[i])) && (CacheFree(args[i]) ==> Strip(args[i]) == args[i]) {
          StripFree(args[i]);
        }
        assert CacheFree(e) ==> Strip(e).args == args;
      case Call(fn, args, ty) =>
        forall i | 0 <= i < |args| ensures CacheFree(Strip(args[i])) && (CacheFree(args[i]) ==> Strip(args[i]) == args[i]) {
          StripFree(args[i]);
        }
        assert CacheFree(e) ==> Strip(e).args == args;
    }
  }

  /** Cache nodes do not change the value of a scalar. */
  lemma {:induction false} StripEval(env: Env, s: Schema, row: Row, e: Scalar)
    ensures Eval(env, s, row, Strip(e)) == Eval(env, s, row, e)
    decreases e
  {
    match e {
      case Field(_, _) =>
      case Const(_, _) =>
      case Cached(inner, _) => StripEval(env, s, row, inner);
      case Coalesce(args, _) =>
        forall i | 0 <= i < |args| ensures Eval(env, s, row, Strip(args[i])) == Eval(env, s, row, args[i]) {
          StripEval(env, s, row, args[i]);
        }
        SameArgs(env, s, row, e, Strip(e));
      case Call(_, args, _) =>
        forall i | 0 <= i < |args| ensures Eval(env, s, row, Strip(args[i])) == Eval(env, s, row, args[i]) {
          StripEval(env, s, row, args[i]);
        }
        SameArgs(env, s, row, e, Strip(e));
    }
  }

  lemma {:induction false} StripFits(e: Scalar)
    ensures Fits(Strip(e), e)
    decreases e
  {
    match e {
      case Field(_, _) =>
      case Const(_, _) =>
      case Cached(inner, _) => StripFits(inner);
      case Coalesce(args, _) =>
        forall i | 0 <= i < |args| ensures Fits(Strip(args[i]), args[i]) {
          StripFits(args[i]);
        }
      case Call(_, args, _) =>
        forall i | 0 <= i < |args| ensures Fits(Strip(args[i]), args[i]) {
          StripFits(args[i]);
        }
    }
  }

  /** Without cache nodes the estimate of a scalar does not depend on what was seen before. */
  lemma {:induction false} EstimateFree(costs: Costs, e: Scalar, seen: set<Scalar>)
    requires CacheFree(e)
    ensures Estimate(costs, e, seen) == (Flat(costs, e), seen)
  {
    FreeHasNone(e);
    EstimateIs(costs, e, seen);
    assert CachedIn(e) - seen == {} && seen + {} == seen;
  }

  lemma {:induction false} FreeHasNone(e: Scalar)
    requires CacheFree(e)
    ensures CachedIn(e) == {}
    decreases e
  {
    match e {
      case Field(_, _) =>
      case Const(_, _) =>
      case Coalesce(args, _) => FreeHasNoneAll(args);
      case Call(_, args, _) => FreeHasNoneAll(args);
    }
  }

  lemma {:induction false} FreeHasNoneAll(es: seq<Scalar>)
    requires forall i | 0 <= i < |es| :: CacheFree(es[i])
    ensures CachedInAll(es) == {}
    decreases es
  {
    if es != [] {
      FreeHasNoneAll(es[..|es| - 1]);
      FreeHasNone(es[|es| - 1]);
    }
  }

  // --- wrapping one expression ---

  /** Wraps every part that is, but for cache nodes, the given expression. */
  function CacheExpr(x: Scalar, e: Scalar): Scalar
    decreases e
  {
    if e.Field? || e.Const? then e
    else if Strip(e) == x then Cached(e, e.ty)
    else match e
      case Cached(inner, ty) => Cached(CacheExpr(x, inner), ty)
      case Coalesce(args, ty) => Coalesce(seq(|args|, i requires 0 <= i < |args| => CacheExpr(x, args[i])), ty)
      case Call(fn, args, ty) => Call(fn, seq(|args|, i requires 0 <= i < |args| => CacheExpr(x, args[i])), ty)
  }

  /** Wrapping changes nothing but cache nodes. */
  lemma {:induction false} StripCacheExpr(x: Scalar, e: Scalar)
    ensures Strip(CacheExpr(x, e)) == Strip(e)
    decreases e
  {
    if !(e.Field? || e.Const?) && Strip(e) != x {
      match e {
        case Cached(inner, _) => StripCacheExpr(x, inner);
        case Coalesce(args, _) =>
          forall i | 0 <= i < |args| ensures Strip(CacheExpr(x, args[i])) == Strip(args[i]) {
            StripCacheExpr(x, args[i]);
          }
          assert Strip(CacheExpr(x, e)).args == Strip(e).args;
        case Call(_, args, _) =>
          forall i | 0 <= i < |args| ensures Strip(CacheExpr(x, args[i])) == Strip(args[i]) {
            StripCacheExpr(x, args[i]);
          }
          assert Strip(CacheExpr(x, e)).args == Strip(e).args;
      }
    }
  }

  lemma {:induction false} CacheExprFits(x: Scalar, e: Scalar)
    ensures Fits(CacheExpr(x, e), e)
    decreases e
  {
    if !(e.Field? || e.Const?) && Strip(e) != x {
      match e {
        case Cached(inner, _) => CacheExprFits(x, inner);
        case Coalesce(args, _) =>
          forall i | 0 <= i < |args| ensures Fits(CacheExpr(x, args[i]), args[i]) {
            CacheExprFits(x, args[i]);
          }
        case Call(_, args, _) =>
          forall i | 0 <= i < |args| ensures Fits(CacheExpr(x, args[i]), args[i]) {
            CacheExprFits(x, args[i]);
          }
      }
    }
  }

  function StripFn(): Scalar -> Scalar { e => Strip(e) }

  function CacheFn(x: Scalar): Scalar -> Scalar { e => CacheExpr(x, e) }

  // --- scopes: the scalars of one node that share a memo ---

  /** Group keys are evaluated without a memo and are no part of the scope. */
  function MapScope(f: Scalar -> Scalar, op: Op): Op {
    match op
    case ProjectionOp(ps) => ProjectionOp(MapProjectors(f, ps))
    case FilterOp(c) => FilterOp(f(c))
    case AggregateOp(aggs) => AggregateOp(MapAggregates(f, aggs))
    case GroupOp(aggs, keys) => GroupOp(MapAggregates(f, aggs), keys)
    case _ => op
  }

  function AggregateScope(aggs: seq<Aggregate>): seq<Scalar> {
    if aggs == [] then [] else AggregateArgs(aggs[0].node) + AggregateScope(aggs[1..])
  }

  function Scope(op: Op): seq<Scalar> {
    match op
    case ProjectionOp(ps) => Exprs(ps)
    case FilterOp(c) => [c]
    case AggregateOp(aggs) => AggregateScope(aggs)
    case GroupOp(aggs, _) => AggregateScope(aggs)
    case _ => []
  }

  function OpCost(costs: Costs, op: Op): nat {
    ScopeCost(costs, Scope(op))
  }

  function StripOp(op: Op): Op { MapScope(StripFn(), op) }

  lemma MapTwice(f: Scalar -> Scalar, g: Scalar -> Scalar, h: Scalar -> Scalar, op: Op)
    requires forall e :: f(g(e)) == h(e)
    ensures MapScope(f, MapScope(g, op)) == MapScope(h, op)
  {
    match op {
      case ProjectionOp(ps) => assert MapProjectors(f, MapProjectors(g, ps)) == MapProjectors(h, ps);
      case AggregateOp(aggs) => MapAggregatesTwice(f, g, h, aggs);
      case GroupOp(aggs, _) => MapAggregatesTwice(f, g, h, aggs);
      case _ =>
    }
  }

  lemma MapAggregatesTwice(f: Scalar -> Scalar, g: Scalar -> Scalar, h: Scalar -> Scalar, aggs: seq<Aggregate>)
    requires forall e :: f(g(e)) == h(e)
    ensures MapAggregates(f, MapAggregates(g, aggs)) == MapAggregates(h, aggs)
  {
    forall i | 0 <= i < |aggs|
      ensures MapAggregate(f, MapAggregate(g, aggs[i].node)) == MapAggregate(h, aggs[i].node)
    {
      if aggs[i].node.FnAggregate? {
        assert Map(f, Map(g, aggs[i].node.args)) == Map(h, aggs[i].node.args);
      }
    }
  }

  lemma StripOpStripped(op: Op)
    ensures StripOp(StripOp(op)) == StripOp(op)
  {
    forall e ensures StripFn()(StripFn()(e)) == StripFn()(e) {
      StripFree(e);
      StripFree(Strip(e));
    }
    MapTwice(StripFn(), StripFn(), StripFn(), op);
  }

  lemma CacheOpStrips(x: Scalar, op: Op)
    ensures StripOp(MapScope(CacheFn(x), op)) == StripOp(op)
  {
    forall e ensures StripFn()(CacheFn(x)(e)) == StripFn()(e) {
      StripCacheExpr(x, e);
    }
    MapTwice(StripFn(), CacheFn(x), StripFn(), op);
  }

  lemma MapScopeOk(f: Scalar -> Scalar, op: Op, schema: Schema, ss: seq<Schema>)
    requires FitsAll(f) && OpOk(op, schema, ss)
    ensures OpOk(MapScope(f, op), schema, ss)
  {
    hide FitsAll, ScalarOk, ScalarsOk, AggregatesOk, Distinct;
    match op {
      case ProjectionOp(ps) => MapProjectorsOk(f, ss[0], ps);
      case FilterOp(c) => MapScalarOk(f, ss[0], c);
      case AggregateOp(aggs) => MapAggregatesOk(f, ss[0], aggs);
      case GroupOp(aggs, _) => MapAggregatesOk(f, ss[0], aggs);
      case _ =>
    }
  }

  // --- types of cache nodes ---

  /** A cache node has the type of what it caches. */
  predicate CachesTyped(e: Scalar)
    decreases e
  {
    match e
    case Field(_, _) => true
    case Const(_, _) => true
    case Cached(inner, ty) => ty == inner.ty && CachesTyped(inner)
    case Coalesce(args, _) => forall i | 0 <= i < |args| :: CachesTyped(args[i])
    case Call(_, args, _) => forall i | 0 <= i < |args| :: CachesTyped(args[i])
  }

  predicate ArgsTyped(aggs: seq<Aggregate>) {
    forall i, k | 0 <= i < |aggs| && 0 <= k < |AggregateArgs(aggs[i].node)| :: CachesTyped(AggregateArgs(aggs[i].node)[k])
  }

  /** All cache nodes of a scope have the right types. */
  predicate ScopeTyped(op: Op) {
    match op
    case ProjectionOp(ps) => forall i | 0 <= i < |ps| :: CachesTyped(ps[i].expr)
    case FilterOp(c) => CachesTyped(c)
    case AggregateOp(aggs) => ArgsTyped(aggs)
    case GroupOp(aggs, _) => ArgsTyped(aggs)
    case _ => true
  }

  lemma {:induction false} FreeTyped(e: Scalar)
    requires CacheFree(e)
    ensures CachesTyped(e)
    decreases e
  {
    if e.Coalesce? || e.Call? {
      forall i | 0 <= i < |e.args| ensures CachesTyped(e.args[i]) {
        FreeTyped(e.args[i]);
      }
    }
  }

  lemma {:induction false} CacheExprTyped(x: Scalar, e: Scalar)
    requires CachesTyped(e)
    ensures CachesTyped(CacheExpr(x, e)) && CacheExpr(x, e).ty == e.ty
    decreases e
  {
    if !(e.Field? || e.Const?) && Strip(e) != x {
      if e.Cached? {
        CacheExprTyped(x, e.inner);
      } else {
        forall i | 0 <= i < |e.args| ensures CachesTyped(CacheExpr(x, e.args[i])) {
          CacheExprTyped(x, e.args[i]);
        }
      }
    }
  }

  lemma MapArgsTyped(f: Scalar -> Scalar, aggs: seq<Aggregate>)
    requires ArgsTyped(aggs) && forall e :: CachesTyped(e) ==> CachesTyped(f(e))
    ensures ArgsTyped(MapAggregates(f, aggs))
  {
    var bggs := MapAggregates(f, aggs);
    forall i, k | 0 <= i < |bggs| && 0 <= k < |AggregateArgs(bggs[i].node)|
      ensures CachesTyped(AggregateArgs(bggs[i].node)[k])
    {
      assert AggregateArgs(bggs[i].node)[k] == f(AggregateArgs(aggs[i].node)[k]);
    }
  }

  lemma MapScopeTyped(f: Scalar -> Scalar, op: Op)
    requires ScopeTyped(op) && forall e :: CachesTyped(e) ==> CachesTyped(f(e))
    ensures ScopeTyped(MapScope(f, op))
  {
    match op {
      case AggregateOp(aggs) => MapArgsTyped(f, aggs);
      case GroupOp(aggs, _) => MapArgsTyped(f, aggs);
      case _ =>
    }
  }

  lemma CacheOpTyped(x: Scalar, op: Op)
    requires ScopeTyped(op)
    ensures ScopeTyped(MapScope(CacheFn(x), op))
  {
    hide CacheExpr, CachesTyped, ScopeTyped, MapScope;
    forall e | CachesTyped(e) ensures CachesTyped(CacheFn(x)(e)) {
      CacheExprTyped(x, e);
    }
    MapScopeTyped(CacheFn(x), op);
  }

  /** A stripped scope has no cache nodes at all. */
  lemma StrippedTyped(op: Op)
    ensures ScopeTyped(StripOp(op))
  {
    hide Strip, CachesTyped;
    forall e ensures CachesTyped(StripFn()(e)) {
      StripFree(e);
      FreeTyped(Strip(e));
    }
  }

  // --- repeated expressions ---

  datatype Repeated = Repeated(scalar: Scalar, count: nat, cost: nat)

  /** How often an expression stands in a scalar, fields and constants aside. */
  function Occurrences(e: Scalar, x: Scalar): nat
    decreases e
  {
    (if e == x && !e.Field? && !e.Const? then 1 else 0) +
    match e
    case Field(_, _) => 0
    case Const(_, _) => 0
    case Cached(inner, _) => Occurrences(inner, x)
    case Coalesce(args, _) => OccurrencesAll(args, x)
    case Call(_, args, _) => OccurrencesAll(args, x)
  }

  function OccurrencesAll(es: seq<Scalar>, x: Scalar): nat
    decreases es
  {
    if es == [] then 0 else OccurrencesAll(es[..|es| - 1], x) + Occurrences(es[|es| - 1], x)
  }

  /** Collects every expression of a scope with the number of its occurrences. */
  class ExpressionCollector {
    const costs: Costs
    var indices: map<Scalar, nat>
    var expressions: seq<Repeated>

    constructor (settings: Costs)
      ensures costs == settings && Valid() && forall x :: Count(x) == 0
    {
      costs := settings;
      indices := map[];
      expressions := [];
    }

    ghost predicate Valid()
      reads this
    {
      && (forall x | x in indices :: indices[x] < |expressions| && expressions[indices[x]].scalar == x)
      && (forall i | 0 <= i < |expressions| ::
            expressions[i].scalar in indices && indices[expressions[i].scalar] == i
            && expressions[i].cost == Flat(costs, expressions[i].scalar))
    }

    ghost function Count(x: Scalar): nat
      requires Valid()
      reads this
    {
      if x in indices then expressions[indices[x]].count else 0
    }

    method Visit(s: Scalar)
      requires Valid() && CacheFree(s)
      modifies this`indices, this`expressions
      ensures Valid() && forall x :: Count(x) == old(Count(x)) + Occurrences(s, x)
      decreases s
    {
      if s.Field? || s.Const? {
        return;
      }
      Tally(s);
      VisitAll(s.args);
    }

    method Tally(s: Scalar)
      requires Valid()
      modifies this`indices, this`expressions
      ensures Valid() && forall x :: Count(x) == old(Count(x)) + if x == s then 1 else 0
    {
      if s in indices {
        var i := indices[s];
        expressions := expressions[i := expressions[i].(count := expressions[i].count + 1)];
      } else {
        indices := indices[s := |expressions|];
        expressions := expressions + [Repeated(s, 1, Flat(costs, s))];
      }
    }

    method VisitAll(es: seq<Scalar>)
      requires Valid() && forall i | 0 <= i < |es| :: CacheFree(es[i])
      modifies this`indices, this`expressions
      ensures Valid() && forall x :: Count(x) == old(Count(x)) + OccurrencesAll(es, x)
      decreases es
    {
      for i := 0 to |es|
        invariant Valid() && forall x :: Count(x) == old(Count(x)) + OccurrencesAll(es[..i], x)
      {
        Visit(es[i]);
        assert es[..i + 1][..i] == es[..i];
      }
      assert es[..|es|] == es;
    }
  }

  // --- building the cache of one scope ---

  function CostKey(): Repeated -> Key { (r: Repeated) => [Int(r.cost)] }

  /** A repetition is worth a cache node when what it saves exceeds the lookups. */
  predicate WorthCaching(costs: Costs, r: Repeated) {
    r.count >= 2 && r.cost * (r.count - 1) > costs.cached * r.count
  }

  lemma ScopeFree(op: Op)
    requires StripOp(op) == op
    ensures forall i | 0 <= i < |Scope(op)| :: CacheFree(Scope(op)[i])
  {
    match op {
      case ProjectionOp(ps) =>
        forall i | 0 <= i < |ps| ensures CacheFree(ps[i].expr) {
          assert MapProjectors(StripFn(), ps)[i] == ps[i];
          StripFree(ps[i].expr);
        }
      case FilterOp(c) => StripFree(c);
      case AggregateOp(aggs) => AggregateScopeFree(aggs);
      case GroupOp(aggs, _) => AggregateScopeFree(aggs);
      case _ =>
    }
  }

  lemma {:induction false} AggregateScopeFree(aggs: seq<Aggregate>)
    requires forall i | 0 <= i < |aggs| :: MapAggregate(StripFn(), aggs[i].node) == aggs[i].node
    ensures forall i | 0 <= i < |AggregateScope(aggs)| :: CacheFree(AggregateScope(aggs)[i])
  {
    if aggs != [] {
      AggregateScopeFree(aggs[1..]);
      var args := AggregateArgs(aggs[0].node);
      forall i | 0 <= i < |args| ensures CacheFree(args[i]) {
        assert Map(StripFn(), args)[i] == args[i];
        StripFree(args[i]);
      }
    }
  }

  /** The repeated expressions of a stripped scope, dearest first. */
  method CollectRepeated(costs: Costs, op: Op) returns (expressions: seq<Repeated>)
    requires StripOp(op) == op
    ensures S.Sorted(CostKey(), true, expressions)
    ensures forall r | r in expressions :: r.count == OccurrencesAll(Scope(op), r.scalar) && r.cost == Flat(costs, r.scalar)
  {
    var scope := Scope(op);
    ScopeFree(op);
    var collector := new ExpressionCollector(costs);
    collector.VisitAll(scope);
    expressions := S.Sort(CostKey(), true, collector.expressions);
    S.SortSorted(CostKey(), true, collector.expressions);
    S.SortMembers(CostKey(), true, collector.expressions);
    forall r | r in expressions
      ensures r.count == OccurrencesAll(scope, r.scalar) && r.cost == Flat(costs, r.scalar)
    {
      assert r in collector.expressions;
      var i :| 0 <= i < |collector.expressions| && collector.expressions[i] == r;
      assert collector.Count(r.scalar) == r.count;
    }
  }

  lemma CacheFits(x: Scalar)
    ensures FitsAll(CacheFn(x))
  {
    forall e ensures Fits(CacheFn(x)(e), e) {
      CacheExprFits(x, e);
    }
  }

  /** Tries the expressions in turn and keeps every wrapping that lowers the cost. */
  method BuildCache(costs: Costs, op: Op, ghost schema: Schema, ghost ss: seq<Schema>) returns (r: Op)
    requires StripOp(op) == op && OpOk(op, schema, ss)
    ensures StripOp(r) == StripOp(op) && OpOk(r, schema, ss) && ScopeTyped(r)
    ensures OpCost(costs, r) <= OpCost(costs, op)
  {
    hide OpOk, MapScope, ScopeTyped;
    StrippedTyped(op);
    r := op;
    var expressions := CollectRepeated(costs, op);
    var cost := EstimateScope(costs, Scope(op));
    for i := 0 to |expressions|
      invariant StripOp(r) == StripOp(op) && OpOk(r, schema, ss) && ScopeTyped(r)
      invariant cost == OpCost(costs, r) <= OpCost(costs, op)
    {
      if !WorthCaching(costs, expressions[i]) {
        continue;
      }
      var x := expressions[i].scalar;
      var candidate := MapScope(CacheFn(x), r);
      var candidateCost := EstimateScope(costs, Scope(candidate));
      if candidateCost < cost {
        CacheOpStrips(x, r);
        CacheOpTyped(x, r);
        CacheFits(x);
        MapScopeOk(CacheFn(x), r, schema, ss);
        r, cost := candidate, candidateCost;
      }
    }
  }

  lemma AllStripsFit()
    ensures FitsAll(StripFn())
  {
    forall e ensures Fits(StripFn()(e), e) {
      StripFits(e);
    }
  }

  /** Rebuilds the cache of a scope from scratch, and takes it only at a strictly lower cost. */
  method UpdateCache(costs: Costs, op: Op, ctx: Context, ghost schema: Schema, ghost ss: seq<Schema>) returns (r: Op)
    requires OpOk(op, schema, ss)
    modifies ctx
    ensures StripOp(r) == StripOp(op) && OpOk(r, schema, ss)
    ensures r == op || (OpCost(costs, r) < OpCost(costs, op) && ScopeTyped(r))
    ensures ctx.changes == (old(ctx.changes) || r != op)
  {
    hide OpOk, MapScope, ScopeTyped;
    var currentCost := EstimateScope(costs, Scope(op));
    var candidate := StripOp(op);
    StripOpStripped(op);
    AllStripsFit();
    MapScopeOk(StripFn(), op, schema, ss);
    candidate := BuildCache(costs, candidate, schema, ss);
    var candidateCost := EstimateScope(costs, Scope(candidate));
    r := op;
    if candidateCost < currentCost {
      r := candidate;
      ctx.SetChanges();
    }
  }

  // --- the pass over a tree ---

  /** The same tree but for cache nodes; every scope that differs is strictly cheaper, with cache nodes of the right types. */
  ghost predicate Recached(costs: Costs, q: Relation, r: Relation)
    decreases r
  {
    && StripOp(q.op) == StripOp(r.op)
    && (q.op == r.op || (OpCost(costs, q.op) < OpCost(costs, r.op) && ScopeTyped(q.op)))
    && q.schema == r.schema
    && |q.inputs| == |r.inputs|
    && forall i | 0 <= i < |r.inputs| :: Recached(costs, q.inputs[i], r.inputs[i])
  }

  method Visit(costs: Costs, r: Relation, ctx: Context) returns (q: Relation)
    requires WellFormed(r)
    modifies ctx
    ensures WellFormed(q) && Recached(costs, q, r)
    ensures (old(ctx.changes) ==> ctx.changes) && (!ctx.changes ==> q == r)
    decreases r
  {
    hide OpOk, StripOp, OpCost, ScopeTyped;
    var inputs: seq<Relation> := [];
    for i := 0 to |r.inputs|
      invariant |inputs| == i
      invariant forall k | 0 <= k < i :: WellFormed(inputs[k]) && Recached(costs, inputs[k], r.inputs[k])
      invariant (old(ctx.changes) ==> ctx.changes) && (!ctx.changes ==> inputs == r.inputs[..i])
    {
      var input := Visit(costs, r.inputs[i], ctx);
      inputs := inputs + [input];
    }
    var op := UpdateCache(costs, r.op, ctx, r.schema, Schemas(r.inputs));
    q := Relation(op, inputs, r.schema);
    assert Schemas(inputs) == Schemas(r.inputs);
  }

  // --- meaning ---

  lemma SameStripAgrees(env: Env, s: Schema, rows: seq<Row>, e: Scalar, q: Scalar)
    requires Strip(e) == Strip(q)
    ensures Agree(env, s, rows, e, q)
  {
    forall row | row in rows ensures Eval(env, s, row, e) == Eval(env, s, row, q) {
      StripEval(env, s, row, e);
      StripEval(env, s, row, q);
    }
  }

  lemma SameStripsAgree(env: Env, s: Schema, rows: seq<Row>, es: seq<Scalar>, qs: seq<Scalar>)
    requires Map(StripFn(), es) == Map(StripFn(), qs)
    ensures AllAgree(env, s, rows, es, qs)
  {
    assert |Map(StripFn(), es)| == |es| && |Map(StripFn(), qs)| == |qs|;
    forall row | row in rows ensures EvalAll(env, s, row, es) == EvalAll(env, s, row, qs) {
      forall i | 0 <= i < |es| ensures Eval(env, s, row, es[i]) == Eval(env, s, row, qs[i]) {
        assert Map(StripFn(), es)[i] == Map(StripFn(), qs)[i];
        SameStripAgrees(env, s, rows, es[i], qs[i]);
      }
    }
  }

  lemma ProjectorsStripAgree(env: Env, s: Schema, rows: seq<Row>, ps: seq<Projector>, qs: seq<Projector>)
    requires MapProjectors(StripFn(), ps) == MapProjectors(StripFn(), qs)
    ensures ProjectorsAgree(env, s, rows, ps, qs)
  {
    var f := StripFn();
    assert |ps| == |qs|;
    forall i | 0 <= i < |ps| ensures ps[i].alias == qs[i].alias && f(ps[i].expr) == f(qs[i].expr) {
      assert MapProjectors(f, ps)[i] == MapProjectors(f, qs)[i];
    }
    assert Map(f, Exprs(ps)) == Map(f, Exprs(qs));
    SameStripsAgree(env, s, rows, Exprs(ps), Exprs(qs));
  }

  lemma AggregatesStripAgree(env: Env, s: Schema, rows: seq<Row>, aggs: seq<Aggregate>, bggs: seq<Aggregate>)
    requires MapAggregates(StripFn(), aggs) == MapAggregates(StripFn(), bggs)
    ensures AggregatesAgree(env, s, rows, aggs, bggs)
  {
    var f := StripFn();
    assert |aggs| == |bggs|;
    forall i | 0 <= i < |aggs|
      ensures aggs[i].output == bggs[i].output && AggregateAgrees(env, s, rows, aggs[i].node, bggs[i].node)
    {
      assert MapAggregates(f, aggs)[i] == MapAggregates(f, bggs)[i];
      if aggs[i].node.FnAggregate? {
        SameStripsAgree(env, s, rows, aggs[i].node.args, bggs[i].node.args);
      }
    }
  }

  lemma SameStripOp(env: Env, op: Op, q: Op, ss: seq<Schema>, ins: seq<seq<Row>>)
    requires |ss| == |ins| && ArityIs(op, |ins|) && StripOp(op) == StripOp(q)
    ensures OpAgrees(env, op, q, ss, ins)
  {
    match op {
      case ProjectionOp(ps) => ProjectorsStripAgree(env, ss[0], ins[0], ps, q.projectors);
      case FilterOp(c) => SameStripAgrees(env, ss[0], ins[0], c, q.condition);
      case AggregateOp(aggs) => AggregatesStripAgree(env, ss[0], ins[0], aggs, q.aggregates);
      case GroupOp(aggs, _) => AggregatesStripAgree(env, ss[0], ins[0], aggs, q.aggregates);
      case _ =>
    }
  }

  /** Whatever was cached or no longer is, the tree means the same. */
  lemma {:induction false} RecachedMeaning(env: Env, costs: Costs, q: Relation, r: Relation)
    requires Sound(env, r) && WellFormed(q) && Recached(costs, q, r)
    ensures Replaces(env, q, r)
    decreases r
  {
    hide OpOk, OpRows, StripOp, OpCost;
    forall i | 0 <= i < |r.inputs| ensures Replaces(env, q.inputs[i], r.inputs[i]) {
      RecachedMeaning(env, costs, q.inputs[i], r.inputs[i]);
    }
    Congruence(env, r, q.inputs);
    var mid := r.(inputs := q.inputs);
    OpArity(mid.op, mid.schema, Schemas(mid.inputs));
    SameStripOp(env, mid.op, q.op, Schemas(mid.inputs), DenoteAll(env, mid.inputs));
    ExchangeOp(env, mid, q.op);
    assert q == mid.(op := q.op);
  }
}
