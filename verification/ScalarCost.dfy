/** The cost that drives scalar caching: what one pass over a row is estimated to take. */
module ScalarCost {
  import opened Values
  import opened Scalars

  /** Optimizer settings; none is negative. */
  datatype Costs = Costs(
    cached: nat,
    projection: nat,
    coalesce: nat,
    unary: nat,
    binary: nat,
    castToString: nat,
    parseString: nat,
    named: string -> nat
  )

  /** What a call costs beside its arguments. */
  function CallCost(costs: Costs, fn: Fn, args: seq<Scalar>): nat {
    match fn
    case And => costs.binary
    case Or => costs.binary
    case Not => costs.unary
    case CoalesceFn => costs.coalesce
    case Cast(to) =>
      (if to == StringType then costs.castToString else 0) +
      (if args != [] && args[0].ty == StringType then costs.parseString else 0)
    case Named(name) => costs.named(name)
  }

  /** The cost of a scalar after the expressions of `cached` were seen, and the ones seen after it. */
  function Estimate(costs: Costs, e: Scalar, cached: set<Scalar>): (nat, set<Scalar>)
    decreases e
  {
    match e
    case Field(_, _) => (0, cached)
    case Const(_, _) => (0, cached)
    case Cached(inner, _) =>
      if inner in cached then (costs.cached, cached)
      else
        var r := Estimate(costs, inner, cached + {inner});
        (r.0 + costs.cached, r.1)
    case Coalesce(args, _) =>
      var r := EstimateAll(costs, args, cached);
      (r.0 + costs.coalesce, r.1)
    case Call(fn, args, _) =>
      var r := EstimateAll(costs, args, cached);
      (r.0 + CallCost(costs, fn, args), r.1)
  }

  function EstimateAll(costs: Costs, es: seq<Scalar>, cached: set<Scalar>): (nat, set<Scalar>)
    decreases es
  {
    if es == [] then (0, cached)
    else
      var before := EstimateAll(costs, es[..|es| - 1], cached);
      var last := Estimate(costs, es[|es| - 1], before.1);
      (before.0 + last.0, last.1)
  }

  function ScopeCost(costs: Costs, es: seq<Scalar>): nat {
    EstimateAll(costs, es, {}).0
  }

  /** Walks the scalars of a scope, remembering the cached expressions it met. */
  class ScalarCostEstimator {
    const costs: Costs
    var cached: set<Scalar>
    var totalCost: nat

    constructor (settings: Costs)
      ensures costs == settings && cached == {} && totalCost == 0
    {
      costs := settings;
      cached := {};
      totalCost := 0;
    }

    method Visit(s: Scalar) returns (cost: nat)
      modifies this`cached
      ensures (cost, cached) == Estimate(costs, s, old(cached))
      decreases s
    {
      match s {
        case Field(_, _) => cost := 0;
        case Const(_, _) => cost := 0;
        case Cached(inner, _) =>
          if inner in cached {
            return costs.cached;
          }
          cached := cached + {inner};
          cost := Visit(inner);
          cost := cost + costs.cached;
        case Coalesce(args, _) =>
          cost := VisitAll(args);
          cost := cost + costs.coalesce;
        case Call(fn, args, _) =>
          cost := VisitAll(args);
          cost := cost + CallCost(costs, fn, args);
      }
    }

    method VisitAll(args: seq<Scalar>) returns (cost: nat)
      modifies this`cached
      ensures (cost, cached) == EstimateAll(costs, args, old(cached))
      decreases args
    {
      cost := 0;
      for i := 0 to |args|
        invariant (cost, cached) == EstimateAll(costs, args[..i], old(cached))
      {
        var arg := Visit(args[i]);
        cost := cost + arg;
        assert args[..i + 1][..i] == args[..i];
      }
      assert args[..|args|] == args;
    }

    method EstimateScalar(s: Scalar) returns (cost: nat)
      modifies this`cached, this`totalCost
      ensures (cost, cached) == Estimate(costs, s, old(cached))
      ensures totalCost == old(totalCost) + cost
    {
      cost := Visit(s);
      totalCost := totalCost + cost;
    }
  }

  method EstimateScope(costs: Costs, es: seq<Scalar>) returns (cost: nat)
    ensures cost == ScopeCost(costs, es)
  {
    var estimator := new ScalarCostEstimator(costs);
    for i := 0 to |es|
      invariant fresh(estimator) && estimator.costs == costs
      invariant (estimator.totalCost, estimator.cached) == EstimateAll(costs, es[..i], {})
    {
      var _ := estimator.EstimateScalar(es[i]);
      assert es[..i + 1][..i] == es[..i];
    }
    assert es[..|es|] == es;
    cost := estimator.totalCost;
  }

  // --- what the estimate amounts to ---

  /** The cost of a scalar when every cached expression in it is only looked up. */
  function Flat(costs: Costs, e: Scalar): nat
    decreases e
  {
    match e
    case Field(_, _) => 0
    case Const(_, _) => 0
    case Cached(_, _) => costs.cached
    case Coalesce(args, _) => FlatAll(costs, args) + costs.coalesce
    case Call(fn, args, _) => FlatAll(costs, args) + CallCost(costs, fn, args)
  }

  function FlatAll(costs: Costs, es: seq<Scalar>): nat
    decreases es
  {
    if es == [] then 0 else FlatAll(costs, es[..|es| - 1]) + Flat(costs, es[|es| - 1])
  }

  /** The expressions that stand in a cache node somewhere in a scalar. */
  function CachedIn(e: Scalar): set<Scalar>
    decreases e
  {
    match e
    case Field(_, _) => {}
    case Const(_, _) => {}
    case Cached(inner, _) => {inner} + CachedIn(inner)
    case Coalesce(args, _) => CachedInAll(args)
    case Call(_, args, _) => CachedInAll(args)
  }

  function CachedInAll(es: seq<Scalar>): set<Scalar>
    decreases es
  {
    if es == [] then {} else CachedInAll(es[..|es| - 1]) + CachedIn(es[|es| - 1])
  }

  ghost function Total(costs: Costs, xs: set<Scalar>): nat {
    if xs == {} then 0
    else
      var x :| x in xs;
      Flat(costs, x) + Total(costs, xs - {x})
  }

  lemma {:induction false} TotalRemove(costs: Costs, xs: set<Scalar>, y: Scalar)
    requires y in xs
    ensures Total(costs, xs) == Flat(costs, y) + Total(costs, xs - {y})
  {
    hide Flat;
    var x :| x in xs && Total(costs, xs) == Flat(costs, x) + Total(costs, xs - {x});
    if x != y {
      TotalRemove(costs, xs - {x}, y);
      TotalRemove(costs, xs - {y}, x);
      assert xs - {x} - {y} == xs - {y} - {x};
    }
  }

  lemma {:induction false} TotalUnion(costs: Costs, xs: set<Scalar>, ys: set<Scalar>)
    requires xs !! ys
    ensures Total(costs, xs + ys) == Total(costs, xs) + Total(costs, ys)
    decreases |xs|
  {
    hide Flat;
    if xs == {} {
      assert xs + ys == ys;
    } else {
      var x :| x in xs;
      TotalRemove(costs, xs, x);
      TotalRemove(costs, xs + ys, x);
      assert xs + ys - {x} == (xs - {x}) + ys;
      TotalUnion(costs, xs - {x}, ys);
    }
  }

  lemma TotalSubset(costs: Costs, xs: set<Scalar>, ys: set<Scalar>)
    requires xs <= ys
    ensures Total(costs, xs) <= Total(costs, ys)
  {
    assert ys == xs + (ys - xs);
    TotalUnion(costs, xs, ys - xs);
  }

  // --- nothing is cached inside itself ---

  function Size(e: Scalar): nat
    decreases e
  {
    match e
    case Field(_, _) => 1
    case Const(_, _) => 1
    case Cached(inner, _) => 1 + Size(inner)
    case Coalesce(args, _) => 1 + SizeAll(args)
    case Call(_, args, _) => 1 + SizeAll(args)
  }

  function SizeAll(es: seq<Scalar>): nat
    decreases es
  {
    if es == [] then 0 else SizeAll(es[..|es| - 1]) + Size(es[|es| - 1])
  }

  lemma {:induction false} CachedSmaller(e: Scalar, x: Scalar)
    requires x in CachedIn(e)
    ensures Size(x) < Size(e) && CachedIn(x) <= CachedIn(e)
    decreases e
  {
    match e {
      case Cached(inner, _) =>
        if x != inner {
          CachedSmaller(inner, x);
        }
      case Coalesce(args, _) => CachedSmallerAll(args, x);
      case Call(_, args, _) => CachedSmallerAll(args, x);
    }
  }

  lemma {:induction false} CachedSmallerAll(es: seq<Scalar>, x: Scalar)
    requires x in CachedInAll(es)
    ensures Size(x) <= SizeAll(es) && CachedIn(x) <= CachedInAll(es)
    decreases es
  {
    if x in CachedInAll(es[..|es| - 1]) {
      CachedSmallerAll(es[..|es| - 1], x);
    } else {
      CachedSmaller(es[|es| - 1], x);
    }
  }

  /** The cached expressions of `xs` that were seen were seen with all they contain. */
  ghost predicate SeenWhole(xs: set<Scalar>, seen: set<Scalar>) {
    forall x :: x in xs && x in seen ==> CachedIn(x) <= seen
  }

  /** The estimate pays for each newly met cached expression once, and a lookup for every use. */
  lemma {:induction false} EstimateIs(costs: Costs, e: Scalar, seen: set<Scalar>)
    requires SeenWhole(CachedIn(e), seen)
    ensures Estimate(costs, e, seen).1 == seen + CachedIn(e)
    ensures Estimate(costs, e, seen).0 == Flat(costs, e) + Total(costs, CachedIn(e) - seen)
    decreases e
  {
    match e {
      case Field(_, _) =>
      case Const(_, _) =>
      case Cached(inner, _) =>
        if inner in seen {
          assert CachedIn(e) - seen == {};
          assert seen + CachedIn(e) == seen;
        } else {
          EstimateInner(costs, inner, seen);
          EstimateIs(costs, inner, seen + {inner});
          assert seen + {inner} + CachedIn(inner) == seen + CachedIn(e);
        }
      case Coalesce(args, _) => EstimateAllIs(costs, args, seen);
      case Call(_, args, _) => EstimateAllIs(costs, args, seen);
    }
  }

  lemma EstimateInner(costs: Costs, inner: Scalar, seen: set<Scalar>)
    requires inner !in seen && SeenWhole({inner} + CachedIn(inner), seen)
    ensures SeenWhole(CachedIn(inner), seen + {inner})
    ensures Total(costs, {inner} + CachedIn(inner) - seen) ==
            Flat(costs, inner) + Total(costs, CachedIn(inner) - (seen + {inner}))
  {
    hide Flat, Total;
    if inner in CachedIn(inner) {
      CachedSmaller(inner, inner);
      assert false;
    }
    TotalRemove(costs, {inner} + CachedIn(inner) - seen, inner);
    assert {inner} + CachedIn(inner) - seen - {inner} == CachedIn(inner) - (seen + {inner});
  }

  lemma {:induction false} EstimateAllIs(costs: Costs, es: seq<Scalar>, seen: set<Scalar>)
    requires SeenWhole(CachedInAll(es), seen)
    ensures EstimateAll(costs, es, seen).1 == seen + CachedInAll(es)
    ensures EstimateAll(costs, es, seen).0 == FlatAll(costs, es) + Total(costs, CachedInAll(es) - seen)
    decreases es
  {
    if es == [] {
      assert seen + {} == seen && {} - seen == {};
    } else {
      var before, last := es[..|es| - 1], es[|es| - 1];
      EstimateAllIs(costs, before, seen);
      var middle := seen + CachedInAll(before);
      forall x | x in CachedIn(last) && x in middle ensures CachedIn(x) <= middle {
        if x !in seen {
          CachedSmallerAll(before, x);
        }
      }
      EstimateIs(costs, last, middle);
      assert middle + CachedIn(last) == seen + CachedInAll(es);
      TotalUnion(costs, CachedInAll(before) - seen, CachedIn(last) - middle);
      assert (CachedInAll(before) - seen) + (CachedIn(last) - middle) == CachedInAll(es) - seen;
    }
  }

  /** The cost of a scope: a lookup for every use of a cached expression, and each distinct one once. */
  lemma ScopeCostIs(costs: Costs, es: seq<Scalar>)
    ensures ScopeCost(costs, es) == FlatAll(costs, es) + Total(costs, CachedInAll(es))
  {
    EstimateAllIs(costs, es, {});
    assert CachedInAll(es) - {} == CachedInAll(es);
  }
}
