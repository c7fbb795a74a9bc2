/** Rounds of the optimizer over a program. */
module Optimizer {
  import opened Scalars
  import opened Relations
  import opened ScalarCost
  import opened ScalarSimplify
  import opened ScalarPasses
  import opened Standards
  import opened OptimizerContext
  import opened RelationPasses
  import opened References
  import EmptyPrune
  import FilterOutcomes
  import FilterPushdown
  import FilterPushdownPass
  import LimitPushdown
  import LimitPushdownPass
  import ProperCaching
  import ProperPasses
  import ScalarCache
  import ScalarPassesRun

  datatype Stage =
    | RewriteScalars(rule: Rule)
    | RewriteRelations(pass: Pass)
    | PushFilters
    | PushLimits
    | CacheScalars(costs: Costs)

  lemma Then(env: Env, p: Relation, q: Relation, r: Relation)
    requires WellFormed(r) && WellFormed(q) && Replaces(env, q, r) && Replaces(env, p, q)
    ensures Replaces(env, p, r)
  {
  }

  /** What a stage needs of a tree: it is sound, its scalars are proper, and constants are folded as they are evaluated. */
  ghost predicate Suits(env: Env, stage: Stage, r: Relation) {
    && Sound(env, r)
    && ProperTree(env, r)
    && (stage.RewriteScalars? && stage.rule.Fold? ==> stage.rule.env == env)
  }

  /** Any stage replaces a sound and proper tree by a proper one with the same columns and rows. */
  method RunStage(stage: Stage, r: Relation, ctx: Context, ghost env: Env) returns (q: Relation)
    requires Suits(env, stage, r)
    modifies ctx
    ensures Replaces(env, q, r) && KeepsRefs(q, r)
    ensures WellFormed(q) && ProperTree(env, q)
    ensures stage == RewriteRelations(PruneEmpty) ==> EmptyPrune.NoZeroCount(q)
    ensures (old(ctx.changes) ==> ctx.changes) && (!ctx.changes ==> q == r)
  {
    hide Sound, WellFormed, GoodTree, Denote, KeepsRefs;
    SoundIsFormed(env, r);
    match stage {
      case RewriteScalars(rule) =>
        q := ScalarPassesRun.Visit(rule, r, ctx);
        RewriteTree(env, rule, r);
        MapTreeKeeps(RuleFn(rule), r);
        SoundIsFormed(env, q);
      case RewriteRelations(pass) =>
        q := RelationPasses.Visit(pass, r, ctx);
        BottomUpMeaning(env, pass, r);
        BottomUpKeeps(pass, r);
        ProperPasses.BottomUpGood(env, pass, r);
        NoZeroCountLeft(r);
      case PushFilters =>
        q := FilterPushdownPass.Visit(r, ctx);
        FilterPushdown.PushdownMeaning(env, r);
        FilterOutcomes.PushdownGood(Typed, env, r);
        FilterKeeps(r);
      case PushLimits =>
        q := LimitPushdownPass.Visit(r, ctx);
        LimitPushdown.PushdownMeaning(env, r);
        ProperPasses.LimitsGood(Typed, env, r);
        LimitKeeps(r);
      case CacheScalars(costs) =>
        q := ScalarCache.Visit(costs, r, ctx);
        ScalarCache.RecachedMeaning(env, costs, q, r);
        ProperCaching.RecachedGood(env, costs, q, r);
        RecachedKeeps(costs, q, r);
    }
  }

  lemma SoundIsFormed(env: Env, r: Relation)
    requires Sound(env, r)
    ensures WellFormed(r)
  {
  }

  /** The stages of one round, in order. */
  function Round(env: Env, costs: Costs): seq<Stage> {
    [
      RewriteScalars(Fold(env)),
      RewriteScalars(Simplify),
      RewriteScalars(Fold(env)),
      RewriteRelations(ConstAggregateFold),
      RewriteRelations(AggregateDeduplicate),
      RewriteRelations(SimplifyRelations),
      PushFilters,
      PushLimits,
      CacheScalars(costs),
      RewriteRelations(CollapseProjections(costs)),
      RewriteRelations(PruneEmpty)
    ]
  }

  /** Every relation stands for its original, and its scalars are proper. */
  ghost predicate AllStand(env: Env, qs: seq<Relation>, rs: seq<Relation>) {
    |qs| == |rs| && forall i | 0 <= i < |rs| :: StandsFor(env, qs[i], rs[i])
  }

  ghost predicate StandsFor(env: Env, q: Relation, r: Relation) {
    && WellFormed(r)
    && Replaces(env, q, r)
    && KeepsRefs(q, r)
    && WellFormed(q) && ProperTree(env, q)
  }

  ghost predicate AllProper(env: Env, rs: seq<Relation>) {
    forall i | 0 <= i < |rs| :: Sound(env, rs[i]) && ProperTree(env, rs[i])
  }

  lemma StandsSelf(env: Env, rs: seq<Relation>)
    requires AllProper(env, rs)
    ensures AllStand(env, rs, rs)
  {
    forall i | 0 <= i < |rs| ensures StandsFor(env, rs[i], rs[i]) {
      SoundIsFormed(env, rs[i]);
    }
  }

  lemma StandsThen(env: Env, ps: seq<Relation>, qs: seq<Relation>, rs: seq<Relation>)
    requires AllStand(env, qs, rs) && AllStand(env, ps, qs)
    ensures AllStand(env, ps, rs)
  {
    hide Sound, WellFormed, GoodTree, Denote, KeepsRefs;
    forall i | 0 <= i < |rs| ensures StandsFor(env, ps[i], rs[i]) {
      assert StandsFor(env, qs[i], rs[i]) && StandsFor(env, ps[i], qs[i]);
      Then(env, ps[i], qs[i], rs[i]);
      KeepsThen(ps[i], qs[i], rs[i]);
    }
  }

  lemma StandProper(env: Env, qs: seq<Relation>, rs: seq<Relation>)
    requires AllStand(env, qs, rs)
    ensures AllProper(env, qs)
  {
    hide Sound, WellFormed, GoodTree, Denote, KeepsRefs;
    forall i | 0 <= i < |qs| ensures Sound(env, qs[i]) && ProperTree(env, qs[i]) {
      assert StandsFor(env, qs[i], rs[i]);
    }
  }

  ghost predicate NoZeros(rs: seq<Relation>) {
    forall i | 0 <= i < |rs| :: EmptyPrune.NoZeroCount(rs[i])
  }

  /** One stage over all relations of a program. */
  method RunStageOnAll(stage: Stage, rs: seq<Relation>, ctx: Context, ghost env: Env) returns (qs: seq<Relation>)
    requires forall i | 0 <= i < |rs| :: Suits(env, stage, rs[i])
    modifies ctx
    ensures AllStand(env, qs, rs)
    ensures stage == RewriteRelations(PruneEmpty) ==> NoZeros(qs)
    ensures (old(ctx.changes) ==> ctx.changes) && (!ctx.changes ==> qs == rs)
  {
    hide Sound, WellFormed, GoodTree, Denote, EmptyPrune.NoZeroCount, KeepsRefs;
    qs := [];
    for i := 0 to |rs|
      invariant |qs| == i && forall k | 0 <= k < i :: StandsFor(env, qs[k], rs[k])
      invariant stage == RewriteRelations(PruneEmpty) ==> NoZeros(qs)
      invariant (old(ctx.changes) ==> ctx.changes) && (!ctx.changes ==> qs == rs[..i])
    {
      SoundIsFormed(env, rs[i]);
      var q := RunStage(stage, rs[i], ctx, env);
      qs := qs + [q];
    }
  }

  lemma ProperSuits(env: Env, rs: seq<Relation>, stage: Stage)
    requires AllProper(env, rs) && (stage.RewriteScalars? && stage.rule.Fold? ==> stage.rule.env == env)
    ensures forall i | 0 <= i < |rs| :: Suits(env, stage, rs[i])
  {
    hide Sound, GoodTree;
  }

  /**
   * One round of all passes. Every relation keeps its columns and its rows, its scalars stay proper, no top-k
   * or limit of nothing is left, and when the round reports no change the program is as it was.
   */
  method Optimize(rs: seq<Relation>, ctx: Context, env: Env, costs: Costs) returns (qs: seq<Relation>)
    requires AllProper(env, rs)
    modifies ctx
    ensures AllStand(env, qs, rs) && NoZeros(qs)
    ensures !ctx.changes ==> qs == rs
  {
    hide AllStand, AllProper, NoZeros, Suits;
    ctx.NextPass();
    var stages := Round(env, costs);
    qs := rs;
    StandsSelf(env, rs);
    for k := 0 to |stages|
      invariant AllStand(env, qs, rs)
      invariant k == |stages| ==> NoZeros(qs)
      invariant !ctx.changes ==> qs == rs
    {
      StandProper(env, qs, rs);
      ProperSuits(env, qs, stages[k]);
      var next := RunStageOnAll(stages[k], qs, ctx, env);
      StandsThen(env, next, qs, rs);
      qs := next;
    }
  }

  /** Rounds until one changes nothing, or as many as the setting allows: the rows of every relation are kept throughout. */
  method OptimizeRounds(rs: seq<Relation>, ctx: Context, passes: nat, env: Env, costs: Costs) returns (qs: seq<Relation>)
    requires AllProper(env, rs)
    modifies ctx
    ensures AllStand(env, qs, rs)
    ensures passes > 0 ==> NoZeros(qs)
  {
    hide AllStand, AllProper, NoZeros;
    qs := rs;
    StandsSelf(env, rs);
    for i := 0 to passes
      invariant AllStand(env, qs, rs)
      invariant i > 0 ==> NoZeros(qs)
    {
      StandProper(env, qs, rs);
      var next := Optimize(qs, ctx, env, costs);
      StandsThen(env, next, qs, rs);
      qs := next;
      if !ctx.changes {
        break;
      }
    }
  }
}
