/** From a lowered program to the rows its sinks receive: optimizer rounds, planner, builder, phases. */
module Pipeline {
  import opened Values
  import opened Sequences
  import opened Scalars
  import opened Relations
  import opened ScalarCost
  import opened Standards
  import opened OptimizerContext
  import opened References
  import opened Plans
  import opened Pointwise
  import opened Pruning
  import opened Programs
  import opened Permutations
  import opened Arrivals
  import opened Cuts
  import opened Deliveries
  import Building
  import Optimizer
  import opened PhaseRun
  import S = Sorting

  function RelationsOf(stmts: seq<Statement>): (rs: seq<Relation>)
    ensures |rs| == |stmts| && forall i | 0 <= i < |stmts| :: rs[i] == stmts[i].relation
  {
    seq(|stmts|, i requires 0 <= i < |stmts| => stmts[i].relation)
  }

  /** The same statements over other relations. */
  function Rebuilt(stmts: seq<Statement>, rs: seq<Relation>): (out: seq<Statement>)
    requires |rs| == |stmts|
    ensures |out| == |stmts| && forall i | 0 <= i < |stmts| :: out[i] == stmts[i].(relation := rs[i])
  {
    seq(|stmts|, i requires 0 <= i < |stmts| => stmts[i].(relation := rs[i]))
  }

  ghost predicate AllReplaced(env: Env, rs: seq<Relation>, stmts: seq<Statement>) {
    && |rs| == |stmts|
    && forall i | 0 <= i < |stmts| ::
         WellFormed(stmts[i].relation) && Replaces(env, rs[i], stmts[i].relation) && KeepsRefs(rs[i], stmts[i].relation)
  }

  lemma {:induction false} SameNamesOf(env: Env, stmts: seq<Statement>, rs: seq<Relation>, i: nat)
    requires AllReplaced(env, rs, stmts) && i <= |stmts|
    ensures NamesOf(Rebuilt(stmts, rs)[..i]) == NamesOf(stmts[..i])
    decreases i
  {
    hide WellFormed, Sound, Denote, KeepsRefs;
    if i > 0 {
      SameNamesOf(env, stmts, rs, i - 1);
      assert stmts[..i][..i - 1] == stmts[..i - 1];
      assert Rebuilt(stmts, rs)[..i][..i - 1] == Rebuilt(stmts, rs)[..i - 1];
      assert rs[i - 1].schema == stmts[i - 1].relation.schema;
    }
  }

  /** The queries of both programs, one by one. */
  ghost predicate SameQueries(env: Env, qs: seq<Relation>, originals: seq<Relation>) {
    && |qs| == |originals|
    && forall q | 0 <= q < |qs| :: WellFormed(originals[q]) && Replaces(env, qs[q], originals[q])
  }

  lemma {:induction false} QueriesReplaced(env: Env, stmts: seq<Statement>, rs: seq<Relation>, i: nat)
    requires AllReplaced(env, rs, stmts) && i <= |stmts|
    ensures SameQueries(env, Queries(Rebuilt(stmts, rs)[..i]), Queries(stmts[..i]))
    decreases i
  {
    hide WellFormed, Sound, Denote, KeepsRefs;
    if i > 0 {
      QueriesReplaced(env, stmts, rs, i - 1);
      assert stmts[..i][..i - 1] == stmts[..i - 1];
      assert Rebuilt(stmts, rs)[..i][..i - 1] == Rebuilt(stmts, rs)[..i - 1];
    }
  }

  /** A program of replaced relations is as well-formed, means the same, and asks the same queries. */
  lemma ReplacedProgram(env: Env, stmts: seq<Statement>, rs: seq<Relation>)
    requires ProgramOk(stmts) && Interprets(env, stmts) && AllReplaced(env, rs, stmts)
    ensures var out := Rebuilt(stmts, rs);
            ProgramOk(out) && Interprets(env, out) && SameQueries(env, Queries(out), Queries(stmts))
  {
    hide WellFormed, Sound, Denote;
    var out := Rebuilt(stmts, rs);
    forall i | 0 <= i < |out|
      ensures WellFormed(out[i].relation) && RefsIn(NamesOf(out[..i]), out[i].relation)
      ensures out[i].NamedStatement? ==> out[i].name !in NamesOf(out[..i])
    {
      SameNamesOf(env, stmts, rs, i);
      ProgramAt(stmts, i);
      Optimizer.SoundIsFormed(env, rs[i]);
    }
    QueriesReplaced(env, stmts, rs, |stmts|);
    assert out[..|stmts|] == out && stmts[..|stmts|] == stmts;
  }

  /** The statements' relations are sound, with proper scalars. */
  ghost predicate ProperProgram(env: Env, stmts: seq<Statement>) {
    forall i | 0 <= i < |stmts| :: Sound(env, stmts[i].relation) && ProperTree(env, stmts[i].relation)
  }

  lemma StandReplaced(env: Env, stmts: seq<Statement>, rs: seq<Relation>)
    requires Optimizer.AllStand(env, rs, RelationsOf(stmts))
    ensures AllReplaced(env, rs, stmts) && ProperProgram(env, Rebuilt(stmts, rs))
    ensures Optimizer.NoZeros(rs) ==> NoZeroCounts(Rebuilt(stmts, rs))
  {
    hide GoodTree, WellFormed, Sound, Denote, KeepsRefs;
    forall i | 0 <= i < |stmts|
      ensures WellFormed(stmts[i].relation) && Replaces(env, rs[i], stmts[i].relation) && KeepsRefs(rs[i], stmts[i].relation)
      ensures Sound(env, rs[i]) && ProperTree(env, rs[i])
    {
      assert RelationsOf(stmts)[i] == stmts[i].relation;
      assert Optimizer.StandsFor(env, rs[i], RelationsOf(stmts)[i]);
    }
  }

  /** Rounds of the optimizer over the statements of a program, as many as its setting allows. */
  method OptimizeProgram(stmts: seq<Statement>, ctx: Context, passes: nat, env: Env, costs: Costs) returns (out: seq<Statement>)
    requires ProgramOk(stmts) && Interprets(env, stmts) && ProperProgram(env, stmts)
    modifies ctx
    ensures ProgramOk(out) && Interprets(env, out) && SameQueries(env, Queries(out), Queries(stmts))
    ensures ProperProgram(env, out) && (passes > 0 ==> NoZeroCounts(out))
  {
    hide ProgramOk, Interprets, Sound, GoodTree, WellFormed, Denote, KeepsRefs, NoZeroCounts, Optimizer.AllStand, Optimizer.NoZeros;
    assert Optimizer.AllProper(env, RelationsOf(stmts)) by {
      assert forall i | 0 <= i < |stmts| :: RelationsOf(stmts)[i] == stmts[i].relation;
    }
    var rs := Optimizer.OptimizeRounds(RelationsOf(stmts), ctx, passes, env, costs);
    StandReplaced(env, stmts, rs);
    ReplacedProgram(env, stmts, rs);
    out := Rebuilt(stmts, rs);
  }

  lemma DeliversOriginals(env: Env, nodes: seq<Node>, required: Required, tops: seq<nat>, qs: seq<Relation>, originals: seq<Relation>)
    requires PlanOk(nodes) && |required| == |nodes| && Closed(nodes, required) && |tops| == |qs|
    requires DeliversQueries(env, nodes, required, tops, qs) && SameQueries(env, qs, originals)
    ensures DeliversQueries(env, nodes, required, tops, originals)
  {
    hide PlanOk, Closed, WellFormed, Sound, Denote, Pruned, MinPhase;
    forall q | 0 <= q < |tops| ensures qs[q].schema == originals[q].schema && Denote(env, qs[q]) == Denote(env, originals[q]) {
    }
  }

  lemma MeansOriginals(env: Env, nodes: seq<Node>, tops: seq<nat>, qs: seq<Relation>, originals: seq<Relation>)
    requires PlanOk(nodes) && TopsOk(env, nodes, tops, qs) && SameQueries(env, qs, originals)
    ensures TopsOk(env, nodes, tops, originals)
  {
    hide PlanOk, WellFormed, Sound, Denote, Full;
    forall q | 0 <= q < |tops| ensures qs[q].schema == originals[q].schema && Denote(env, qs[q]) == Denote(env, originals[q]) {
    }
  }

  /**
   * Optimizing a program and planning the result: every planned query operation means the query as it was written
   * and, built with the required columns only and run in input order, delivers its rows.
   */
  method CompileProgram(stmts: seq<Statement>, ctx: Context, passes: nat, env: Env, costs: Costs)
    returns (nodes: seq<Node>, tops: seq<nat>, required: Required)
    requires ProgramOk(stmts) && Interprets(env, stmts) && ProperProgram(env, stmts)
    modifies ctx
    ensures PlanOk(nodes) && |required| == |nodes| && Closed(nodes, required) && Permitted(nodes, required)
    ensures TopsRecorded(nodes, required, tops) && Justified(nodes, required, Members(tops))
    ensures passes > 0 ==> CountsPositive(nodes)
    ensures |tops| == |Queries(stmts)| && forall q :: 0 <= q < |tops| ==> nodes[tops[q]].schema == Queries(stmts)[q].schema
    ensures TopsOk(env, nodes, tops, Queries(stmts))
    ensures ScansOk(env, nodes, required) && AggregatesKept(env, nodes, required) ==>
              DeliversQueries(env, nodes, required, tops, Queries(stmts))
  {
    hide PlanOk, Closed, Permitted, ScansOk, AggregatesKept, DeliversQueries, ProgramOk, Interprets, ProperProgram, Justified,
         CountsPositive, NoZeroCounts, Sound, WellFormed, Denote, TopsOk;
    var out := OptimizeProgram(stmts, ctx, passes, env, costs);
    nodes, tops, required := PlanProgram(out, env);
    MeansOriginals(env, nodes, tops, Queries(out), Queries(stmts));
    if ScansOk(env, nodes, required) && AggregatesKept(env, nodes, required) {
      DeliversOriginals(env, nodes, required, tops, Queries(out), Queries(stmts));
    }
  }

  // --- sinks ---

  /** A query's consumer takes one value for every column, null for slots a record does not have. */
  function Taken(schema: Schema, emitted: Emission): Emission {
    match emitted
    case Emits(rows) => Emits(Map(PadFn(|schema|), rows))
    case _ => emitted
  }

  function Received(schemas: seq<Schema>, emitted: seq<Emission>): (received: seq<Emission>)
    requires |schemas| == |emitted|
    ensures |received| == |emitted| && forall q :: 0 <= q < |received| ==> received[q] == Taken(schemas[q], emitted[q])
  {
    seq(|emitted|, q requires 0 <= q < |emitted| => Taken(schemas[q], emitted[q]))
  }

  /** Rows that agree with full rows on every column are those rows once padded. */
  lemma PaddedRows(s: Schema, a: seq<Row>, b: seq<Row>)
    requires Distinct(s) && RowsFit(b, |s|) && Alike(SameOn(s, FieldSet(s)), a, b)
    ensures Map(PadFn(|s|), a) == b
  {
    forall i | 0 <= i < |a| ensures Pad(a[i], |s|) == b[i] {
      assert SameOn(s, FieldSet(s))(a[i], b[i]);
      forall k | 0 <= k < |s| ensures Pad(a[i], |s|)[k] == b[i][k] {
        SlotUnique(s, k);
        assert s[k] in FieldSet(s) && At(s, a[i], s[k]) == At(s, b[i], s[k]);
      }
    }
  }

  lemma QueryReceived(env: Env, nodes: seq<Node>, required: Required, tops: seq<nat>, queries: seq<Relation>, q: nat)
    requires PlanOk(nodes) && |required| == |nodes| && Closed(nodes, required) && |tops| == |queries| && q < |tops|
    requires DeliversQueries(env, nodes, required, tops, queries)
    ensures tops[q] < |nodes| && MinPhase(nodes, tops[q]) in required[tops[q]] && WellFormed(queries[q])
    ensures Taken(queries[q].schema, ToEmission(Pruned(nodes, required, InputOrder(env), tops[q], MinPhase(nodes, tops[q])))) ==
            Emits(Denote(env, queries[q]))
  {
    hide PlanOk, Closed, Pruned, MinPhase, Denote;
    DenoteFits(env, queries[q]);
    assert Distinct(queries[q].schema);
    PaddedRows(queries[q].schema, Pruned(nodes, required, InputOrder(env), tops[q], MinPhase(nodes, tops[q])).value,
               Denote(env, queries[q]));
  }

  /** A consumer got the rows a query means, in some order: in this one if the plan settles it, and sorted if they come sorted. */
  ghost predicate Answers(env: Env, nodes: seq<Node>, top: nat, query: Relation, received: Emission)
    requires PlanOk(nodes)
  {
    && top < |nodes| && WellFormed(query) && received.Emits?
    && Permuted(received.rows, Denote(env, query))
    && (Settled(env, nodes, top) ==> received.rows == Denote(env, query))
    && forall order, desc :: ComesSorted(env, nodes, top, order, desc) && AllFields(order) <= FieldSet(query.schema) ==>
         S.Sorted(KeyFn(env, query.schema, order), desc, received.rows)
  }

  lemma PaddedSorted(env: Env, s: Schema, order: seq<Scalar>, desc: bool, rows: seq<Row>)
    requires S.Sorted(KeyFn(env, s, order), desc, rows)
    ensures S.Sorted(KeyFn(env, s, order), desc, Map(PadFn(|s|), rows))
  {
    var key, padded := KeyFn(env, s, order), Map(PadFn(|s|), rows);
    forall i | 0 <= i < |rows| ensures key(padded[i]) == key(rows[i]) {
      forall f | f in AllFields(order) ensures At(s, padded[i], f) == At(s, rows[i], f) {
        AtPad(s, rows[i], f);
      }
      EvalAllAgree(env, s, padded[i], s, rows[i], order);
    }
    assert Map(key, padded) == Map(key, rows);
    SortedByKeys(key, desc, rows, padded);
  }

  /** Rows that arrive rearranged are received rearranged. */
  lemma ArrangedReceived(s: Schema, all: set<FieldId>, sure: bool, rows: seq<Row>, c: seq<Row>, full: seq<Row>)
    requires Arranged(s, all, sure, rows, c, full) && FieldSet(s) <= all && Distinct(s) && RowsFit(full, |s|)
    ensures Permuted(Map(PadFn(|s|), rows), full) && (sure ==> Map(PadFn(|s|), rows) == full)
  {
    hide Pad;
    SameOnFewer(s, FieldSet(s), all, c, full);
    PaddedRows(s, c, full);
    S.MapMultiset(PadFn(|s|), rows, c);
  }

  lemma QueryAnswered(env: Env, nodes: seq<Node>, required: Required, arrival: Arrival, tops: seq<nat>, queries: seq<Relation>, q: nat)
    requires PlanOk(nodes) && |required| == |nodes| && Closed(nodes, required) && Permitted(nodes, required) && q < |tops|
    requires TopsOk(env, nodes, tops, queries) && TopsRecorded(nodes, required, tops)
    requires ScansOk(env, nodes, required) && AggregatesKept(env, nodes, required)
    requires Honest(env, arrival) && OrderFree(env) && CutsSettled(env, nodes)
    ensures MinPhase(nodes, tops[q]) in required[tops[q]]
    ensures Answers(env, nodes, tops[q], queries[q],
                    Taken(queries[q].schema, ToEmission(Pruned(nodes, required, arrival, tops[q], MinPhase(nodes, tops[q])))))
  {
    hide PlanOk, Closed, Permitted, Pruned, Full, MinPhase, Denote, WellFormed, ScansOk, AggregatesKept, Honest, OrderFree, CutsSettled,
         Settled, Arranged, ComesSorted, S.Sorted;
    var top, phase, s := tops[q], MinPhase(nodes, tops[q]), queries[q].schema;
    assert Recorded(required, top, phase, FieldSet(nodes[top].schema));
    RunArrives(env, nodes, required, arrival, top, phase);
    var rows := Pruned(nodes, required, arrival, top, phase).value;
    var c :| Arranged(s, required[top][phase], Settled(env, nodes, top), rows, c, Full(env, nodes, top));
    QueryFits(env, queries[q]);
    ArrangedReceived(s, required[top][phase], Settled(env, nodes, top), rows, c, Denote(env, queries[q]));
    forall order, desc | ComesSorted(env, nodes, top, order, desc) && AllFields(order) <= FieldSet(s)
      ensures S.Sorted(KeyFn(env, s, order), desc, Map(PadFn(|s|), rows))
    {
      SortedArrives(env, nodes, required, arrival, top, phase, order, desc);
      PaddedSorted(env, s, order, desc, rows);
    }
  }

  lemma QueryFits(env: Env, query: Relation)
    requires WellFormed(query)
    ensures Distinct(query.schema) && RowsFit(Denote(env, query), |query.schema|)
  {
    DenoteFits(env, query);
  }

  /**
   * A whole program: optimized, planned, built and run phase by phase, whatever the order in which its operations
   * leave their rows. No lookup of the builder fails and no operation reads an unfinished hash table. As long as
   * scans keep their lines and late aggregates are asked for nothing, the consumer of each query receives, in a run in
   * input order, exactly the rows the query means; in any run the same rows, rearranged, if no cut depends on the order,
   * and sorted where the plan sorts them.
   */
  method RunProgram(stmts: seq<Statement>, ctx: Context, passes: nat, env: Env, costs: Costs, arrival: Arrival)
    returns (received: seq<Emission>, nodes: seq<Node>, tops: seq<nat>, required: Required)
    requires ProgramOk(stmts) && Interprets(env, stmts) && ProperProgram(env, stmts) && Honest(env, arrival)
    modifies ctx
    ensures PlanOk(nodes) && |required| == |nodes| && Closed(nodes, required) && Permitted(nodes, required)
    ensures passes > 0 ==> CountsPositive(nodes)
    ensures |received| == |tops| == |Queries(stmts)| && NotFinished !in received
    ensures ScansOk(env, nodes, required) && AggregatesKept(env, nodes, required) && arrival == InputOrder(env) ==>
      forall q :: 0 <= q < |received| ==> WellFormed(Queries(stmts)[q]) && received[q] == Emits(Denote(env, Queries(stmts)[q]))
    ensures ScansOk(env, nodes, required) && AggregatesKept(env, nodes, required) && OrderFree(env) && CutsSettled(env, nodes) ==>
      forall q :: 0 <= q < |received| ==> Answers(env, nodes, tops[q], Queries(stmts)[q], received[q])
  {
    hide PlanOk, Closed, Permitted, ScansOk, AggregatesKept, DeliversQueries, ProgramOk, Interprets, ProperProgram, Justified,
         CountsPositive, WellFormed, Denote, Building.LinksOk, Building.AllConnected, MinPhase, ProgramBuilt, Pruned, Queries,
         TopsOk, Honest, OrderFree, CutsSettled, Answers, InputOrder;
    nodes, tops, required := CompileProgram(stmts, ctx, passes, env, costs);
    var b := Building.BuildAll(nodes, required, tops);
    BuilderBuilt(b, tops);
    var emitted := Run(env, nodes, required, arrival, b.links, tops);
    ghost var queries := Queries(stmts);
    var schemas := seq(|tops|, q requires 0 <= q < |tops| => nodes[tops[q]].schema);
    received := Received(schemas, emitted);
    if ScansOk(env, nodes, required) && AggregatesKept(env, nodes, required) {
      if arrival == InputOrder(env) {
        forall q | 0 <= q < |received| ensures WellFormed(queries[q]) && received[q] == Emits(Denote(env, queries[q])) {
          QueryReceived(env, nodes, required, tops, queries, q);
        }
      }
      if OrderFree(env) && CutsSettled(env, nodes) {
        forall q | 0 <= q < |received| ensures Answers(env, nodes, tops[q], queries[q], received[q]) {
          QueryAnswered(env, nodes, required, arrival, tops, queries, q);
        }
      }
    }
  }
}
