/** Programs: named relations and queries, planned together over one shared DAG. */
module Programs {
  import opened Scalars
  import opened Relations
  import opened Plans
  import opened Planning
  import opened Pointwise
  import opened Pruning
  import opened Lowering
  import EmptyPrune

  datatype Statement = NamedStatement(name: string, relation: Relation) | QueryStatement(relation: Relation)

  /** References go to known names and have the schema of what they refer to. */
  predicate RefsIn(names: map<string, Schema>, r: Relation) {
    && (r.op.NamedOp? ==> r.op.name in names && names[r.op.name] == r.schema)
    && forall k :: 0 <= k < |r.inputs| ==> RefsIn(names, r.inputs[k])
  }

  /** The names known after the first statements. */
  function NamesOf(stmts: seq<Statement>): map<string, Schema> {
    if stmts == [] then map[]
    else
      var names, last := NamesOf(stmts[..|stmts| - 1]), stmts[|stmts| - 1];
      if last.NamedStatement? then names[last.name := last.relation.schema] else names
  }

  /** A lowered program: names are defined once, before they are used. */
  predicate ProgramOk(stmts: seq<Statement>) {
    forall i :: 0 <= i < |stmts| ==>
      && WellFormed(stmts[i].relation)
      && RefsIn(NamesOf(stmts[..i]), stmts[i].relation)
      && (stmts[i].NamedStatement? ==> stmts[i].name !in NamesOf(stmts[..i]))
  }

  /** The queries of a program, in order. */
  function Queries(stmts: seq<Statement>): seq<Relation> {
    if stmts == [] then []
    else
      var last := stmts[|stmts| - 1];
      Queries(stmts[..|stmts| - 1]) + if last.QueryStatement? then [last.relation] else []
  }

  /** The environment gives every named relation the rows of its definition. */
  ghost predicate Interprets(env: Env, stmts: seq<Statement>)
    requires ProgramOk(stmts)
  {
    forall i :: 0 <= i < |stmts| && stmts[i].NamedStatement? ==> env.named(stmts[i].name) == Denote(env, stmts[i].relation)
  }

  lemma ProgramAt(stmts: seq<Statement>, i: nat)
    requires ProgramOk(stmts) && i < |stmts|
    ensures WellFormed(stmts[i].relation) && RefsIn(NamesOf(stmts[..i]), stmts[i].relation)
    ensures stmts[i].NamedStatement? ==> stmts[i].name !in NamesOf(stmts[..i])
    ensures stmts[..i + 1] == stmts[..i] + [stmts[i]]
  {
  }

  /** The plan's names are the program's names, with the same schemas. */
  ghost predicate SameNames(nodes: seq<Node>, named: Names, names: map<string, Schema>) {
    && named.Keys == names.Keys
    && forall n :: n in named ==> named[n] < |nodes| && nodes[named[n]].schema == names[n]
  }

  lemma {:induction false} RefsResolve(nodes: seq<Node>, named: Names, names: map<string, Schema>, r: Relation)
    requires SameNames(nodes, named, names) && RefsIn(names, r)
    ensures RefsFit(nodes, named, r) && Resolved(named.Keys, r)
  {
    forall k | 0 <= k < |r.inputs| ensures RefsFit(nodes, named, r.inputs[k]) && Resolved(named.Keys, r.inputs[k]) {
      RefsResolve(nodes, named, names, r.inputs[k]);
    }
  }

  /** The operations in `tops` have the columns and the rows of the queries. */
  ghost predicate TopsOk(env: Env, nodes: seq<Node>, tops: seq<nat>, queries: seq<Relation>)
    requires PlanOk(nodes)
  {
    |tops| == |queries| && forall q :: 0 <= q < |tops| ==>
      && WellFormed(queries[q]) && tops[q] < |nodes|
      && nodes[tops[q]].schema == queries[q].schema
      && Full(env, nodes, tops[q]) == Denote(env, queries[q])
  }

  lemma TopsGrow(env: Env, nodes: seq<Node>, more: seq<Node>, tops: seq<nat>, queries: seq<Relation>)
    requires PlanOk(nodes) && PlanOk(more) && nodes <= more && TopsOk(env, nodes, tops, queries)
    ensures TopsOk(env, more, tops, queries)
  {
    hide OpOk, OpRows, WellFormed, Denote;
    forall q | 0 <= q < |tops| ensures Full(env, more, tops[q]) == Denote(env, queries[q]) {
      FullStable(env, nodes, more, tops[q]);
    }
  }

  /** The first `i` statements have been planned. */
  ghost predicate StatementsPlanned(env: Env, nodes: seq<Node>, named: Names, tops: seq<nat>, stmts: seq<Statement>, i: nat)
    requires i <= |stmts|
  {
    && PlanOk(nodes) && NamesOk(env, nodes, named)
    && SameNames(nodes, named, NamesOf(stmts[..i]))
    && TopsOk(env, nodes, tops, Queries(stmts[..i]))
  }

  lemma StatementReady(env: Env, nodes: seq<Node>, named: Names, tops: seq<nat>, stmts: seq<Statement>, i: nat)
    requires ProgramOk(stmts) && i < |stmts| && StatementsPlanned(env, nodes, named, tops, stmts, i)
    ensures WellFormed(stmts[i].relation)
    ensures RefsFit(nodes, named, stmts[i].relation) && Resolved(named.Keys, stmts[i].relation)
  {
    ProgramAt(stmts, i);
    RefsResolve(nodes, named, NamesOf(stmts[..i]), stmts[i].relation);
  }

  lemma NameStep(env: Env, nodes: seq<Node>, more: seq<Node>, named: Names, tops: seq<nat>, stmts: seq<Statement>, i: nat, op: nat)
    requires ProgramOk(stmts) && Interprets(env, stmts) && i < |stmts| && stmts[i].NamedStatement?
    requires StatementsPlanned(env, nodes, named, tops, stmts, i)
    requires WellFormed(stmts[i].relation) && Planned(env, nodes, more, op, stmts[i].relation)
    ensures StatementsPlanned(env, more, named[stmts[i].name := op], tops, stmts, i + 1)
  {
    hide OpOk, OpRows, WellFormed, Denote, Full;
    ProgramAt(stmts, i);
    assert stmts[..i + 1][..i] == stmts[..i];
    TopsGrow(env, nodes, more, tops, Queries(stmts[..i]));
    NamesGrow(env, nodes, more, named);
  }

  lemma QueryStep(env: Env, nodes: seq<Node>, more: seq<Node>, named: Names, tops: seq<nat>, stmts: seq<Statement>, i: nat, op: nat)
    requires ProgramOk(stmts) && i < |stmts| && stmts[i].QueryStatement?
    requires StatementsPlanned(env, nodes, named, tops, stmts, i)
    requires WellFormed(stmts[i].relation) && Planned(env, nodes, more, op, stmts[i].relation)
    ensures StatementsPlanned(env, more, named, tops + [op], stmts, i + 1)
  {
    hide OpOk, OpRows, WellFormed, Denote, Full;
    ProgramAt(stmts, i);
    assert stmts[..i + 1][..i] == stmts[..i];
    TopsGrow(env, nodes, more, tops, Queries(stmts[..i]));
    NamesGrow(env, nodes, more, named);
  }

  ghost predicate NoZeroCounts(stmts: seq<Statement>) {
    forall i :: 0 <= i < |stmts| ==> EmptyPrune.NoZeroCount(stmts[i].relation)
  }

  /** Plans every statement: queries become operations with the meaning of the query. */
  method PlanStatements(stmts: seq<Statement>, ghost env: Env) returns (nodes: seq<Node>, tops: seq<nat>)
    requires ProgramOk(stmts) && Interprets(env, stmts)
    ensures PlanOk(nodes) && TopsOk(env, nodes, tops, Queries(stmts))
    ensures NoZeroCounts(stmts) ==> CountsPositive(nodes)
  {
    var b := new PlanBuilder();
    tops := [];
    var i := 0;
    while i < |stmts|
      invariant 0 <= i <= |stmts|
      invariant StatementsPlanned(env, b.nodes, b.named, tops, stmts, i)
      invariant NoZeroCounts(stmts) ==> CountsPositive(b.nodes)
    {
      hide CountsPositive, EmptyPrune.NoZeroCount, WellFormed, OpOk, RefsFit, Resolved, Interprets, ProgramOk, TopsOk, SameNames, NamesOf, Queries, PlanOk, NamesOk, Planned;
      ghost var before := b.nodes;
      StatementReady(env, b.nodes, b.named, tops, stmts, i);
      var op := b.PlanRelation(stmts[i].relation, env);
      match stmts[i] {
        case NamedStatement(name, _) =>
          NameStep(env, before, b.nodes, b.named, tops, stmts, i, op.value);
          b.named := b.named[name := op.value];
        case QueryStatement(_) =>
          QueryStep(env, before, b.nodes, b.named, tops, stmts, i, op.value);
          tops := tops + [op.value];
      }
      i := i + 1;
    }
    assert stmts[..i] == stmts;
    nodes := b.nodes;
  }

  /** Run in input order, every query's operation delivers the rows of the query in its phase, column for column. */
  ghost predicate DeliversQueries(env: Env, nodes: seq<Node>, required: Required, tops: seq<nat>, queries: seq<Relation>)
    requires PlanOk(nodes) && |required| == |nodes| && Closed(nodes, required) && |tops| == |queries|
  {
    forall q :: 0 <= q < |tops| ==>
      && tops[q] < |nodes| && WellFormed(queries[q]) && MinPhase(nodes, tops[q]) in required[tops[q]]
      && Agree(queries[q].schema, FieldSet(queries[q].schema),
               Pruned(nodes, required, InputOrder(env), tops[q], MinPhase(nodes, tops[q])), Denote(env, queries[q]))
  }

  lemma QueriesDelivered(env: Env, nodes: seq<Node>, required: Required, tops: seq<nat>, queries: seq<Relation>)
    requires PlanOk(nodes) && |required| == |nodes| && Closed(nodes, required) && Permitted(nodes, required)
    requires ScansOk(env, nodes, required) && AggregatesKept(env, nodes, required)
    requires TopsOk(env, nodes, tops, queries) && TopsRecorded(nodes, required, tops)
    ensures DeliversQueries(env, nodes, required, tops, queries)
  {
    hide OpOk, OpRows, WellFormed, Denote, Full, Pruned, ClosedNode;
    forall q | 0 <= q < |tops|
      ensures MinPhase(nodes, tops[q]) in required[tops[q]]
      ensures Agree(queries[q].schema, FieldSet(queries[q].schema),
                    Pruned(nodes, required, InputOrder(env), tops[q], MinPhase(nodes, tops[q])), Denote(env, queries[q]))
    {
      var top, phase := tops[q], MinPhase(nodes, tops[q]);
      assert Recorded(required, top, phase, FieldSet(nodes[top].schema));
      PruningSound(env, nodes, required, top, phase);
      assert Delivers(env, nodes, required, top, phase);
      SameOnFewer(queries[q].schema, FieldSet(queries[q].schema), required[top][phase],
                  Pruned(nodes, required, InputOrder(env), top, phase).value, Full(env, nodes, top));
    }
  }

  /**
   * Planning a whole program: no check fails, exactly the phases somebody needs are recorded, and as long as
   * no log is read in a way that changes which lines it keeps and no aggregate is asked too late for a value, each
   * query's pruned operation, run in input order, delivers exactly what the query means.
   */
  method PlanProgram(stmts: seq<Statement>, ghost env: Env)
    returns (nodes: seq<Node>, tops: seq<nat>, required: Required)
    requires ProgramOk(stmts) && Interprets(env, stmts)
    ensures PlanOk(nodes) && |required| == |nodes| && Closed(nodes, required) && Permitted(nodes, required)
    ensures TopsRecorded(nodes, required, tops) && Justified(nodes, required, Members(tops))
    ensures NoZeroCounts(stmts) ==> CountsPositive(nodes)
    ensures |tops| == |Queries(stmts)| && forall q :: 0 <= q < |tops| ==> nodes[tops[q]].schema == Queries(stmts)[q].schema
    ensures TopsOk(env, nodes, tops, Queries(stmts))
    ensures ScansOk(env, nodes, required) && AggregatesKept(env, nodes, required) ==>
      DeliversQueries(env, nodes, required, tops, Queries(stmts))
  {
    nodes, tops := PlanStatements(stmts, env);
    assert forall q :: 0 <= q < |tops| ==> tops[q] < |nodes|;
    hide OpOk, OpRows, WellFormed, Denote, Full, Pruned, ClosedNode, ProgramOk, Interprets;
    var planner := new Requirements(nodes);
    planner.Queries(tops);
    required := planner.required;
    if ScansOk(env, nodes, required) && AggregatesKept(env, nodes, required) {
      QueriesDelivered(env, nodes, required, tops, Queries(stmts));
    }
  }
}
