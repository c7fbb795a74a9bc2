/** A query that reads an aggregated value that is not there: its aggregate is read only in a later phase than its own. */
module LateAggregates {
  import opened Values
  import opened Wrappers
  import opened Sequences
  import opened Scalars
  import opened Relations
  import opened Plans
  import opened Planning
  import opened Pruning

  /** The rows of `SELECT COUNT(*) AS c FROM log` that have a match in a list holding the count. */
  function CountInList(count: int): seq<Node> {
    [
      Node(LogOp("log"), [], [0]),
      Node(AggregateOp([Aggregate(FnAggregate(CountAll, []), 1, IntegerType)]), [0], [1]),
      Node(ValuesOp([Int(count)], 2), [], [2]),
      Node(SemiJoinOp(Field(1, IntegerType), 2), [1, 2], [1])
    ]
  }

  lemma CountInListOk(count: int)
    ensures PlanOk(CountInList(count))
    ensures MinPhase(CountInList(count), 1) == 0 && MinPhase(CountInList(count), 3) == 1
  {
    var nodes := CountInList(count);
    assert NodeOk(nodes, 0);
    assert NodeOk(nodes, 1) by {
      assert InSchemas(nodes, 1) == [[0]];
    }
    assert NodeOk(nodes, 2);
    assert NodeOk(nodes, 3) by {
      assert InSchemas(nodes, 3) == [[1], [2]];
    }
    CountPhases(nodes);
  }

  lemma CountPhases(nodes: seq<Node>)
    requires PlanOk(nodes) && |nodes| == 4
    requires nodes[0].inputs == [] && nodes[1].inputs == [0] && nodes[2].inputs == [] && nodes[3].inputs == [1, 2]
    requires nodes[0].op.LogOp? && nodes[1].op.AggregateOp? && nodes[2].op.ValuesOp? && nodes[3].op.SemiJoinOp?
    ensures MinPhase(nodes, 1) == 0 && MinPhase(nodes, 3) == 1
  {
    hide OpOk;
    assert MinPhase(nodes, 0) == 0;
    assert MinPhase(nodes, 1) == 0;
    assert MinPhase(nodes, 2) == 0;
  }

  /** The join needs the aggregate in phase 1; nothing needs it in phase 0. */
  lemma AskedLate(nodes: seq<Node>, r: Required)
    requires nodes == CountInList(1) && PlanOk(nodes) && |r| == 4 && Closed(nodes, r) && Permitted(nodes, r)
    requires Justified(nodes, r, {3}) && 1 in r[3]
    ensures 1 in r[1] && 0 !in r[1]
  {
    hide OpOk, PlanOk, AskedFields, Closed, Justified, Permitted;
    CountInListOk(1);
    InputsBuilt(nodes, r, 3, 1);
    assert InputPhase(nodes, 3, 1, 0) == 1;
    forall j: nat, q: nat, k: nat ensures !AskedBy(nodes, r, 1, 0, j, q, k) {
      NotAskedEarly(nodes, r, j, q, k);
    }
    if 0 in r[1] {
      NeededAt(nodes, r, {3}, 1, 0);
    }
  }

  /** Only the join reads the aggregate, and it runs in phase 1 or later. */
  lemma NotAskedEarly(nodes: seq<Node>, r: Required, j: nat, q: nat, k: nat)
    requires nodes == CountInList(1) && PlanOk(nodes) && |r| == 4 && Permitted(nodes, r)
    ensures !AskedBy(nodes, r, 1, 0, j, q, k)
  {
    hide OpOk, PlanOk, AskedFields, Permitted;
    CountInListOk(1);
    LaterPhases(nodes, r, 3);
    assert forall n :: 0 <= n < 3 ==> 1 !in nodes[n].inputs;
  }

  lemma LaterPhases(nodes: seq<Node>, r: Required, i: nat)
    requires PlanOk(nodes) && |r| == |nodes| && Permitted(nodes, r) && i < |nodes|
    ensures forall p :: p in r[i] ==> MinPhase(nodes, i) <= p
  {
    forall p | p in r[i] ensures MinPhase(nodes, i) <= p {
      assert MayAsk(nodes, i, p, r[i][p]);
    }
  }

  lemma NeededAt(nodes: seq<Node>, r: Required, roots: set<nat>, i: nat, phase: nat)
    requires PlanOk(nodes) && |r| == |nodes| && Justified(nodes, r, roots) && i < |nodes| && phase in r[i]
    ensures Needed(nodes, r, roots, i, phase)
  {
  }

  // --- rows ---

  lemma OneLine(env: Env, schema: Schema, required: set<FieldId>, line: LogLine)
    requires line.Parsed? && env.lines("log") == [line]
    ensures |LogRows(env, "log", schema, required)| == 1
  {
    FilterAll(KeepLine(env, required), env.lines("log"));
  }

  /** Counting one row. */
  lemma CountsOne(env: Env, rows: seq<Row>)
    requires |rows| == 1
    ensures OpRows(env, CountInList(1)[1].op, [1], [[0]], [rows]) == [[Int(1)]]
  {
    var aggs := CountInList(1)[1].op.aggregates;
    assert AggregateValue(env, [0], rows, aggs[0].node) == Int(1);
    assert AggregateRow(env, [0], rows, aggs) == [Int(1)];
  }

  /** The join keeps the count. */
  lemma JoinsOne(env: Env)
    ensures OpRows(env, CountInList(1)[3].op, [1], [[1], [2]], [[[Int(1)]], [[Int(1)]]]) == [[Int(1)]]
  {
    var key, matches := Field(1, IntegerType), MatchSet([[Int(1)]]);
    assert matches == {Int(1)} by {
      assert [[Int(1)]][0] == [Int(1)];
    }
    assert Slot([1], 1) == 0;
    assert Eval(env, [1], [Int(1)], key) == Int(1);
    FilterAll(MatchFn(env, [1], key, matches), [[Int(1)]]);
  }

  lemma FullAt(env: Env, nodes: seq<Node>, i: nat, ss: seq<Schema>, ins: seq<seq<Row>>)
    requires PlanOk(nodes) && i < |nodes| && |ss| == |ins| == |nodes[i].inputs|
    requires forall k :: 0 <= k < |ins| ==>
      nodes[i].inputs[k] < |nodes| && ss[k] == nodes[nodes[i].inputs[k]].schema && ins[k] == Full(env, nodes, nodes[i].inputs[k])
    ensures ArityIs(nodes[i].op, |ins|) && Full(env, nodes, i) == OpRows(env, nodes[i].op, nodes[i].schema, ss, ins)
  {
    hide OpRows;
    assert NodeOk(nodes, i);
    assert ss == InSchemas(nodes, i) && ins == FullInputs(env, nodes, i);
  }

  lemma FullCount(env: Env, line: LogLine)
    requires line.Parsed? && env.lines("log") == [line]
    ensures PlanOk(CountInList(1)) && Full(env, CountInList(1), 3) == [[Int(1)]]
  {
    hide PlanOk, Full, LogRows;
    CountInListOk(1);
    var nodes := CountInList(1);
    FullAt(env, nodes, 0, [], []);
    OneLine(env, [0], FieldSet([0]), line);
    FullAt(env, nodes, 1, [[0]], [Full(env, nodes, 0)]);
    CountsOne(env, Full(env, nodes, 0));
    FullAt(env, nodes, 2, [], []);
    assert Full(env, nodes, 2) == [[Int(1)]];
    FullAt(env, nodes, 3, [[1], [2]], [[[Int(1)]], [[Int(1)]]]);
    JoinsOne(env);
  }

  /** The aggregate of this plan, read in phase 1 only, has no value for its column. */
  lemma PrunedAggregate(env: Env, nodes: seq<Node>, r: Required, line: LogLine)
    requires nodes == CountInList(1) && PlanOk(nodes) && |r| == 4 && Closed(nodes, r)
    requires 1 in r[1] && MinPhase(nodes, 1) !in r[1] && 1 in r[1][1]
    requires line.Parsed? && env.lines("log") == [line]
    ensures Pruned(nodes, r, InputOrder(env), 1, 1) == None
  {
    hide OpOk, PlanOk, Closed, MinPhase;
    var arrival := InputOrder(env);
    var ins, p := PrunedInputs(nodes, r, arrival, 1, 1), InputPhase(nodes, 1, 1, 0);
    OneLine(env, [0], r[0][p], line);
    assert ins[0] == Pruned(nodes, r, arrival, 0, p);
    assert nodes[1].op.aggregates[0].output == 1;
  }

  lemma PrunedJoin(nodes: seq<Node>, r: Required, arrival: Arrival)
    requires nodes == CountInList(1) && PlanOk(nodes) && |r| == 4 && Closed(nodes, r) && 1 in r[3] && 1 in r[1]
    requires Pruned(nodes, r, arrival, 1, 1) == None
    ensures Pruned(nodes, r, arrival, 3, 1) == None
  {
    hide OpOk, PlanOk, Closed, MinPhase;
    assert InputPhase(nodes, 3, 1, 0) == 1;
    assert PrunedInputs(nodes, r, arrival, 3, 1)[0] == None;
  }

  /** The join asks for the column it matches by. */
  lemma CountAsked(nodes: seq<Node>, r: Required)
    requires nodes == CountInList(1) && PlanOk(nodes) && |r| == 4 && Closed(nodes, r) && 1 in r[3] && 1 in r[1]
    ensures 1 in r[1][1]
  {
    hide OpOk, PlanOk, Closed, MinPhase;
    InputsRecorded(nodes, r, 3, 1);
    assert InputPhase(nodes, 3, 1, 0) == 1;
    assert Asked(nodes, r, 3, 1, r[3][1], 0);
  }

  /**
   * The log has one line and the list holds 1. The query selects the count, but whatever the planner records
   * for it, the planned join reads a value the aggregate does not have.
   */
  lemma CountLost(env: Env, r: Required, line: LogLine)
    requires PlanOk(CountInList(1)) && |r| == 4 && Closed(CountInList(1), r) && Permitted(CountInList(1), r)
    requires Justified(CountInList(1), r, {3}) && 1 in r[3]
    requires line.Parsed? && env.lines("log") == [line]
    ensures Full(env, CountInList(1), 3) == [[Int(1)]]
    ensures Pruned(CountInList(1), r, InputOrder(env), 3, 1) == None
  {
    hide PlanOk, Closed, Full, Pruned, MinPhase, Justified, Permitted;
    var nodes := CountInList(1);
    FullCount(env, line);
    CountInListOk(1);
    AskedLate(nodes, r);
    CountAsked(nodes, r);
    PrunedAggregate(env, nodes, r, line);
    PrunedJoin(nodes, r, InputOrder(env));
  }

  /** The planner does plan this query so. */
  method PlanCount(ghost env: Env, ghost line: LogLine) returns (required: Required)
    requires line.Parsed? && env.lines("log") == [line]
    ensures PlanOk(CountInList(1)) && |required| == 4 && Closed(CountInList(1), required) && 1 in required[3]
    ensures Full(env, CountInList(1), 3) == [[Int(1)]]
    ensures Pruned(CountInList(1), required, InputOrder(env), 3, 1) == None
  {
    CountInListOk(1);
    var planner := new Requirements(CountInList(1));
    planner.Queries([3]);
    required := planner.required;
    assert Recorded(required, [3][0], 1, FieldSet([1]));
    assert planner.roots == {3};
    CountLost(env, required, line);
  }
}
