/** A query over a shared limit that two phases of one run answer differently. */
module SharedCuts {
  import opened Values
  import opened Wrappers
  import opened Sequences
  import opened Scalars
  import opened Relations
  import opened Plans
  import opened Planning
  import opened Pruning
  import opened Arrivals
  import opened Cuts

  /** With `x` one of the rows 1 and 2, whichever comes first: the rows of `x` that have a match in `x`. */
  function FirstInFirst(): seq<Node> {
    [
      Node(ValuesOp([Int(1)], 0), [], [0]),
      Node(ValuesOp([Int(2)], 0), [], [0]),
      Node(UnionAllOp, [0, 1], [0]),
      Node(LimitOp(1), [2], [0]),
      Node(SemiJoinOp(Field(0, IntegerType), 0), [3, 3], [0])
    ]
  }

  /** A run in which the second input of a union is first in phase 1. */
  function SecondFirst(env: Env): Arrival {
    (t: Turn) => if t.op.UnionAllOp? && |t.ins| == 2 && t.phase == 1 then t.ins[1] + t.ins[0] else InputOrder(env)(t)
  }

  lemma SecondFirstHonest(env: Env)
    ensures Honest(env, SecondFirst(env))
  {
    hide MayEmit, SecondFirst;
    forall t: Turn | TurnOk(t) ensures MayEmit(env, t, SecondFirst(env)(t)) {
      SecondFirstMay(env, t);
    }
  }

  lemma SecondFirstMay(env: Env, t: Turn)
    requires TurnOk(t)
    ensures MayEmit(env, t, SecondFirst(env)(t))
  {
    hide MayEmit, PhysRows;
    if t.op.UnionAllOp? && |t.ins| == 2 && t.phase == 1 {
      SwappedUnion(env, t);
    } else {
      InputOrderMay(env, t);
      assert SecondFirst(env)(t) == InputOrder(env)(t);
    }
  }

  lemma SwappedUnion(env: Env, t: Turn)
    requires TurnOk(t) && t.op.UnionAllOp? && |t.ins| == 2
    ensures MayEmit(env, t, t.ins[1] + t.ins[0])
  {
    hide Interleaved;
    var a, b := t.ins[0], t.ins[1];
    PartsInterleaved(a, b, 0, |b|);
    assert Parts(a, b, 0, |b|) == b + a;
    assert t.ins == [a, b];
  }

  lemma FirstInFirstOk()
    ensures PlanOk(FirstInFirst())
  {
    hide OpOk, FirstInFirst;
    forall i | 0 <= i < |FirstInFirst()| ensures NodeOk(FirstInFirst(), i) {
      FirstNodeOk(i);
    }
  }

  lemma FirstNodeOk(i: nat)
    requires i < |FirstInFirst()|
    ensures NodeOk(FirstInFirst(), i)
  {
    hide OpOk;
    var nodes := FirstInFirst();
    FirstOpsOk();
    assert i >= 2 ==> nodes[i].inputs == if i == 2 then [0, 1] else if i == 3 then [2] else [3, 3];
    assert InSchemas(nodes, i) == if i < 2 then [] else if i == 3 then [[0]] else [[0], [0]];
  }

  lemma FirstOpsOk()
    ensures forall v :: OpOk(ValuesOp([v], 0), [0], [])
    ensures OpOk(UnionAllOp, [0], [[0], [0]]) && OpOk(LimitOp(1), [0], [[0]])
    ensures OpOk(SemiJoinOp(Field(0, IntegerType), 0), [0], [[0], [0]])
  {
  }

  lemma FirstPhases(nodes: seq<Node>)
    requires PlanOk(nodes) && |nodes| == 5
    requires nodes[0].inputs == nodes[1].inputs == [] && nodes[2].inputs == [0, 1] && nodes[3].inputs == [2] && nodes[4].inputs == [3, 3]
    requires nodes[0].op.ValuesOp? && nodes[1].op.ValuesOp? && nodes[2].op.UnionAllOp? && nodes[3].op.LimitOp? && nodes[4].op.SemiJoinOp?
    ensures MinPhase(nodes, 3) == 0 && MinPhase(nodes, 4) == 1
  {
    hide OpOk, PlanOk;
    assert MinPhase(nodes, 0) == 0 && MinPhase(nodes, 1) == 0;
    assert InputMinPhases(nodes, 2) == [0, 0];
    assert Greatest([0, 0][..1]) == 0;
    assert MinPhase(nodes, 2) == 0;
    assert MinPhase(nodes, 3) == 0;
  }

  /** The join of one row with one row. */
  lemma JoinsFirst(env: Env, a: Value, b: Value)
    requires a != Null
    ensures OpRows(env, FirstInFirst()[4].op, [0], [[0], [0]], [[[a]], [[b]]]) == if a == b then [[a]] else []
  {
    var key, matches := Field(0, IntegerType), MatchSet([[b]]);
    assert matches == {b} by {
      assert [[b]][0] == [b];
    }
    assert Slot([0], 0) == 0;
    assert Eval(env, [0], [a], key) == a;
    if a == b {
      FilterAll(MatchFn(env, [0], key, matches), [[a]]);
    } else {
      FilterNone(MatchFn(env, [0], key, matches), [[a]]);
    }
  }

  /** An operation of this plan in one phase of a run. */
  lemma RunsTurn(nodes: seq<Node>, r: Required, arrival: Arrival, i: nat, phase: nat, ins: seq<seq<Row>>)
    requires PlanOk(nodes) && |r| == |nodes| && Closed(nodes, r) && i < |nodes| && phase in r[i]
    requires !nodes[i].op.AggregateOp? && |ins| == |nodes[i].inputs|
    requires forall k :: 0 <= k < |ins| ==> PrunedInputs(nodes, r, arrival, i, phase)[k] == Some(ins[k])
    ensures Pruned(nodes, r, arrival, i, phase) == Some(arrival(TurnOf(nodes, r, i, phase, ins)))
  {
    hide OpOk, Closed, MinPhase;
    assert RowsOf(PrunedInputs(nodes, r, arrival, i, phase)) == ins;
  }

  lemma ListRows(nodes: seq<Node>, r: Required, env: Env, arrival: Arrival, i: nat, phase: nat)
    requires PlanOk(nodes) && |r| == |nodes| && Closed(nodes, r) && i < |nodes| && phase in r[i]
    requires nodes[i].op == ValuesOp([Int(i + 1)], 0) && nodes[i].inputs == [] && Honest(env, arrival)
    ensures Pruned(nodes, r, arrival, i, phase) == Some([[Int(i + 1)]])
  {
    hide OpOk, PlanOk, Closed, MinPhase, Pruned;
    RunsTurn(nodes, r, arrival, i, phase, []);
    var t := TurnOf(nodes, r, i, phase, []);
    assert MayEmit(env, t, arrival(t)) by {
      assert TurnOk(t);
    }
    assert arrival(t) == [[Int(i + 1)]];
  }

  /** The rows of the union in one phase: the run decides their order. */
  function UnionTurn(r: Required, phase: nat): Turn
    requires |r| == 5 && phase in r[2]
  {
    Turn(2, phase, UnionAllOp, r[2][phase], [0], [[0], [0]], [[[Int(1)]], [[Int(2)]]])
  }

  lemma UnionRows(nodes: seq<Node>, r: Required, env: Env, arrival: Arrival, phase: nat)
    requires nodes == FirstInFirst() && PlanOk(nodes) && |r| == 5 && Closed(nodes, r) && phase in r[2] && Honest(env, arrival)
    ensures Pruned(nodes, r, arrival, 2, phase) == Some(arrival(UnionTurn(r, phase)))
  {
    hide OpOk, PlanOk, Closed, MinPhase, Pruned;
    assert nodes[2].inputs == [0, 1];
    InputsBuilt(nodes, r, 2, phase);
    assert phase in r[nodes[2].inputs[0]] && phase in r[nodes[2].inputs[1]];
    ListRows(nodes, r, env, arrival, 0, phase);
    ListRows(nodes, r, env, arrival, 1, phase);
    RunsTurn(nodes, r, arrival, 2, phase, [[[Int(1)]], [[Int(2)]]]);
    assert InSchemas(nodes, 2) == [[0], [0]];
  }

  /** The limit takes the first of them. */
  lemma FirstRow(nodes: seq<Node>, r: Required, env: Env, arrival: Arrival, phase: nat)
    requires nodes == FirstInFirst() && PlanOk(nodes) && |r| == 5 && Closed(nodes, r) && phase in r[3] && Honest(env, arrival)
    ensures phase in r[2] && Pruned(nodes, r, arrival, 3, phase) == Some(Take(1, arrival(UnionTurn(r, phase))))
  {
    hide OpOk, PlanOk, Closed, MinPhase, Pruned;
    assert nodes[3].inputs == [2];
    InputsBuilt(nodes, r, 3, phase);
    assert phase in r[nodes[3].inputs[0]];
    UnionRows(nodes, r, env, arrival, phase);
    var rows := arrival(UnionTurn(r, phase));
    RunsTurn(nodes, r, arrival, 3, phase, [rows]);
    var t := TurnOf(nodes, r, 3, phase, [rows]);
    assert MayEmit(env, t, arrival(t)) by {
      assert TurnOk(t);
    }
  }

  /** The join matches the first row of phase 1 with the first row of phase 0. */
  lemma FirstJoined(nodes: seq<Node>, r: Required, env: Env, arrival: Arrival, a: Value, b: Value)
    requires nodes == FirstInFirst() && PlanOk(nodes) && |r| == 5 && Closed(nodes, r) && 1 in r[4] && Honest(env, arrival)
    requires (1 in r[2] ==> Take(1, arrival(UnionTurn(r, 1))) == [[a]]) && a != Null
    requires 0 in r[2] ==> Take(1, arrival(UnionTurn(r, 0))) == [[b]]
    ensures Pruned(nodes, r, arrival, 4, 1) == Some(if a == b then [[a]] else [])
  {
    hide OpOk, PlanOk, Closed, MinPhase, Pruned, OpRows;
    FirstPhases(nodes);
    assert nodes[4].inputs == [3, 3];
    InputsBuilt(nodes, r, 4, 1);
    assert InputPhase(nodes, 4, 1, 0) == 1 && InputPhase(nodes, 4, 1, 1) == 0;
    FirstRow(nodes, r, env, arrival, 0);
    FirstRow(nodes, r, env, arrival, 1);
    RunsTurn(nodes, r, arrival, 4, 1, [[[a]], [[b]]]);
    var t := TurnOf(nodes, r, 4, 1, [[[a]], [[b]]]);
    assert InSchemas(nodes, 4) == [[0], [0]];
    assert MayEmit(env, t, arrival(t)) by {
      assert TurnOk(t);
    }
    JoinsFirst(env, a, b);
  }

  /** What the union emits in the two runs. */
  lemma UnionOrders(env: Env, r: Required, phase: nat)
    requires |r| == 5 && phase in r[2]
    ensures Take(1, InputOrder(env)(UnionTurn(r, phase))) == [[Int(1)]]
    ensures Take(1, SecondFirst(env)(UnionTurn(r, phase))) == [[Int(if phase == 1 then 2 else 1)]]
  {
    var t := UnionTurn(r, phase);
    FlattenTwo(t.ins);
    assert t.ins[0] + t.ins[1] == [[Int(1)], [Int(2)]] && t.ins[1] + t.ins[0] == [[Int(2)], [Int(1)]];
  }

  /**
   * Every row of `x` has a match in `x`, and a run in input order delivers it. In another run phase 0 fills the match
   * set with one row and phase 1 probes it with the other: the query delivers nothing.
   */
  lemma PhasesDisagree(env: Env, r: Required)
    requires PlanOk(FirstInFirst()) && |r| == 5 && Closed(FirstInFirst(), r) && 1 in r[4]
    ensures Honest(env, InputOrder(env)) && Pruned(FirstInFirst(), r, InputOrder(env), 4, 1) == Some([[Int(1)]])
    ensures Honest(env, SecondFirst(env)) && Pruned(FirstInFirst(), r, SecondFirst(env), 4, 1) == Some([])
  {
    hide PlanOk, Closed, Pruned, Honest, InputOrder, SecondFirst, UnionTurn;
    InputOrderHonest(env);
    SecondFirstHonest(env);
    forall p | p in r[2]
      ensures Take(1, InputOrder(env)(UnionTurn(r, p))) == [[Int(1)]]
      ensures Take(1, SecondFirst(env)(UnionTurn(r, p))) == [[Int(if p == 1 then 2 else 1)]]
    {
      UnionOrders(env, r, p);
    }
    FirstJoined(FirstInFirst(), r, env, InputOrder(env), Int(1), Int(1));
    FirstJoined(FirstInFirst(), r, env, SecondFirst(env), Int(2), Int(1));
  }

  /** The planner does plan this query so. */
  method PlanFirst(ghost env: Env) returns (required: Required)
    ensures PlanOk(FirstInFirst()) && |required| == 5 && Closed(FirstInFirst(), required) && 1 in required[4]
    ensures Pruned(FirstInFirst(), required, InputOrder(env), 4, 1) == Some([[Int(1)]])
    ensures Honest(env, SecondFirst(env)) && Pruned(FirstInFirst(), required, SecondFirst(env), 4, 1) == Some([])
  {
    FirstInFirstOk();
    FirstPhases(FirstInFirst());
    var planner := new Requirements(FirstInFirst());
    planner.Queries([4]);
    required := planner.required;
    assert Recorded(required, [4][0], 1, FieldSet([0]));
    PhasesDisagree(env, required);
  }
}
