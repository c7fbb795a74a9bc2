/** Column pruning: a plan that computes only required columns agrees with the full plan on them. */
module Pruning {
  import opened Values
  import opened Wrappers
  import opened Sequences
  import opened Scalars
  import opened Relations
  import opened Plans
  import opened Pointwise
  import S = Sorting

  // --- physical operations ---

  /** Only the required projectors are evaluated; the other slots stay null. */
  function MaskedProjectFn(env: Env, s: Schema, ps: seq<Projector>, required: set<FieldId>): Row -> Row {
    row => seq(|ps|, i requires 0 <= i < |ps| => if ps[i].alias in required then Eval(env, s, row, ps[i].expr) else Null)
  }

  function MaskedAggregateRow(env: Env, s: Schema, rows: seq<Row>, aggs: seq<Aggregate>, required: set<FieldId>): Row {
    seq(|aggs|, i requires 0 <= i < |aggs| =>
      if aggs[i].output in required then AggregateValue(env, s, rows, aggs[i].node) else Null)
  }

  function MaskedGroupRow(env: Env, s: Schema, rows: seq<Row>, aggs: seq<Aggregate>, keys: seq<Projector>,
                          required: set<FieldId>): Key -> Row {
    k => MaskedAggregateRow(env, s, Filter(HasKey(env, s, keys, k), rows), aggs, required) + k
  }

  /** The rows of a physical operation built for one phase. */
  function PhysRows(env: Env, op: Op, required: set<FieldId>, schema: Schema, ss: seq<Schema>, ins: seq<seq<Row>>): seq<Row>
    requires |ss| == |ins| && ArityIs(op, |ins|)
  {
    match op
    case LogOp(name) => LogRows(env, name, schema, required)
    case ProjectionOp(ps) => Map(MaskedProjectFn(env, ss[0], ps, required), ins[0])
    case GroupOp(aggs, keys) =>
      Map(MaskedGroupRow(env, ss[0], ins[0], aggs, keys, required), DistinctKeys(Map(KeyFn(env, ss[0], Exprs(keys)), ins[0])))
    case _ => OpRows(env, op, schema, ss, ins)
  }

  /** The rows of an operation when every column of every operation is computed. */
  function Full(env: Env, nodes: seq<Node>, i: nat): seq<Row>
    requires PlanOk(nodes) && i < |nodes|
    decreases i, 1
  {
    assert NodeOk(nodes, i);
    OpRows(env, nodes[i].op, nodes[i].schema, InSchemas(nodes, i), FullInputs(env, nodes, i))
  }

  function FullInputs(env: Env, nodes: seq<Node>, i: nat): (ins: seq<seq<Row>>)
    requires PlanOk(nodes) && i < |nodes|
    ensures |ins| == |nodes[i].inputs|
    ensures NodeOk(nodes, i) && forall k :: 0 <= k < |ins| ==> ins[k] == Full(env, nodes, nodes[i].inputs[k])
    decreases i, 0
  {
    assert NodeOk(nodes, i);
    seq(|nodes[i].inputs|, k requires 0 <= k < |nodes[i].inputs| => Full(env, nodes, nodes[i].inputs[k]))
  }

  /** The turn of one operation in one phase: what it is asked for, and the rows its inputs brought in the order they came. */
  datatype Turn = Turn(id: nat, phase: nat, op: Op, required: set<FieldId>, schema: Schema, ss: seq<Schema>, ins: seq<seq<Row>>)

  /** What the operations of a run emit, where threads, heaps and hash tables decide more than the operators do. */
  type Arrival = Turn -> seq<Row>

  /** The run in which the inputs of a union come one after another, ties keep their order, and groups appear in order. */
  function InputOrder(env: Env): Arrival {
    (t: Turn) =>
      if |t.ss| == |t.ins| && ArityIs(t.op, |t.ins|) then PhysRows(env, t.op, t.required, t.schema, t.ss, t.ins) else []
  }

  predicate AllKnown(ins: seq<Option<seq<Row>>>) {
    forall k :: 0 <= k < |ins| ==> ins[k].Some?
  }

  function RowsOf(ins: seq<Option<seq<Row>>>): (rows: seq<seq<Row>>)
    requires AllKnown(ins)
    ensures |rows| == |ins| && forall k :: 0 <= k < |ins| ==> rows[k] == ins[k].value
  {
    seq(|ins|, k requires 0 <= k < |ins| => ins[k].value)
  }

  predicate AsksAggregate(aggs: seq<Aggregate>, required: set<FieldId>) {
    exists k :: 0 <= k < |aggs| && aggs[k].output in required
  }

  /** An aggregate that never saw the end of its input has a record without values: fine only if no value is asked for. */
  function WithoutValues(aggs: seq<Aggregate>, required: set<FieldId>): Option<seq<Row>> {
    if AsksAggregate(aggs, required) then None else Some([[]])
  }

  function TurnOf(nodes: seq<Node>, r: Required, i: nat, phase: nat, ins: seq<seq<Row>>): Turn
    requires PlanOk(nodes) && |r| == |nodes| && i < |nodes| && phase in r[i]
  {
    assert NodeOk(nodes, i);
    Turn(i, phase, nodes[i].op, r[i][phase], nodes[i].schema, InSchemas(nodes, i), ins)
  }

  /**
   * The rows the operation built for one phase delivers, if it does not depend on an aggregated value that is not
   * there. An aggregate that is read only after its own phase has dropped its input at the first row.
   */
  function Pruned(nodes: seq<Node>, r: Required, arrival: Arrival, i: nat, phase: nat): Option<seq<Row>>
    requires PlanOk(nodes) && |r| == |nodes| && Closed(nodes, r) && i < |nodes| && phase in r[i]
    decreases i, 1
  {
    assert NodeOk(nodes, i);
    var ins := PrunedInputs(nodes, r, arrival, i, phase);
    if !AllKnown(ins) then None
    else if nodes[i].op.AggregateOp? && MinPhase(nodes, i) !in r[i] && ins[0].value != [] then
      WithoutValues(nodes[i].op.aggregates, r[i][phase])
    else Some(arrival(TurnOf(nodes, r, i, phase, RowsOf(ins))))
  }

  function PrunedInputs(nodes: seq<Node>, r: Required, arrival: Arrival, i: nat, phase: nat): (ins: seq<Option<seq<Row>>>)
    requires PlanOk(nodes) && |r| == |nodes| && Closed(nodes, r) && i < |nodes| && phase in r[i]
    ensures |ins| == |nodes[i].inputs|
    ensures NodeOk(nodes, i) && forall k :: 0 <= k < |ins| ==>
      InputPhase(nodes, i, phase, k) in r[nodes[i].inputs[k]] &&
      ins[k] == Pruned(nodes, r, arrival, nodes[i].inputs[k], InputPhase(nodes, i, phase, k))
    decreases i, 0
  {
    InputsBuilt(nodes, r, i, phase);
    seq(|nodes[i].inputs|, k requires 0 <= k < |nodes[i].inputs| =>
      Pruned(nodes, r, arrival, nodes[i].inputs[k], InputPhase(nodes, i, phase, k)))
  }

  lemma InputsBuilt(nodes: seq<Node>, r: Required, i: nat, phase: nat)
    requires PlanOk(nodes) && |r| == |nodes| && Closed(nodes, r) && i < |nodes| && phase in r[i]
    ensures NodeOk(nodes, i)
    ensures forall k :: 0 <= k < |nodes[i].inputs| ==>
      nodes[i].inputs[k] < i && InputPhase(nodes, i, phase, k) in r[nodes[i].inputs[k]]
  {
    hide OpOk, InputPhase, AskedFields;
    assert NodeOk(nodes, i);
    InputsRecorded(nodes, r, i, phase);
    forall k | 0 <= k < |nodes[i].inputs|
      ensures nodes[i].inputs[k] < i && InputPhase(nodes, i, phase, k) in r[nodes[i].inputs[k]]
    {
      assert Asked(nodes, r, i, phase, r[i][phase], k);
    }
  }

  /** Every input an operation reads in a phase was built for the phase it is read in. */
  lemma InputsRecorded(nodes: seq<Node>, r: Required, i: nat, phase: nat)
    requires PlanOk(nodes) && |r| == |nodes| && Closed(nodes, r) && i < |nodes| && phase in r[i]
    ensures forall k :: 0 <= k < |nodes[i].inputs| ==> Asked(nodes, r, i, phase, r[i][phase], k)
  {
    assert ClosedNode(nodes, r, i);
  }

  // --- agreement on columns ---

  /** Two rows hold the same values in the given columns. */
  ghost function SameOn(s: Schema, fields: set<FieldId>): (Row, Row) -> bool {
    (x: Row, y: Row) => forall f :: f in fields ==> At(s, x, f) == At(s, y, f)
  }

  lemma SameOnFewer(s: Schema, some: set<FieldId>, all: set<FieldId>, a: seq<Row>, b: seq<Row>)
    requires some <= all && Alike(SameOn(s, all), a, b)
    ensures Alike(SameOn(s, some), a, b)
  {
  }

  lemma SameEval(env: Env, s: Schema, fields: set<FieldId>, e: Scalar, x: Row, y: Row)
    requires Fields(e) <= fields && SameOn(s, fields)(x, y)
    ensures Eval(env, s, x, e) == Eval(env, s, y, e)
  {
    EvalAgree(env, s, x, s, y, e);
  }

  lemma SameEvalAll(env: Env, s: Schema, fields: set<FieldId>, es: seq<Scalar>)
    requires AllFields(es) <= fields
    ensures forall x, y :: SameOn(s, fields)(x, y) ==> EvalAll(env, s, x, es) == EvalAll(env, s, y, es)
  {
    forall x, y | SameOn(s, fields)(x, y) ensures EvalAll(env, s, x, es) == EvalAll(env, s, y, es) {
      EvalAllAgree(env, s, x, s, y, es);
    }
  }

  lemma AtPad(s: Schema, row: Row, f: FieldId)
    ensures At(s, Pad(row, |s|), f) == At(s, row, f)
  {
  }

  lemma {:induction false} SlotRight(a: Schema, b: Schema, id: FieldId)
    requires id !in a && id in b
    ensures id in a + b && Slot(a + b, id) == |a| + Slot(b, id)
  {
    if a == [] {
      assert a + b == b;
    } else {
      SlotRight(a[1..], b, id);
      assert (a + b)[1..] == a[1..] + b;
    }
  }

  /** A column of a joined row is read from the side whose schema has it. */
  lemma AtJoined(a: Schema, b: Schema, x: Row, y: Row, f: FieldId)
    requires |x| == |a|
    ensures f in a ==> At(a + b, x + y, f) == At(a, x, f)
    ensures f !in a ==> At(a + b, x + y, f) == At(b, y, f)
  {
    if f in a {
      SlotAppend(a, b, f);
    } else if f in b {
      SlotRight(a, b, f);
    }
  }

  lemma ScanAgrees(env: Env, name: string, s: Schema, required: set<FieldId>)
    requires required <= FieldSet(s) && Distinct(s)
    requires Parses(env, required) == Parses(env, FieldSet(s)) || forall line :: line in env.lines(name) ==> line.Parsed?
    ensures Alike(SameOn(s, required), LogRows(env, name, s, required), LogRows(env, name, s, FieldSet(s)))
  {
    FilterAgree(KeepLine(env, required), KeepLine(env, FieldSet(s)), env.lines(name));
    AllSlots(s, FieldSet(s));
    forall line: LogLine, f | f in required
      ensures At(s, LineRow(env, s, required)(line), f) == LineValue(env, line, f)
      ensures At(s, LineRow(env, s, FieldSet(s))(line), f) == LineValue(env, line, f)
    {
      assert f in s;
      var slot := Slot(s, f);
      assert s[slot] == f;
    }
  }

  lemma FilterAgrees(env: Env, s: Schema, required: set<FieldId>, c: Scalar, a: seq<Row>, b: seq<Row>)
    requires Alike(SameOn(s, required + Fields(c)), a, b)
    ensures Alike(SameOn(s, required), Filter(CondFn(env, s, c), a), Filter(CondFn(env, s, c), b))
  {
    var p, rel := CondFn(env, s, c), SameOn(s, required + Fields(c));
    forall x, y | rel(x, y) ensures p(x) == p(y) {
      SameEval(env, s, required + Fields(c), c, x, y);
    }
    AlikeFilter(rel, p, p, a, b);
    SameOnFewer(s, required, required + Fields(c), Filter(p, a), Filter(p, b));
  }

  lemma SortAgrees(env: Env, s: Schema, required: set<FieldId>, order: seq<Scalar>, desc: bool, a: seq<Row>, b: seq<Row>)
    requires Alike(SameOn(s, required + AllFields(order)), a, b)
    ensures var key := KeyFn(env, s, order);
            Alike(SameOn(s, required), S.Sort(key, desc, a), S.Sort(key, desc, b))
  {
    var all, key := required + AllFields(order), KeyFn(env, s, order);
    SameEvalAll(env, s, all, order);
    AlikeSort(SameOn(s, all), key, key, desc, a, b);
    SameOnFewer(s, required, all, S.Sort(key, desc, a), S.Sort(key, desc, b));
  }

  lemma MergeAgrees(env: Env, s: Schema, required: set<FieldId>, order: seq<Scalar>, desc: bool,
                    a: seq<Row>, b: seq<Row>, c: seq<Row>, d: seq<Row>)
    requires Alike(SameOn(s, required + AllFields(order)), a, b) && Alike(SameOn(s, required + AllFields(order)), c, d)
    ensures var key := KeyFn(env, s, order);
            Alike(SameOn(s, required), S.Merge(key, desc, a, c), S.Merge(key, desc, b, d))
  {
    var all, key := required + AllFields(order), KeyFn(env, s, order);
    SameEvalAll(env, s, all, order);
    AlikeMerge(SameOn(s, all), key, key, desc, a, b, c, d);
    SameOnFewer(s, required, all, S.Merge(key, desc, a, c), S.Merge(key, desc, b, d));
  }

  lemma ProjectionAgrees(env: Env, s: Schema, required: set<FieldId>, ps: seq<Projector>, a: seq<Row>, b: seq<Row>)
    requires Alike(SameOn(s, RequiredProjectorFields(ps, required)), a, b)
    ensures Alike(SameOn(Aliases(ps), required), Map(MaskedProjectFn(env, s, ps, required), a), Map(ProjectFn(env, s, ps), b))
  {
    var fields := RequiredProjectorFields(ps, required);
    forall x, y, f | SameOn(s, fields)(x, y) && f in required
      ensures At(Aliases(ps), MaskedProjectFn(env, s, ps, required)(x), f) == At(Aliases(ps), ProjectFn(env, s, ps)(y), f)
    {
      if f in Aliases(ps) {
        var i := Slot(Aliases(ps), f);
        assert ps[i].alias == f && Exprs(ps)[i] == ps[i].expr;
        SameEval(env, s, fields, ps[i].expr, x, y);
      }
    }
    var g, h := MaskedProjectFn(env, s, ps, required), ProjectFn(env, s, ps);
    forall i | 0 <= i < |a| ensures SameOn(Aliases(ps), required)(Map(g, a)[i], Map(h, b)[i]) {
      assert SameOn(s, fields)(a[i], b[i]);
    }
  }

  lemma MatchSetsAgree(m: FieldId, a: seq<Row>, b: seq<Row>)
    requires Alike(SameOn([m], {m}), a, b)
    ensures MatchSet(a) == MatchSet(b)
  {
    forall i | 0 <= i < |a|
      ensures (if |a[i]| > 0 then a[i][0] else Null) == (if |b[i]| > 0 then b[i][0] else Null)
    {
      assert SameOn([m], {m})(a[i], b[i]);
      assert At([m], a[i], m) == At([m], b[i], m);
    }
  }

  lemma SemiJoinAgrees(env: Env, s: Schema, required: set<FieldId>, key: Scalar, matches: set<Value>, a: seq<Row>, b: seq<Row>)
    requires Alike(SameOn(s, required + Fields(key)), a, b)
    ensures var p := MatchFn(env, s, key, matches); Alike(SameOn(s, required), Filter(p, a), Filter(p, b))
  {
    var p, all := MatchFn(env, s, key, matches), required + Fields(key);
    forall x, y | SameOn(s, all)(x, y) ensures p(x) == p(y) {
      SameEval(env, s, all, key, x, y);
    }
    AlikeFilter(SameOn(s, all), p, p, a, b);
    SameOnFewer(s, required, all, Filter(p, a), Filter(p, b));
  }

  lemma MarkJoinAgrees(env: Env, s: Schema, required: set<FieldId>, key: Scalar, matches: set<Value>, output: FieldId,
                       a: seq<Row>, b: seq<Row>)
    requires Distinct(s + [output])
    requires Alike(SameOn(s, required - {output} + Fields(key)), a, b)
    ensures var f := MarkFn(env, s, key, matches); Alike(SameOn(s + [output], required), Map(f, a), Map(f, b))
  {
    var all, g := required - {output} + Fields(key), MarkFn(env, s, key, matches);
    forall i | 0 <= i < |a| ensures SameOn(s + [output], required)(Map(g, a)[i], Map(g, b)[i]) {
      var x, y := a[i], b[i];
      assert SameOn(s, all)(x, y);
      SameEval(env, s, all, key, x, y);
      var mark := [Bool(Eval(env, s, x, key) in matches)];
      forall f | f in required ensures At(s + [output], g(x), f) == At(s + [output], g(y), f) {
        AtJoined(s, [output], Pad(x, |s|), mark, f);
        AtJoined(s, [output], Pad(y, |s|), mark, f);
        AtPad(s, x, f);
        AtPad(s, y, f);
        if f in s {
          assert (s + [output])[Slot(s, f)] == f && (s + [output])[|s|] == output;
        }
      }
    }
  }

  /** Joined rows agree on the required columns when their sides do. */
  lemma JoinedAgree(ls: Schema, rs: Schema, required: set<FieldId>, x: Row, y: Row, u: Row, v: Row)
    requires SameOn(ls, required * FieldSet(ls))(x, y) && SameOn(rs, required * FieldSet(rs))(u, v)
    ensures SameOn(ls + rs, required)(Pad(x, |ls|) + u, Pad(y, |ls|) + v)
  {
    forall f | f in required
      ensures At(ls + rs, Pad(x, |ls|) + u, f) == At(ls + rs, Pad(y, |ls|) + v, f)
    {
      AtJoined(ls, rs, Pad(x, |ls|), u, f);
      AtJoined(ls, rs, Pad(y, |ls|), v, f);
      AtPad(ls, x, f);
      AtPad(ls, y, f);
    }
  }

  lemma MatchesAgree(env: Env, rs: Schema, rk: Scalar, fields: set<FieldId>, key: Value, a: seq<Row>, b: seq<Row>)
    requires Alike(SameOn(rs, fields), a, b) && Fields(rk) <= fields
    ensures Alike(SameOn(rs, fields), Matches(env, rs, rk, a, key), Matches(env, rs, rk, b, key))
  {
    var p := RightMatches(env, rs, rk, key);
    forall x, y | SameOn(rs, fields)(x, y) ensures p(x) == p(y) {
      SameEval(env, rs, fields, rk, x, y);
    }
    AlikeFilter(SameOn(rs, fields), p, p, a, b);
  }

  lemma MatchRowsAgree(ls: Schema, rs: Schema, required: set<FieldId>, x: Row, y: Row, a: seq<Row>, b: seq<Row>)
    requires SameOn(ls, required * FieldSet(ls))(x, y) && Alike(SameOn(rs, required * FieldSet(rs)), a, b)
    ensures Alike(SameOn(ls + rs, required), Map(JoinRow(ls, rs, x), a), Map(JoinRow(ls, rs, y), b))
  {
    forall i | 0 <= i < |a|
      ensures SameOn(ls + rs, required)(JoinRow(ls, rs, x)(a[i]), JoinRow(ls, rs, y)(b[i]))
    {
      assert SameOn(rs, required * FieldSet(rs))(a[i], b[i]);
      forall f | f in required * FieldSet(rs) ensures At(rs, Pad(a[i], |rs|), f) == At(rs, Pad(b[i], |rs|), f) {
        AtPad(rs, a[i], f);
        AtPad(rs, b[i], f);
      }
      JoinedAgree(ls, rs, required, x, y, Pad(a[i], |rs|), Pad(b[i], |rs|));
    }
  }

  lemma JoinRowsAgree(ls: Schema, rs: Schema, required: set<FieldId>, x: Row, y: Row, a: seq<Row>, b: seq<Row>)
    requires SameOn(ls, required * FieldSet(ls))(x, y) && Alike(SameOn(rs, required * FieldSet(rs)), a, b)
    ensures Alike(SameOn(ls + rs, required), JoinRows(ls, rs, x, a), JoinRows(ls, rs, y, b))
  {
    if a == [] {
      JoinedAgree(ls, rs, required, x, y, Nulls(|rs|), Nulls(|rs|));
    } else {
      MatchRowsAgree(ls, rs, required, x, y, a, b);
    }
  }

  lemma JoinRowAgrees(env: Env, ls: Schema, rs: Schema, required: set<FieldId>, lk: Scalar, rk: Scalar,
                      x: Row, y: Row, right: seq<Row>, right': seq<Row>)
    requires SameOn(ls, required * FieldSet(ls) + Fields(lk))(x, y)
    requires Alike(SameOn(rs, required * FieldSet(rs) + Fields(rk)), right, right')
    ensures Alike(SameOn(ls + rs, required), JoinFn(env, ls, rs, lk, rk, right)(x), JoinFn(env, ls, rs, lk, rk, right')(y))
  {
    SameEval(env, ls, required * FieldSet(ls) + Fields(lk), lk, x, y);
    var key := Eval(env, ls, x, lk);
    var fields := required * FieldSet(rs) + Fields(rk);
    MatchesAgree(env, rs, rk, fields, key, right, right');
    var a, b := Matches(env, rs, rk, right, key), Matches(env, rs, rk, right', key);
    SameOnFewer(rs, required * FieldSet(rs), fields, a, b);
    JoinRowsAgree(ls, rs, required, x, y, a, b);
  }

  lemma LeftJoinAgrees(env: Env, ls: Schema, rs: Schema, required: set<FieldId>, lk: Scalar, rk: Scalar,
                       left: seq<Row>, left': seq<Row>, right: seq<Row>, right': seq<Row>)
    requires Alike(SameOn(ls, required * FieldSet(ls) + Fields(lk)), left, left')
    requires Alike(SameOn(rs, required * FieldSet(rs) + Fields(rk)), right, right')
    ensures Alike(SameOn(ls + rs, required),
                  Flatten(Map(JoinFn(env, ls, rs, lk, rk, right), left)), Flatten(Map(JoinFn(env, ls, rs, lk, rk, right'), left')))
  {
    var f, g := JoinFn(env, ls, rs, lk, rk, right), JoinFn(env, ls, rs, lk, rk, right');
    forall i | 0 <= i < |left| ensures Alike(SameOn(ls + rs, required), Map(f, left)[i], Map(g, left')[i]) {
      assert SameOn(ls, required * FieldSet(ls) + Fields(lk))(left[i], left'[i]);
      JoinRowAgrees(env, ls, rs, required, lk, rk, left[i], left'[i], right, right');
    }
    AlikeFlatten(SameOn(ls + rs, required), Map(f, left), Map(g, left'));
  }

  lemma AggregateAgrees(env: Env, s: Schema, fields: set<FieldId>, node: AggregateNode, a: seq<Row>, b: seq<Row>)
    requires Alike(SameOn(s, fields), a, b) && AllFields(AggregateArgs(node)) <= fields
    ensures AggregateValue(env, s, a, node) == AggregateValue(env, s, b, node)
  {
    if node.FnAggregate? {
      SameEvalAll(env, s, fields, node.args);
      forall i | 0 <= i < |a| ensures EvalAll(env, s, a[i], node.args) == EvalAll(env, s, b[i], node.args) {
        assert SameOn(s, fields)(a[i], b[i]);
      }
      assert ArgTuples(env, s, a, node.args) == ArgTuples(env, s, b, node.args);
    }
  }

  lemma AggregateRowAgrees(env: Env, s: Schema, aggs: seq<Aggregate>, a: seq<Row>, b: seq<Row>)
    requires Alike(SameOn(s, AggregateFields(aggs)), a, b)
    ensures AggregateRow(env, s, a, aggs) == AggregateRow(env, s, b, aggs)
  {
    forall i | 0 <= i < |aggs|
      ensures AggregateValue(env, s, a, aggs[i].node) == AggregateValue(env, s, b, aggs[i].node)
    {
      AggregateAgrees(env, s, AggregateFields(aggs), aggs[i].node, a, b);
    }
  }

  /** One group: the masked row has the group's values in the required columns. */
  lemma GroupRowAgrees(env: Env, s: Schema, required: set<FieldId>, aggs: seq<Aggregate>, keys: seq<Projector>,
                       a: seq<Row>, b: seq<Row>, k: Key)
    requires Alike(SameOn(s, AllFields(Exprs(keys)) + RequiredAggregateFields(aggs, required)), a, b)
    ensures SameOn(Outputs(aggs) + Aliases(keys), required)(
              MaskedGroupRow(env, s, a, aggs, keys, required)(k), GroupRow(env, s, b, aggs, keys)(k))
  {
    var fields, p := AllFields(Exprs(keys)) + RequiredAggregateFields(aggs, required), HasKey(env, s, keys, k);
    SameEvalAll(env, s, fields, Exprs(keys));
    AlikeFilter(SameOn(s, fields), p, p, a, b);
    var x, y := MaskedAggregateRow(env, s, Filter(p, a), aggs, required), AggregateRow(env, s, Filter(p, b), aggs);
    forall f | f in required
      ensures At(Outputs(aggs) + Aliases(keys), x + k, f) == At(Outputs(aggs) + Aliases(keys), y + k, f)
    {
      AtJoined(Outputs(aggs), Aliases(keys), x, k, f);
      AtJoined(Outputs(aggs), Aliases(keys), y, k, f);
      if f in Outputs(aggs) {
        var i := Slot(Outputs(aggs), f);
        assert aggs[i].output == f;
        AggregateAgrees(env, s, fields, aggs[i].node, Filter(p, a), Filter(p, b));
      }
    }
  }

  lemma GroupAgrees(env: Env, s: Schema, required: set<FieldId>, aggs: seq<Aggregate>, keys: seq<Projector>, a: seq<Row>, b: seq<Row>)
    requires Alike(SameOn(s, AllFields(Exprs(keys)) + RequiredAggregateFields(aggs, required)), a, b)
    ensures Alike(SameOn(Outputs(aggs) + Aliases(keys), required),
                  Map(MaskedGroupRow(env, s, a, aggs, keys, required), DistinctKeys(Map(KeyFn(env, s, Exprs(keys)), a))),
                  GroupRows(env, s, b, aggs, keys))
  {
    var fields, key := AllFields(Exprs(keys)) + RequiredAggregateFields(aggs, required), KeyFn(env, s, Exprs(keys));
    SameEvalAll(env, s, fields, Exprs(keys));
    forall i | 0 <= i < |a| ensures key(a[i]) == key(b[i]) {
      assert SameOn(s, fields)(a[i], b[i]);
    }
    assert Map(key, a) == Map(key, b);
    var ks := DistinctKeys(Map(key, a));
    forall i | 0 <= i < |ks|
      ensures SameOn(Outputs(aggs) + Aliases(keys), required)(
                MaskedGroupRow(env, s, a, aggs, keys, required)(ks[i]), GroupRow(env, s, b, aggs, keys)(ks[i]))
    {
      GroupRowAgrees(env, s, required, aggs, keys, a, b, ks[i]);
    }
  }

  // --- whole plans ---

  /** A log read for these columns delivers the same lines as one read for all of its columns. */
  ghost predicate ScanOk(env: Env, name: string, s: Schema, required: set<FieldId>) {
    Parses(env, required) == Parses(env, FieldSet(s)) || forall line :: line in env.lines(name) ==> line.Parsed?
  }

  lemma PhysAgrees(env: Env, op: Op, schema: Schema, ss: seq<Schema>, required: set<FieldId>,
                   ins: seq<seq<Row>>, fulls: seq<seq<Row>>)
    requires OpOk(op, schema, ss) && |ss| == |ins| == |fulls| && required <= FieldSet(schema) && !op.NamedOp?
    requires forall k :: 0 <= k < |ins| ==> Alike(SameOn(ss[k], InputFields(op, ss, required, k)), ins[k], fulls[k])
    requires op.LogOp? ==> ScanOk(env, op.name, schema, required)
    ensures Alike(SameOn(schema, required), PhysRows(env, op, required, schema, ss, ins), OpRows(env, op, schema, ss, fulls))
  {
    match op {
      case EmptyOp =>
      case LogOp(name) => ScanAgrees(env, name, schema, required);
      case ValuesOp(_, _) =>
      case ProjectionOp(ps) => ProjectionAgrees(env, ss[0], required, ps, ins[0], fulls[0]);
      case FilterOp(c) => FilterAgrees(env, schema, required, c, ins[0], fulls[0]);
      case SortOp(order, desc) => SortAgrees(env, schema, required, order, desc, ins[0], fulls[0]);
      case TopKOp(order, desc, k) =>
        SortAgrees(env, schema, required, order, desc, ins[0], fulls[0]);
        var key := KeyFn(env, schema, order);
        AlikeTake(SameOn(schema, required), k, S.Sort(key, desc, ins[0]), S.Sort(key, desc, fulls[0]));
      case LimitOp(n) => AlikeTake(SameOn(schema, required), n, ins[0], fulls[0]);
      case UnionAllOp => AlikeFlatten(SameOn(schema, required), ins, fulls);
      case MergeOp(order, desc) => MergeAgrees(env, schema, required, order, desc, ins[0], fulls[0], ins[1], fulls[1]);
      case LeftJoinOp(lk, rk) => LeftJoinAgrees(env, ss[0], ss[1], required, lk, rk, ins[0], fulls[0], ins[1], fulls[1]);
      case SemiJoinOp(key, m) =>
        MatchSetsAgree(m, ins[1], fulls[1]);
        SemiJoinAgrees(env, schema, required, key, MatchSet(ins[1]), ins[0], fulls[0]);
      case MarkJoinOp(key, m, output) =>
        MatchSetsAgree(m, ins[1], fulls[1]);
        MarkJoinAgrees(env, ss[0], required, key, MatchSet(ins[1]), output, ins[0], fulls[0]);
      case AggregateOp(aggs) => AggregateRowAgrees(env, ss[0], aggs, ins[0], fulls[0]);
      case GroupOp(aggs, keys) => GroupAgrees(env, ss[0], required, aggs, keys, ins[0], fulls[0]);
      case MaterializeOp =>
    }
  }

  /** Every log of the plan is read in a way that keeps the lines the full plan keeps. */
  ghost predicate ScansOk(env: Env, nodes: seq<Node>, r: Required)
    requires |r| == |nodes|
  {
    forall i, phase :: 0 <= i < |nodes| && phase in r[i] && nodes[i].op.LogOp? ==>
      ScanOk(env, nodes[i].op.name, nodes[i].schema, r[i][phase])
  }

  /**
   * An aggregate delivers what is asked of it in a phase: it also runs in its own phase, or it has no
   * input rows to stop at, or none of its values is asked for.
   */
  ghost predicate AggregateKept(env: Env, nodes: seq<Node>, r: Required, i: nat, phase: nat)
    requires PlanOk(nodes) && |r| == |nodes| && i < |nodes| && phase in r[i]
  {
    assert NodeOk(nodes, i);
    nodes[i].op.AggregateOp? ==>
      || MinPhase(nodes, i) in r[i]
      || FullInputs(env, nodes, i)[0] == []
      || !AsksAggregate(nodes[i].op.aggregates, r[i][phase])
  }

  ghost predicate AggregatesKept(env: Env, nodes: seq<Node>, r: Required)
    requires PlanOk(nodes) && |r| == |nodes|
  {
    forall i, phase :: 0 <= i < |nodes| && phase in r[i] ==> AggregateKept(env, nodes, r, i, phase)
  }

  /** As many rows as the full plan, in the same order, with the same values in the given columns. */
  ghost predicate Agree(s: Schema, fields: set<FieldId>, rows: Option<seq<Row>>, full: seq<Row>) {
    rows.Some? && Alike(SameOn(s, fields), rows.value, full)
  }

  /** In one phase, an operation of the pruned plan delivers the rows of the full plan in the required columns. */
  ghost predicate Delivers(env: Env, nodes: seq<Node>, r: Required, i: nat, phase: nat)
    requires PlanOk(nodes) && |r| == |nodes| && Closed(nodes, r) && i < |nodes| && phase in r[i]
  {
    Agree(nodes[i].schema, r[i][phase], Pruned(nodes, r, InputOrder(env), i, phase), Full(env, nodes, i))
  }

  /** The inputs of an operation deliver the columns it reads. */
  ghost predicate InputsDeliver(env: Env, nodes: seq<Node>, r: Required, i: nat, phase: nat)
    requires PlanOk(nodes) && |r| == |nodes| && Closed(nodes, r) && i < |nodes| && phase in r[i]
  {
    assert NodeOk(nodes, i);
    forall k :: 0 <= k < |nodes[i].inputs| ==>
      Agree(InSchemas(nodes, i)[k], AskedFields(nodes, i, r[i][phase], k),
            PrunedInputs(nodes, r, InputOrder(env), i, phase)[k], FullInputs(env, nodes, i)[k])
  }

  lemma InputsFollow(env: Env, nodes: seq<Node>, r: Required, i: nat, phase: nat)
    requires PlanOk(nodes) && |r| == |nodes| && Closed(nodes, r) && i < |nodes| && phase in r[i]
    requires forall j, p :: 0 <= j < i && p in r[j] ==> Delivers(env, nodes, r, j, p)
    ensures InputsDeliver(env, nodes, r, i, phase)
  {
    hide OpOk, AskedFields, InputPhase, Pruned, Full;
    assert NodeOk(nodes, i);
    InputsBuilt(nodes, r, i, phase);
    InputsRecorded(nodes, r, i, phase);
    var ss, ins, fulls := InSchemas(nodes, i), PrunedInputs(nodes, r, InputOrder(env), i, phase), FullInputs(env, nodes, i);
    forall k | 0 <= k < |nodes[i].inputs|
      ensures Agree(ss[k], AskedFields(nodes, i, r[i][phase], k), ins[k], fulls[k])
    {
      var child, p := nodes[i].inputs[k], InputPhase(nodes, i, phase, k);
      assert Asked(nodes, r, i, phase, r[i][phase], k);
      assert Delivers(env, nodes, r, child, p);
      SameOnFewer(ss[k], AskedFields(nodes, i, r[i][phase], k), r[child][p], ins[k].value, fulls[k]);
    }
  }

  lemma AskedOne(aggs: seq<Aggregate>, required: set<FieldId>, f: FieldId)
    requires f in required && f in Outputs(aggs)
    ensures AsksAggregate(aggs, required)
  {
    assert aggs[Slot(Outputs(aggs), f)].output == f;
  }

  /** A record without values agrees with any other where no value is asked for. */
  lemma NothingAsked(aggs: seq<Aggregate>, required: set<FieldId>, row: Row)
    requires required <= FieldSet(Outputs(aggs)) && !AsksAggregate(aggs, required)
    ensures required == {}
    ensures Alike(SameOn(Outputs(aggs), required), [[]], [row])
  {
    if f :| f in required {
      AskedOne(aggs, required, f);
    }
  }

  /** An operation whose inputs deliver what it reads delivers too, exactly when its scan and its aggregates are kept. */
  lemma DeliversExactly(env: Env, nodes: seq<Node>, r: Required, i: nat, phase: nat)
    requires PlanOk(nodes) && |r| == |nodes| && Closed(nodes, r) && Permitted(nodes, r) && i < |nodes| && phase in r[i]
    requires InputsDeliver(env, nodes, r, i, phase)
    ensures Delivers(env, nodes, r, i, phase) <==>
            AggregateKept(env, nodes, r, i, phase) && (nodes[i].op.LogOp? ==>
              ScanOk(env, nodes[i].op.name, nodes[i].schema, r[i][phase]))
  {
    hide PhysRows, OpRows, SameOn, InputPhase, MinPhase, ScanOk, AsksAggregate;
    assert NodeOk(nodes, i) && MayAsk(nodes, i, phase, r[i][phase]);
    var op, ss, required := nodes[i].op, InSchemas(nodes, i), r[i][phase];
    var ins, fulls := RowsOf(PrunedInputs(nodes, r, InputOrder(env), i, phase)), FullInputs(env, nodes, i);
    if op.AggregateOp? && MinPhase(nodes, i) !in r[i] && ins[0] != [] {
      AggregateIs(env, op, nodes[i].schema, ss, fulls);
      if !AsksAggregate(op.aggregates, required) {
        NothingAsked(op.aggregates, required, AggregateRow(env, ss[0], fulls[0], op.aggregates));
      }
    } else if op.LogOp? {
      ScanAgreesExactly(env, op.name, nodes[i].schema, required);
      LogIs(env, op, required, nodes[i].schema, ss, ins, fulls);
    } else {
      PhysAgrees(env, op, nodes[i].schema, ss, required, ins, fulls);
    }
  }

  lemma AggregateIs(env: Env, op: Op, schema: Schema, ss: seq<Schema>, ins: seq<seq<Row>>)
    requires |ss| == |ins| == 1 && op.AggregateOp?
    ensures OpRows(env, op, schema, ss, ins) == [AggregateRow(env, ss[0], ins[0], op.aggregates)]
  {
  }

  lemma LogIs(env: Env, op: Op, required: set<FieldId>, schema: Schema, ss: seq<Schema>, ins: seq<seq<Row>>, fulls: seq<seq<Row>>)
    requires |ss| == |ins| == |fulls| == 0 && op.LogOp?
    ensures PhysRows(env, op, required, schema, ss, ins) == LogRows(env, op.name, schema, required)
    ensures OpRows(env, op, schema, ss, fulls) == LogRows(env, op.name, schema, FieldSet(schema))
  {
  }

  /** Column pruning is sound over the whole shared DAG, in every phase of every operation. */
  lemma {:induction false} PruningSound(env: Env, nodes: seq<Node>, r: Required, i: nat, phase: nat)
    requires PlanOk(nodes) && |r| == |nodes| && Closed(nodes, r) && Permitted(nodes, r)
    requires ScansOk(env, nodes, r) && AggregatesKept(env, nodes, r)
    requires i < |nodes| && phase in r[i]
    ensures Delivers(env, nodes, r, i, phase)
    decreases i
  {
    hide Delivers, ScanOk, AggregateKept, InputsDeliver;
    forall j, p | 0 <= j < i && p in r[j] ensures Delivers(env, nodes, r, j, p) {
      PruningSound(env, nodes, r, j, p);
    }
    InputsFollow(env, nodes, r, i, phase);
    DeliversExactly(env, nodes, r, i, phase);
  }

  /**
   * The pruned plan delivers what is required everywhere if and only if every scan keeps the lines of the
   * full scan and every aggregate with rows that is read only after its own phase is asked for no value.
   */
  lemma PruningExactly(env: Env, nodes: seq<Node>, r: Required)
    requires PlanOk(nodes) && |r| == |nodes| && Closed(nodes, r) && Permitted(nodes, r)
    ensures (forall i, phase :: 0 <= i < |nodes| && phase in r[i] ==> Delivers(env, nodes, r, i, phase)) <==>
            ScansOk(env, nodes, r) && AggregatesKept(env, nodes, r)
  {
    hide Delivers, ScanOk, AggregateKept, InputsDeliver;
    if ScansOk(env, nodes, r) && AggregatesKept(env, nodes, r) {
      forall i, phase | 0 <= i < |nodes| && phase in r[i] ensures Delivers(env, nodes, r, i, phase) {
        PruningSound(env, nodes, r, i, phase);
      }
    } else if forall i, phase :: 0 <= i < |nodes| && phase in r[i] ==> Delivers(env, nodes, r, i, phase) {
      forall i, phase | 0 <= i < |nodes| && phase in r[i]
        ensures AggregateKept(env, nodes, r, i, phase)
        ensures nodes[i].op.LogOp? ==> ScanOk(env, nodes[i].op.name, nodes[i].schema, r[i][phase])
      {
        InputsFollow(env, nodes, r, i, phase);
        DeliversExactly(env, nodes, r, i, phase);
      }
    }
  }

  // --- where pruning does change the rows ---

  lemma {:induction false} FilterLength<T(!new)>(p: T -> bool, s: seq<T>)
    ensures |Filter(p, s)| <= |s|
    ensures |Filter(p, s)| == |s| <==> forall x :: x in s ==> p(x)
  {
    if s != [] {
      FilterLength(p, s[1..]);
      assert s == [s[0]] + s[1..];
    }
  }

  /**
   * A log read for fewer columns agrees with the log read for all of them exactly when both readings
   * parse, or neither does, or no line is malformed: a reader that does not parse keeps malformed lines.
   */
  lemma ScanAgreesExactly(env: Env, name: string, s: Schema, required: set<FieldId>)
    requires required <= FieldSet(s) && Distinct(s)
    ensures Alike(SameOn(s, required), LogRows(env, name, s, required), LogRows(env, name, s, FieldSet(s))) <==>
            ScanOk(env, name, s, required)
  {
    if ScanOk(env, name, s, required) {
      ScanAgrees(env, name, s, required);
    } else {
      ScanLoses(env, name, s, required);
    }
  }

  lemma ScanLoses(env: Env, name: string, s: Schema, required: set<FieldId>)
    requires !ScanOk(env, name, s, required)
    ensures |LogRows(env, name, s, required)| != |LogRows(env, name, s, FieldSet(s))|
  {
    FilterLength(KeepLine(env, required), env.lines(name));
    FilterLength(KeepLine(env, FieldSet(s)), env.lines(name));
  }

  /** One malformed line and a query that needs no column: the pruned scan counts a row the full one drops. */
  lemma MalformedLineCounts(env: Env, name: string, f: FieldId)
    requires f != env.lineField && env.lines(name) == [Malformed(Str("?"))]
    ensures |LogRows(env, name, [f], {})| == 1 && |LogRows(env, name, [f], FieldSet([f]))| == 0
  {
    var lines := env.lines(name);
    assert f in FieldSet([f]);
    FilterAll(KeepLine(env, {}), lines);
    FilterNone(KeepLine(env, FieldSet([f])), lines);
  }
}
