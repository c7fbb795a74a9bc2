/**
 * Plans: a DAG of shared operations, the phase each may first run in, and what an operation asks of
 * its inputs when its own output is asked for.
 */
module Plans {
  import opened Scalars
  import opened Relations

  /** An operation; its inputs are earlier operations of the plan, possibly shared. */
  datatype Node = Node(op: Op, inputs: seq<nat>, schema: Schema)

  function InSchemas(nodes: seq<Node>, i: nat): (ss: seq<Schema>)
    requires i < |nodes| && forall k :: 0 <= k < |nodes[i].inputs| ==> nodes[i].inputs[k] < |nodes|
    ensures |ss| == |nodes[i].inputs|
  {
    seq(|nodes[i].inputs|, k requires 0 <= k < |nodes[i].inputs| => nodes[nodes[i].inputs[k]].schema)
  }

  predicate NodeOk(nodes: seq<Node>, i: nat)
    requires i < |nodes|
  {
    && (forall k :: 0 <= k < |nodes[i].inputs| ==> nodes[i].inputs[k] < i)
    && OpOk(nodes[i].op, nodes[i].schema, InSchemas(nodes, i))
    && !nodes[i].op.NamedOp?
  }

  predicate PlanOk(nodes: seq<Node>) {
    forall i :: 0 <= i < |nodes| ==> NodeOk(nodes, i)
  }

  /** Every top-k keeps at least one row: the heap of a top-k of nothing refuses to be built. */
  predicate CountsPositive(nodes: seq<Node>) {
    forall i :: 0 <= i < |nodes| && nodes[i].op.TopKOp? ==> nodes[i].op.topCount > 0
  }

  // --- phases ---

  function Max(a: nat, b: nat): nat { if a >= b then a else b }

  function Greatest(ps: seq<nat>): (m: nat)
    ensures forall k :: 0 <= k < |ps| ==> ps[k] <= m
  {
    if ps == [] then 0 else Max(Greatest(ps[..|ps| - 1]), ps[|ps| - 1])
  }

  /** The build side of a hash join: the input read completely before the join may run. */
  predicate IsBuildSide(op: Op, k: nat) {
    (op.LeftJoinOp? || op.SemiJoinOp? || op.MarkJoinOp?) && k == 1
  }

  function MinPhaseOf(op: Op, ps: seq<nat>): nat
    requires ArityIs(op, |ps|)
  {
    if op.LeftJoinOp? || op.SemiJoinOp? || op.MarkJoinOp? then Max(ps[0], ps[1] + 1)
    else if op.UnionAllOp? || op.MergeOp? then Greatest(ps)
    else if ps == [] then 0
    else ps[0]
  }

  /** The first phase an operation may run in. */
  function MinPhase(nodes: seq<Node>, i: nat): nat
    requires PlanOk(nodes) && i < |nodes|
    decreases i, 1
  {
    assert NodeOk(nodes, i);
    MinPhaseOf(nodes[i].op, InputMinPhases(nodes, i))
  }

  function InputMinPhases(nodes: seq<Node>, i: nat): (ps: seq<nat>)
    requires PlanOk(nodes) && i < |nodes|
    ensures |ps| == |nodes[i].inputs|
    ensures NodeOk(nodes, i) && forall k :: 0 <= k < |ps| ==> ps[k] == MinPhase(nodes, nodes[i].inputs[k])
    decreases i, 0
  {
    assert NodeOk(nodes, i);
    seq(|nodes[i].inputs|, k requires 0 <= k < |nodes[i].inputs| => MinPhase(nodes, nodes[i].inputs[k]))
  }

  // --- what an operation asks of its inputs ---

  function AggregateFields(aggs: seq<Aggregate>): set<FieldId> {
    set k, f | 0 <= k < |aggs| && f in AllFields(AggregateArgs(aggs[k].node)) :: f
  }

  function RequiredAggregateFields(aggs: seq<Aggregate>, required: set<FieldId>): set<FieldId> {
    set k, f | 0 <= k < |aggs| && aggs[k].output in required && f in AllFields(AggregateArgs(aggs[k].node)) :: f
  }

  function RequiredProjectorFields(ps: seq<Projector>, required: set<FieldId>): set<FieldId> {
    set k, f | 0 <= k < |ps| && ps[k].alias in required && f in Fields(ps[k].expr) :: f
  }

  /** The fields asked of input `k` when the fields `required` are asked of the operation. */
  function InputFields(op: Op, ss: seq<Schema>, required: set<FieldId>, k: nat): set<FieldId>
    requires ArityIs(op, |ss|) && k < |ss|
  {
    match op
    case AggregateOp(aggs) => AggregateFields(aggs)
    case FilterOp(c) => required + Fields(c)
    case GroupOp(aggs, keys) => AllFields(Exprs(keys)) + RequiredAggregateFields(aggs, required)
    case MarkJoinOp(key, m, output) => if k == 1 then {m} else required - {output} + Fields(key)
    case SemiJoinOp(key, m) => if k == 1 then {m} else required + Fields(key)
    case LeftJoinOp(lk, rk) => required * FieldSet(ss[k]) + Fields(if k == 1 then rk else lk)
    case MergeOp(order, _) => required + AllFields(order)
    case SortOp(order, _) => required + AllFields(order)
    case TopKOp(order, _, _) => required + AllFields(order)
    case ProjectionOp(ps) => RequiredProjectorFields(ps, required)
    case _ => required
  }

  /** The phase input `k` is asked for when the operation is asked for `phase`. */
  function InputPhase(nodes: seq<Node>, i: nat, phase: nat, k: nat): nat
    requires PlanOk(nodes) && i < |nodes| && k < |nodes[i].inputs|
  {
    assert NodeOk(nodes, i);
    var op := nodes[i].op;
    if op.AggregateOp? || op.MaterializeOp? then MinPhase(nodes, i)
    else if IsBuildSide(op, k) then MinPhase(nodes, nodes[i].inputs[k])
    else phase
  }

  /** The fields input `k` is asked for when `i` has to deliver `fields`. */
  function AskedFields(nodes: seq<Node>, i: nat, fields: set<FieldId>, k: nat): set<FieldId>
    requires PlanOk(nodes) && i < |nodes| && k < |nodes[i].inputs|
  {
    assert NodeOk(nodes, i);
    InputFields(nodes[i].op, InSchemas(nodes, i), fields, k)
  }

  /** An operation may be asked for a phase: the check on every request. */
  predicate MayAsk(nodes: seq<Node>, i: nat, phase: nat, fields: set<FieldId>)
    requires PlanOk(nodes) && i < |nodes|
  {
    MinPhase(nodes, i) <= phase && fields <= FieldSet(nodes[i].schema)
  }

  lemma MinPhaseOfBounds(op: Op, ps: seq<nat>, k: nat)
    requires ArityIs(op, |ps|) && k < |ps|
    ensures ps[k] <= MinPhaseOf(op, ps)
    ensures IsBuildSide(op, k) ==> ps[k] < MinPhaseOf(op, ps)
  {
  }

  /** An operation runs no earlier than its inputs, and strictly after the build side of a join. */
  lemma MinPhaseBounds(nodes: seq<Node>, i: nat, k: nat)
    requires PlanOk(nodes) && i < |nodes| && k < |nodes[i].inputs|
    ensures nodes[i].inputs[k] < i
    ensures MinPhase(nodes, nodes[i].inputs[k]) <= MinPhase(nodes, i)
    ensures IsBuildSide(nodes[i].op, k) ==> MinPhase(nodes, nodes[i].inputs[k]) < MinPhase(nodes, i)
  {
    assert NodeOk(nodes, i);
    hide OpOk, MinPhaseOf;
    MinPhaseOfBounds(nodes[i].op, InputMinPhases(nodes, i), k);
  }

  lemma AllFieldsFit(s: Schema, es: seq<Scalar>)
    requires ScalarsOk(s, es)
    ensures AllFields(es) <= FieldSet(s)
  {
    forall f | f in AllFields(es) ensures f in FieldSet(s) {
      var k :| 0 <= k < |es| && f in Fields(es[k]);
      assert ScalarOk(s, es[k]);
    }
  }

  lemma AggregateFieldsFit(s: Schema, aggs: seq<Aggregate>, required: set<FieldId>)
    requires AggregatesOk(s, aggs)
    ensures RequiredAggregateFields(aggs, required) <= AggregateFields(aggs) <= FieldSet(s)
  {
    forall f | f in AggregateFields(aggs) ensures f in FieldSet(s) {
      var k :| 0 <= k < |aggs| && f in AllFields(AggregateArgs(aggs[k].node));
      AllFieldsFit(s, AggregateArgs(aggs[k].node));
    }
  }

  /** What is asked of an input exists there. */
  lemma InputFieldsFit(op: Op, schema: Schema, ss: seq<Schema>, required: set<FieldId>, k: nat)
    requires OpOk(op, schema, ss) && k < |ss| && required <= FieldSet(schema)
    ensures InputFields(op, ss, required, k) <= FieldSet(ss[k])
  {
    match op {
      case MarkJoinOp(key, m, output) =>
        forall f | f in required - {output} ensures f in FieldSet(ss[0]) {
          assert f in ss[0] + [output];
        }
      case SortOp(order, _) => AllFieldsFit(ss[0], order);
      case TopKOp(order, _, _) => AllFieldsFit(ss[0], order);
      case MergeOp(order, _) => AllFieldsFit(ss[0], order);
      case ProjectionOp(ps) =>
        forall f | f in RequiredProjectorFields(ps, required) ensures f in FieldSet(ss[0]) {
          var n :| 0 <= n < |ps| && ps[n].alias in required && f in Fields(ps[n].expr);
          assert ScalarOk(ss[0], Exprs(ps)[n]);
        }
      case AggregateOp(aggs) => AggregateFieldsFit(ss[0], aggs, {});
      case GroupOp(aggs, keys) =>
        AggregateFieldsFit(ss[0], aggs, required);
        AllFieldsFit(ss[0], Exprs(keys));
      case _ =>
    }
  }

  /** A permitted request leads only to permitted requests. */
  lemma AskInput(nodes: seq<Node>, i: nat, phase: nat, fields: set<FieldId>, k: nat)
    requires PlanOk(nodes) && i < |nodes| && k < |nodes[i].inputs| && MayAsk(nodes, i, phase, fields)
    ensures nodes[i].inputs[k] < i
    ensures MayAsk(nodes, nodes[i].inputs[k], InputPhase(nodes, i, phase, k), AskedFields(nodes, i, fields, k))
  {
    assert NodeOk(nodes, i);
    MinPhaseBounds(nodes, i, k);
    InputFieldsFit(nodes[i].op, nodes[i].schema, InSchemas(nodes, i), fields, k);
  }

  // --- recorded requirements ---

  /** For every operation, the phases it runs in and the fields required of it in each. */
  type Required = seq<map<nat, set<FieldId>>>

  function Set(m: map<nat, set<FieldId>>, phase: nat, fields: set<FieldId>): map<nat, set<FieldId>> {
    m[phase := fields]
  }

  predicate Recorded(r: Required, i: nat, phase: nat, fields: set<FieldId>)
    requires i < |r|
  {
    phase in r[i] && fields <= r[i][phase]
  }

  /** What input `k` must have recorded for `i` to run in `phase` delivering `fields`. */
  predicate Asked(nodes: seq<Node>, r: Required, i: nat, phase: nat, fields: set<FieldId>, k: nat)
    requires PlanOk(nodes) && |r| == |nodes| && i < |nodes| && k < |nodes[i].inputs|
  {
    assert NodeOk(nodes, i);
    Recorded(r, nodes[i].inputs[k], InputPhase(nodes, i, phase, k), AskedFields(nodes, i, fields, k))
  }

  /** Everything `i` needs in `phase` has been asked of its inputs. */
  predicate ClosedAt(nodes: seq<Node>, r: Required, i: nat, phase: nat)
    requires PlanOk(nodes) && |r| == |nodes| && i < |nodes| && phase in r[i]
  {
    forall k :: 0 <= k < |nodes[i].inputs| ==> Asked(nodes, r, i, phase, r[i][phase], k)
  }

  predicate ClosedNode(nodes: seq<Node>, r: Required, i: nat)
    requires PlanOk(nodes) && |r| == |nodes| && i < |nodes|
  {
    forall phase :: phase in r[i] ==> ClosedAt(nodes, r, i, phase)
  }

  predicate Closed(nodes: seq<Node>, r: Required)
    requires PlanOk(nodes) && |r| == |nodes|
  {
    forall i :: 0 <= i < |nodes| ==> ClosedNode(nodes, r, i)
  }

  /** Only permitted requests were recorded. */
  predicate Permitted(nodes: seq<Node>, r: Required)
    requires PlanOk(nodes) && |r| == |nodes|
  {
    forall i, phase :: 0 <= i < |nodes| && phase in r[i] ==> MayAsk(nodes, i, phase, r[i][phase])
  }

  ghost predicate Grows(r: Required, r': Required) {
    |r'| == |r| && forall i, phase :: 0 <= i < |r| && phase in r[i] ==> Recorded(r', i, phase, r[i][phase])
  }

  lemma GrowsTransitive(r: Required, r': Required, r'': Required)
    requires Grows(r, r') && Grows(r', r'')
    ensures Grows(r, r'')
  {
    forall i, phase | 0 <= i < |r| && phase in r[i] ensures Recorded(r'', i, phase, r[i][phase]) {
      assert Recorded(r', i, phase, r[i][phase]);
      assert Recorded(r'', i, phase, r'[i][phase]);
    }
  }

  lemma RecordedGrows(r: Required, r': Required, i: nat, phase: nat, fields: set<FieldId>)
    requires i < |r| && Grows(r, r') && Recorded(r, i, phase, fields)
    ensures Recorded(r', i, phase, fields)
  {
    assert Recorded(r', i, phase, r[i][phase]);
  }

  lemma MergedMayAsk(nodes: seq<Node>, r: Required, i: nat, phase: nat, fields: set<FieldId>, merged: set<FieldId>)
    requires PlanOk(nodes) && |r| == |nodes| && Permitted(nodes, r) && i < |nodes| && MayAsk(nodes, i, phase, fields)
    requires merged == fields + (if phase in r[i] then r[i][phase] else {})
    ensures MayAsk(nodes, i, phase, merged)
  {
    hide OpOk, MinPhase;
    assert phase in r[i] ==> MayAsk(nodes, i, phase, r[i][phase]);
  }

  /** Recording a permitted request over what was recorded before keeps all that was recorded. */
  lemma SetGrows(nodes: seq<Node>, r: Required, i: nat, phase: nat, fields: set<FieldId>)
    requires PlanOk(nodes) && |r| == |nodes| && Permitted(nodes, r) && i < |nodes| && MayAsk(nodes, i, phase, fields)
    requires phase in r[i] ==> r[i][phase] <= fields
    ensures Grows(r, r[i := Set(r[i], phase, fields)]) && Permitted(nodes, r[i := Set(r[i], phase, fields)])
  {
    hide OpOk, MinPhase;
  }

  lemma AskedGrows(nodes: seq<Node>, r: Required, r': Required, i: nat, phase: nat, fields: set<FieldId>, k: nat)
    requires PlanOk(nodes) && |r| == |nodes| && i < |nodes| && k < |nodes[i].inputs|
    requires Grows(r, r') && Asked(nodes, r, i, phase, fields, k)
    ensures Asked(nodes, r', i, phase, fields, k)
  {
    assert NodeOk(nodes, i);
    hide AskedFields, InputPhase;
    var child, p := nodes[i].inputs[k], InputPhase(nodes, i, phase, k);
    assert Recorded(r', child, p, r[child][p]);
  }

  /** Closure at a node survives growth elsewhere. */
  lemma ClosedGrows(nodes: seq<Node>, r: Required, r': Required, i: nat, phase: nat)
    requires PlanOk(nodes) && |r| == |nodes| && i < |nodes| && phase in r[i]
    requires Grows(r, r') && phase in r'[i] && r'[i][phase] == r[i][phase] && ClosedAt(nodes, r, i, phase)
    ensures ClosedAt(nodes, r', i, phase)
  {
    forall k | 0 <= k < |nodes[i].inputs| ensures Asked(nodes, r', i, phase, r'[i][phase], k) {
      AskedGrows(nodes, r, r', i, phase, r[i][phase], k);
    }
  }

  lemma ClosedNodeGrows(nodes: seq<Node>, r: Required, r': Required, i: nat)
    requires PlanOk(nodes) && |r| == |nodes| && i < |nodes|
    requires Grows(r, r') && r'[i] == r[i] && ClosedNode(nodes, r, i)
    ensures ClosedNode(nodes, r', i)
  {
    forall p | p in r'[i] ensures ClosedAt(nodes, r', i, p) {
      ClosedGrows(nodes, r, r', i, p);
    }
  }

  /** Half way through asking the inputs of `i`: the first `k` were asked, and everything earlier is closed. */
  ghost predicate Progress(nodes: seq<Node>, r: Required, i: nat, phase: nat, fields: set<FieldId>, k: nat)
    requires PlanOk(nodes) && |r| == |nodes| && i < |nodes| && k <= |nodes[i].inputs|
  {
    && (forall j :: 0 <= j < i ==> ClosedNode(nodes, r, j))
    && (forall n :: 0 <= n < k ==> Asked(nodes, r, i, phase, fields, n))
  }

  lemma ProgressStep(nodes: seq<Node>, r: Required, r': Required, i: nat, phase: nat, fields: set<FieldId>, k: nat)
    requires PlanOk(nodes) && |r| == |nodes| && i < |nodes| && k < |nodes[i].inputs|
    requires Progress(nodes, r, i, phase, fields, k) && Grows(r, r') && |r'| == |r|
    requires Asked(nodes, r', i, phase, fields, k)
    requires nodes[i].inputs[k] < i
    requires forall j :: 0 <= j <= nodes[i].inputs[k] ==> ClosedNode(nodes, r', j)
    requires forall j :: nodes[i].inputs[k] < j < |nodes| ==> r'[j] == r[j]
    ensures Progress(nodes, r', i, phase, fields, k + 1)
  {
    hide OpOk, Asked, Grows;
    forall j | nodes[i].inputs[k] < j < i ensures ClosedNode(nodes, r', j) {
      ClosedNodeGrows(nodes, r, r', j);
    }
    forall n | 0 <= n < k ensures Asked(nodes, r', i, phase, fields, n) {
      AskedGrows(nodes, r, r', i, phase, fields, n);
    }
  }

  /** When all inputs of `i` were asked for one phase, and its other phases were closed before, `i` is closed. */
  lemma ProgressDone(nodes: seq<Node>, r: Required, r': Required, i: nat, phase: nat)
    requires PlanOk(nodes) && |r| == |nodes| && i < |nodes| && phase in r[i]
    requires Grows(r, r') && |r'| == |r| && r'[i] == r[i]
    requires Progress(nodes, r', i, phase, r[i][phase], |nodes[i].inputs|)
    requires forall p :: p in r[i] && p != phase ==> ClosedAt(nodes, r, i, p)
    ensures forall j :: 0 <= j <= i ==> ClosedNode(nodes, r', j)
  {
    hide OpOk, Asked, Grows;
    forall p | p in r'[i] ensures ClosedAt(nodes, r', i, p) {
      if p != phase {
        ClosedGrows(nodes, r, r', i, p);
      }
    }
  }

  function Members(tops: seq<nat>): set<nat> { set t | 0 <= t < |tops| :: tops[t] }

  /** Every query's operation is recorded in its first phase, with all of its columns. */
  predicate TopsRecorded(nodes: seq<Node>, r: Required, tops: seq<nat>)
    requires PlanOk(nodes) && |r| == |nodes|
  {
    forall t :: 0 <= t < |tops| ==>
      tops[t] < |nodes| && Recorded(r, tops[t], MinPhase(nodes, tops[t]), FieldSet(nodes[tops[t]].schema))
  }

  // --- nothing more is recorded ---

  /** A reader of `i` asks for it in `phase`: input `k` of `j`, when `j` runs in phase `q`. */
  ghost predicate AskedBy(nodes: seq<Node>, r: Required, i: nat, phase: nat, j: nat, q: nat, k: nat)
    requires PlanOk(nodes) && |r| == |nodes|
  {
    && j < |nodes| && q in r[j] && k < |nodes[j].inputs|
    && nodes[j].inputs[k] == i && InputPhase(nodes, j, q, k) == phase
  }

  /** A phase somebody needs: a query reads the operation in its first phase, or a reader asks for it. */
  ghost predicate Needed(nodes: seq<Node>, r: Required, roots: set<nat>, i: nat, phase: nat)
    requires PlanOk(nodes) && |r| == |nodes| && i < |nodes|
  {
    (i in roots && phase == MinPhase(nodes, i)) || exists j: nat, q: nat, k: nat :: AskedBy(nodes, r, i, phase, j, q, k)
  }

  /** Every recorded phase is needed. */
  ghost predicate Justified(nodes: seq<Node>, r: Required, roots: set<nat>)
    requires PlanOk(nodes) && |r| == |nodes|
  {
    forall i, phase :: 0 <= i < |nodes| && phase in r[i] ==> Needed(nodes, r, roots, i, phase)
  }

  lemma NeededGrows(nodes: seq<Node>, r: Required, r': Required, roots: set<nat>, roots': set<nat>, i: nat, phase: nat)
    requires PlanOk(nodes) && |r| == |nodes| && i < |nodes| && Grows(r, r') && roots <= roots'
    requires Needed(nodes, r, roots, i, phase)
    ensures Needed(nodes, r', roots', i, phase)
  {
    hide OpOk, InputPhase, MinPhase;
    if j: nat, q: nat, k: nat :| AskedBy(nodes, r, i, phase, j, q, k) {
      assert Recorded(r', j, q, r[j][q]);
      assert AskedBy(nodes, r', i, phase, j, q, k);
    }
  }

  /** Recording one needed phase keeps everything justified. */
  lemma JustifiedSet(nodes: seq<Node>, r: Required, r': Required, roots: set<nat>, roots': set<nat>, i: nat, phase: nat)
    requires PlanOk(nodes) && |r| == |r'| == |nodes| && i < |nodes| && Grows(r, r') && roots <= roots'
    requires Justified(nodes, r, roots) && Needed(nodes, r, roots', i, phase)
    requires forall j, p :: 0 <= j < |nodes| && p in r'[j] ==> p in r[j] || (j == i && p == phase)
    ensures Justified(nodes, r', roots')
  {
    hide Needed;
    forall j, p | 0 <= j < |nodes| && p in r'[j] ensures Needed(nodes, r', roots', j, p) {
      if j == i && p == phase {
        NeededGrows(nodes, r, r', roots', roots', j, p);
      } else {
        NeededGrows(nodes, r, r', roots, roots', j, p);
      }
    }
  }
}
