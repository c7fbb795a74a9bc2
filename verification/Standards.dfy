/** What is asked of every scalar of a tree, on every row it is evaluated on. */
module Standards {
  import opened Values
  import opened Sequences
  import opened Scalars
  import opened Outcomes
  import opened Relations
  import opened ScalarSimplify
  import opened ScalarRewrites

  // --- the scalars of an operator and the rows they see ---

  function AggregateScalars(aggs: seq<Aggregate>): set<Scalar> {
    set i, e | 0 <= i < |aggs| && e in AggregateArgs(aggs[i].node) :: e
  }

  function ProjectorScalars(ps: seq<Projector>): set<Scalar> {
    set i | 0 <= i < |ps| :: ps[i].expr
  }

  /** The scalars evaluated on the rows of the first input; a merge orders both inputs by them. */
  function LeftScalars(op: Op): set<Scalar> {
    match op
    case ProjectionOp(ps) => ProjectorScalars(ps)
    case FilterOp(c) => {c}
    case SortOp(order, _) => set e | e in order
    case TopKOp(order, _, _) => set e | e in order
    case MergeOp(order, _) => set e | e in order
    case LeftJoinOp(lk, _) => {lk}
    case SemiJoinOp(key, _) => {key}
    case MarkJoinOp(key, _, _) => {key}
    case AggregateOp(aggs) => AggregateScalars(aggs)
    case GroupOp(aggs, keys) => AggregateScalars(aggs) + ProjectorScalars(keys)
    case _ => {}
  }

  function RightScalars(op: Op): set<Scalar> {
    if op.LeftJoinOp? then {op.rightKey} else {}
  }

  function LeftRows(op: Op, ins: seq<seq<Row>>): seq<Row> {
    if ins == [] then [] else if op.MergeOp? && |ins| == 2 then ins[0] + ins[1] else ins[0]
  }

  // --- standards ---

  /**
   * How much is asked: that filters can decide every row, that no scalar fails either, or that moreover all
   * scalars and aggregates have their declared types.
   */
  datatype Standard = Decides | Evaluates | Typed

  ghost predicate Good(std: Standard, env: Env, s: Schema, row: Row, e: Scalar) {
    match std
    case Decides => true
    case Evaluates => Run(env, s, row, e).Done?
    case Typed => ArityOk(e) && Proper(env, s, row, e)
  }

  predicate IsAnd(c: Scalar) {
    c.Call? && c.fn == And && |c.args| == 2
  }

  /** Every conjunct of a condition is a boolean on this row, and all of it is good. */
  ghost predicate GoodCondition(std: Standard, env: Env, s: Schema, row: Row, c: Scalar) {
    && Good(std, env, s, row, c)
    && if IsAnd(c) then GoodCondition(std, env, s, row, c.args[0]) && GoodCondition(std, env, s, row, c.args[1])
       else IsBool(Run(env, s, row, c))
  }

  ghost predicate GoodScalars(std: Standard, env: Env, s: Schema, rows: seq<Row>, es: set<Scalar>) {
    forall e, row :: e in es && row in rows ==> Good(std, env, s, row, e)
  }

  ghost predicate GoodFilter(std: Standard, env: Env, s: Schema, rows: seq<Row>, c: Scalar) {
    forall row :: row in rows ==> GoodCondition(std, env, s, row, c)
  }

  ghost predicate TypedOver(env: Env, s: Schema, rows: seq<Row>, aggs: seq<Aggregate>) {
    forall i | 0 <= i < |aggs| :: HasType(AggregateValue(env, s, rows, aggs[i].node), aggs[i].ty)
  }

  /** Aggregated values, over all rows or over each group, have their declared types. */
  ghost predicate AggregatesTyped(env: Env, op: Op, s: Schema, rows: seq<Row>) {
    match op
    case AggregateOp(aggs) => TypedOver(env, s, rows, aggs)
    case GroupOp(aggs, keys) =>
      forall k :: k in Map(KeyFn(env, s, Exprs(keys)), rows) ==> TypedOver(env, s, Filter(HasKey(env, s, keys, k), rows), aggs)
    case _ => true
  }

  ghost predicate GoodOp(std: Standard, env: Env, op: Op, ss: seq<Schema>, ins: seq<seq<Row>>)
    requires |ss| == |ins|
  {
    && (|ss| >= 1 ==> GoodScalars(std, env, ss[0], LeftRows(op, ins), LeftScalars(op)))
    && (|ss| >= 2 ==> GoodScalars(std, env, ss[1], ins[1], RightScalars(op)))
    && (|ss| >= 1 && op.FilterOp? ==> GoodFilter(std, env, ss[0], ins[0], op.condition))
    && (|ss| >= 1 && std.Typed? ==> AggregatesTyped(env, op, ss[0], ins[0]))
  }

  /** Every scalar of a tree is good on all rows it is evaluated on. */
  ghost predicate GoodTree(std: Standard, env: Env, r: Relation)
    requires WellFormed(r)
    decreases r
  {
    && GoodOp(std, env, r.op, Schemas(r.inputs), DenoteAll(env, r.inputs))
    && forall i | 0 <= i < |r.inputs| :: GoodTree(std, env, r.inputs[i])
  }

  /** Every scalar of a tree is proper on all rows it is evaluated on. */
  ghost predicate ProperTree(env: Env, r: Relation)
    requires WellFormed(r)
  {
    GoodTree(Typed, env, r)
  }

  // --- conditions ---

  lemma {:induction false} ConditionDecides(std: Standard, env: Env, s: Schema, row: Row, c: Scalar)
    requires GoodCondition(std, env, s, row, c)
    ensures IsBool(Run(env, s, row, c)) && Eval(env, s, row, c).Bool?
  {
    RunGives(env, s, row, c);
    if IsAnd(c) {
      ConditionDecides(std, env, s, row, c.args[0]);
      ConditionDecides(std, env, s, row, c.args[1]);
      BinaryOutcome(env, s, row, c);
    }
  }

  /** A proper condition with a boolean value has only boolean conjuncts. */
  lemma {:induction false} ProperCondition(env: Env, s: Schema, row: Row, c: Scalar)
    requires ArityOk(c) && Proper(env, s, row, c) && Eval(env, s, row, c).Bool?
    ensures GoodCondition(Typed, env, s, row, c)
  {
    ProperRuns(env, s, row, c);
    if IsAnd(c) {
      assert EvalAll(env, s, row, c.args)[0].Bool? && EvalAll(env, s, row, c.args)[1].Bool?;
      ProperCondition(env, s, row, c.args[0]);
      ProperCondition(env, s, row, c.args[1]);
    }
  }

  /** The conjunction of two good conditions is one. */
  lemma BothGood(std: Standard, env: Env, s: Schema, row: Row, left: Scalar, right: Scalar)
    requires GoodCondition(std, env, s, row, left) && GoodCondition(std, env, s, row, right)
    ensures GoodCondition(std, env, s, row, Call(And, [left, right], BooleanType))
  {
    var c := Call(And, [left, right], BooleanType);
    ConditionDecides(std, env, s, row, left);
    ConditionDecides(std, env, s, row, right);
    BinaryOutcome(env, s, row, c);
    assert c.args[0] == left && c.args[1] == right;
    UnfoldArgs(env, s, row, c);
    assert EvalAll(env, s, row, c.args) == [Eval(env, s, row, left), Eval(env, s, row, right)];
    if std.Typed? {
      assert forall i | 0 <= i < |c.args| :: ArityOk(c.args[i]) && Proper(env, s, row, c.args[i]);
    }
  }

  // --- rows that hold the same fields ---

  lemma {:induction false} ProperAgree(env: Env, s: Schema, row: Row, s': Schema, row': Row, e: Scalar)
    requires forall f :: f in Fields(e) ==> At(s, row, f) == At(s', row', f)
    requires Proper(env, s, row, e)
    ensures Proper(env, s', row', e)
  {
    EvalAgree(env, s, row, s', row', e);
    if e.Cached? {
      ProperAgree(env, s, row, s', row', e.inner);
    } else if e.Call? || e.Coalesce? {
      forall i | 0 <= i < |e.args| ensures Proper(env, s', row', e.args[i]) {
        assert Fields(e.args[i]) <= Fields(e);
        ProperAgree(env, s, row, s', row', e.args[i]);
      }
      EvalAllAgree(env, s, row, s', row', e.args);
    }
  }

  lemma GoodAgree(std: Standard, env: Env, s: Schema, row: Row, s': Schema, row': Row, e: Scalar)
    requires forall f :: f in Fields(e) ==> At(s, row, f) == At(s', row', f)
    requires Good(std, env, s, row, e)
    ensures Good(std, env, s', row', e)
  {
    RunAgree(env, s, row, s', row', e);
    if std.Typed? {
      ProperAgree(env, s, row, s', row', e);
    }
  }

  lemma {:induction false} ConditionAgree(std: Standard, env: Env, s: Schema, row: Row, s': Schema, row': Row, c: Scalar)
    requires forall f :: f in Fields(c) ==> At(s, row, f) == At(s', row', f)
    requires GoodCondition(std, env, s, row, c)
    ensures GoodCondition(std, env, s', row', c)
  {
    GoodAgree(std, env, s, row, s', row', c);
    RunAgree(env, s, row, s', row', c);
    if IsAnd(c) {
      assert Fields(c.args[0]) <= Fields(c) && Fields(c.args[1]) <= Fields(c);
      ConditionAgree(std, env, s, row, s', row', c.args[0]);
      ConditionAgree(std, env, s, row, s', row', c.args[1]);
    }
  }

  // --- aggregates of agreeing operators ---

  predicate SameTypes(aggs: seq<Aggregate>, bggs: seq<Aggregate>) {
    |aggs| == |bggs| && forall i | 0 <= i < |aggs| :: bggs[i].ty == aggs[i].ty
  }

  /** The aggregates of two operators of one kind are declared with the same types. */
  predicate SameAggregateTypes(op: Op, q: Op) {
    && (op.AggregateOp? && q.AggregateOp? ==> SameTypes(op.aggregates, q.aggregates))
    && (op.GroupOp? && q.GroupOp? ==> SameTypes(op.aggregates, q.aggregates))
  }

  lemma TypedAgree(env: Env, s: Schema, all: seq<Row>, rows: seq<Row>, aggs: seq<Aggregate>, bggs: seq<Aggregate>)
    requires AggregatesAgree(env, s, all, aggs, bggs) && Within(rows, all)
    requires SameTypes(aggs, bggs) && TypedOver(env, s, rows, aggs)
    ensures TypedOver(env, s, rows, bggs)
  {
    hide AggregatesAgree;
    ScalarRewrites.AggregateRowAgrees(env, s, all, rows, aggs, bggs);
    forall i | 0 <= i < |bggs| ensures HasType(AggregateValue(env, s, rows, bggs[i].node), bggs[i].ty) {
      assert AggregateRow(env, s, rows, aggs)[i] == AggregateRow(env, s, rows, bggs)[i];
    }
  }

  /** Aggregates over agreeing scalars have the same types. */
  lemma AgreeingTyped(env: Env, op: Op, q: Op, ss: seq<Schema>, ins: seq<seq<Row>>)
    requires |ss| == |ins| && |ss| >= 1 && ArityIs(op, |ins|) && OpAgrees(env, op, q, ss, ins)
    requires SameAggregateTypes(op, q) && AggregatesTyped(env, op, ss[0], ins[0])
    ensures AggregatesTyped(env, q, ss[0], ins[0])
  {
    var s, rows := ss[0], ins[0];
    if op.AggregateOp? {
      TypedAgree(env, s, rows, rows, op.aggregates, q.aggregates);
    } else if op.GroupOp? {
      KeysAgree(env, s, rows, Exprs(op.keys), Exprs(q.keys));
      assert Map(KeyFn(env, s, Exprs(op.keys)), rows) == Map(KeyFn(env, s, Exprs(q.keys)), rows);
      forall k | k in Map(KeyFn(env, s, Exprs(q.keys)), rows)
        ensures TypedOver(env, s, Filter(HasKey(env, s, q.keys, k), rows), q.aggregates)
      {
        FilterOn(HasKey(env, s, op.keys, k), HasKey(env, s, q.keys, k), rows);
        FilterMembers(HasKey(env, s, op.keys, k), rows);
        TypedAgree(env, s, rows, Filter(HasKey(env, s, op.keys, k), rows), op.aggregates, q.aggregates);
      }
    }
  }

  // --- trees ---

  /** Fewer rows, each of them seen before. */
  ghost predicate Fewer(outs: seq<seq<Row>>, ins: seq<seq<Row>>) {
    |outs| == |ins| && forall i :: 0 <= i < |ins| ==> Within(outs[i], ins[i])
  }

  ghost predicate Within(some: seq<Row>, all: seq<Row>) {
    forall row :: row in some ==> row in all
  }

  /** Operators that look at each row by itself stay good on fewer rows. */
  lemma GoodOnFewer(std: Standard, env: Env, op: Op, ss: seq<Schema>, ins: seq<seq<Row>>, outs: seq<seq<Row>>)
    requires |ss| == |ins| && GoodOp(std, env, op, ss, ins) && Fewer(outs, ins)
    requires !op.AggregateOp? && !op.GroupOp?
    ensures GoodOp(std, env, op, ss, outs)
  {
    hide Good, GoodCondition;
    assert |ss| >= 1 ==> Within(LeftRows(op, outs), LeftRows(op, ins)) by {
      if |ss| == 2 {
        assert Within(outs[0], ins[0]) && Within(outs[1], ins[1]);
      }
    }
  }

  /** The operator of a good tree may be put over inputs with the same columns and rows. */
  lemma GoodCongruence(std: Standard, env: Env, r: Relation, qs: seq<Relation>)
    requires WellFormed(r) && GoodTree(std, env, r) && |qs| == |r.inputs|
    requires forall i :: 0 <= i < |qs| ==> Replaces(env, qs[i], r.inputs[i]) && WellFormed(qs[i]) && GoodTree(std, env, qs[i])
    ensures WellFormed(r.(inputs := qs)) && GoodTree(std, env, r.(inputs := qs))
  {
    hide GoodOp, Sound;
    InputsKept(r, qs);
    assert Schemas(qs) == Schemas(r.inputs);
    assert DenoteAll(env, qs) == DenoteAll(env, r.inputs);
  }

  lemma FilteredWithin(p: Row -> bool, rows: seq<Row>)
    ensures Within(Filter(p, rows), rows)
  {
    FilterMembers(p, rows);
  }

  /** A node over inputs with fewer rows stays good. */
  lemma FewerInputsGood(std: Standard, env: Env, source: Relation, r: Relation)
    requires WellFormed(source) && GoodTree(std, env, source) && WellFormed(r) && r.op == source.op
    requires !r.op.AggregateOp? && !r.op.GroupOp? && |r.inputs| == |source.inputs|
    requires forall i :: 0 <= i < |r.inputs| ==>
      && r.inputs[i].schema == source.inputs[i].schema
      && GoodTree(std, env, r.inputs[i])
      && Within(Denote(env, r.inputs[i]), Denote(env, source.inputs[i]))
    ensures GoodTree(std, env, r)
  {
    hide GoodOp, OpOk;
    assert Schemas(r.inputs) == Schemas(source.inputs);
    assert Fewer(DenoteAll(env, r.inputs), DenoteAll(env, source.inputs));
    GoodOnFewer(std, env, source.op, Schemas(source.inputs), DenoteAll(env, source.inputs), DenoteAll(env, r.inputs));
  }

  lemma GoodInput(std: Standard, env: Env, r: Relation, i: nat)
    requires WellFormed(r) && GoodTree(std, env, r) && i < |r.inputs|
    ensures WellFormed(r.inputs[i]) && GoodTree(std, env, r.inputs[i])
  {
  }

  lemma GoodMember(std: Standard, env: Env, r: Relation, q: Relation)
    requires WellFormed(r) && GoodTree(std, env, r) && q in r.inputs
    ensures WellFormed(q) && GoodTree(std, env, q)
  {
    var i :| 0 <= i < |r.inputs| && r.inputs[i] == q;
    GoodInput(std, env, r, i);
  }

  /** No filter of a good tree fails on a row of its source. */
  lemma FiltersDecide(std: Standard, env: Env, r: Relation)
    requires WellFormed(r) && GoodTree(std, env, r) && r.op.FilterOp?
    ensures |r.inputs| == 1
    ensures forall row :: row in Denote(env, r.inputs[0]) ==> IsBool(Run(env, r.inputs[0].schema, row, r.op.condition))
  {
    forall row | row in Denote(env, r.inputs[0])
      ensures IsBool(Run(env, r.inputs[0].schema, row, r.op.condition))
    {
      assert row in DenoteAll(env, r.inputs)[0];
      ConditionDecides(std, env, r.inputs[0].schema, row, r.op.condition);
    }
  }
}
