/** Moving filters towards the leaves. */
module FilterPushdown {
  import opened Values
  import opened Sequences
  import opened Wrappers
  import opened Scalars
  import opened Relations
  import S = Sorting

  // --- conditions ---

  function Conjunction(left: Option<Scalar>, right: Option<Scalar>): Option<Scalar> {
    if left.None? then right
    else if right.None? then left
    else Some(Call(And, [left.value, right.value], BooleanType))
  }

  datatype SplitCondition = SplitCondition(pushable: Option<Scalar>, remaining: Option<Scalar>)

  ghost predicate PartOk(part: Option<Scalar>, fields: set<FieldId>) {
    part.Some? ==> ArityOk(part.value) && Fields(part.value) <= fields
  }

  lemma ConjunctionOk(left: Option<Scalar>, right: Option<Scalar>, fields: set<FieldId>)
    requires PartOk(left, fields) && PartOk(right, fields)
    ensures PartOk(Conjunction(left, right), fields)
  {
  }

  /** The conjuncts that read only the given fields, and the rest. */
  function Split(condition: Scalar, fields: set<FieldId>): (r: SplitCondition)
    requires ArityOk(condition)
    ensures PartOk(r.pushable, Fields(condition) * fields) && PartOk(r.remaining, Fields(condition))
    ensures r.pushable.Some? || r.remaining.Some?
  {
    if condition.Call? && condition.fn == And then
      var left := Split(condition.args[0], fields);
      var right := Split(condition.args[1], fields);
      ConjunctionOk(left.pushable, right.pushable, Fields(condition) * fields);
      ConjunctionOk(left.remaining, right.remaining, Fields(condition));
      SplitCondition(Conjunction(left.pushable, right.pushable), Conjunction(left.remaining, right.remaining))
    else if Fields(condition) <= fields then
      SplitCondition(Some(condition), None)
    else
      SplitCondition(None, Some(condition))
  }

  predicate Holds(env: Env, s: Schema, row: Row, part: Option<Scalar>) {
    part.Some? ==> IsTrue(Eval(env, s, row, part.value))
  }

  lemma ConjunctionHolds(env: Env, s: Schema, row: Row, left: Option<Scalar>, right: Option<Scalar>)
    ensures Holds(env, s, row, Conjunction(left, right)) <==> Holds(env, s, row, left) && Holds(env, s, row, right)
  {
    if left.Some? && right.Some? {
      var both := Call(And, [left.value, right.value], BooleanType);
      assert Eval(env, s, row, both) ==
             Bool(IsTrue(Eval(env, s, row, both.args[0])) && IsTrue(Eval(env, s, row, both.args[1])));
    }
  }

  /** A condition holds on a row exactly when both of its parts do. */
  lemma {:induction false} SplitMeaning(env: Env, s: Schema, row: Row, condition: Scalar, fields: set<FieldId>)
    requires ArityOk(condition)
    ensures IsTrue(Eval(env, s, row, condition)) <==>
            Holds(env, s, row, Split(condition, fields).pushable) && Holds(env, s, row, Split(condition, fields).remaining)
  {
    if condition.Call? && condition.fn == And {
      var left := Split(condition.args[0], fields);
      var right := Split(condition.args[1], fields);
      SplitMeaning(env, s, row, condition.args[0], fields);
      SplitMeaning(env, s, row, condition.args[1], fields);
      ConjunctionHolds(env, s, row, left.pushable, right.pushable);
      ConjunctionHolds(env, s, row, left.remaining, right.remaining);
      assert Eval(env, s, row, condition) ==
             Bool(IsTrue(Eval(env, s, row, condition.args[0])) && IsTrue(Eval(env, s, row, condition.args[1])));
    }
  }

  /** Splitting a remainder again finds nothing more to push. */
  lemma {:induction false} SplitRemainder(condition: Scalar, fields: set<FieldId>)
    requires ArityOk(condition)
    ensures var rest := Split(condition, fields).remaining;
            rest.Some? ==> Split(rest.value, fields).pushable.None?
  {
    if condition.Call? && condition.fn == And {
      SplitRemainder(condition.args[0], fields);
      SplitRemainder(condition.args[1], fields);
    }
  }

  // --- renaming ---

  /** The columns of a projection that merely forward a field, with the field they forward. */
  function ForwardedFields(ps: seq<Projector>): (m: map<FieldId, FieldId>)
    ensures forall a :: a in m ==> exists i :: 0 <= i < |ps| && ps[i].alias == a && ps[i].expr.Field? && ps[i].expr.id == m[a]
  {
    if ps == [] then map[]
    else
      var rest := ForwardedFields(ps[..|ps| - 1]);
      var p := ps[|ps| - 1];
      if p.expr.Field? && p.alias !in rest then rest[p.alias := p.expr.id] else rest
  }

  function Rebind(e: Scalar, fields: map<FieldId, FieldId>): (r: Scalar)
    requires Fields(e) <= fields.Keys
    ensures ArityOk(e) ==> ArityOk(r)
    ensures forall f :: f in Fields(r) ==> f in fields.Values
  {
    match e
    case Field(id, ty) => Field(fields[id], ty)
    case Const(_, _) => e
    case Coalesce(args, ty) => Coalesce(RebindAll(args, fields), ty)
    case Call(fn, args, ty) => Call(fn, RebindAll(args, fields), ty)
    case Cached(inner, ty) => Cached(Rebind(inner, fields), ty)
  }

  function RebindAll(es: seq<Scalar>, fields: map<FieldId, FieldId>): (rs: seq<Scalar>)
    requires AllFields(es) <= fields.Keys
    ensures |rs| == |es|
    ensures forall i :: 0 <= i < |es| ==> Fields(es[i]) <= AllFields(es)
    ensures forall i :: 0 <= i < |es| ==> rs[i] == Rebind(es[i], fields)
    ensures forall i :: 0 <= i < |es| && ArityOk(es[i]) ==> ArityOk(rs[i])
    ensures forall i, f :: 0 <= i < |es| && f in Fields(rs[i]) ==> f in fields.Values
  {
    assert forall i :: 0 <= i < |es| ==> Fields(es[i]) <= AllFields(es);
    seq(|es|, i requires 0 <= i < |es| => Rebind(es[i], fields))
  }

  /** A rebound scalar reads from the source row what the original reads from the renamed row. */
  lemma {:induction false} RebindMeaning(env: Env, s: Schema, row: Row, s': Schema, row': Row,
                                         e: Scalar, fields: map<FieldId, FieldId>)
    requires Fields(e) <= fields.Keys
    requires forall f :: f in fields ==> At(s', row', f) == At(s, row, fields[f])
    ensures Eval(env, s, row, Rebind(e, fields)) == Eval(env, s', row', e)
  {
    match e
    case Field(_, _) =>
    case Const(_, _) =>
    case Coalesce(args, _) => RebindAllMeaning(env, s, row, s', row', args, fields);
    case Call(_, args, _) => RebindAllMeaning(env, s, row, s', row', args, fields);
    case Cached(inner, _) => RebindMeaning(env, s, row, s', row', inner, fields);
  }

  lemma {:induction false} RebindAllMeaning(env: Env, s: Schema, row: Row, s': Schema, row': Row,
                                            es: seq<Scalar>, fields: map<FieldId, FieldId>)
    requires AllFields(es) <= fields.Keys
    requires forall f :: f in fields ==> At(s', row', f) == At(s, row, fields[f])
    ensures var rs := RebindAll(es, fields);
            seq(|rs|, i requires 0 <= i < |rs| => Eval(env, s, row, rs[i])) ==
            seq(|es|, i requires 0 <= i < |es| => Eval(env, s', row', es[i]))
  {
    var rs := RebindAll(es, fields);
    forall i | 0 <= i < |es| ensures Eval(env, s, row, rs[i]) == Eval(env, s', row', es[i]) {
      assert Fields(es[i]) <= AllFields(es);
      RebindMeaning(env, s, row, s', row', es[i], fields);
    }
  }

  lemma ForwardedAt(env: Env, s: Schema, row: Row, ps: seq<Projector>, f: FieldId)
    requires Distinct(Aliases(ps)) && f in ForwardedFields(ps)
    ensures At(Aliases(ps), ProjectFn(env, s, ps)(row), f) == At(s, row, ForwardedFields(ps)[f])
  {
    var i :| 0 <= i < |ps| && ps[i].alias == f && ps[i].expr.Field? && ps[i].expr.id == ForwardedFields(ps)[f];
    assert Aliases(ps)[i] == f;
    SlotUnique(Aliases(ps), i);
    assert Exprs(ps)[i] == ps[i].expr;
  }

  // --- the rewrite ---

  function FilterNode(source: Relation, condition: Scalar): Relation {
    Relation(FilterOp(condition), [source], source.schema)
  }

  predicate Fits(source: Relation, condition: Scalar) {
    WellFormed(source) && ScalarOk(source.schema, condition)
  }

  lemma FilterNodeOk(source: Relation, condition: Scalar)
    requires Fits(source, condition)
    ensures WellFormed(FilterNode(source, condition))
  {
    var q := FilterNode(source, condition);
    assert Schemas(q.inputs) == [source.schema];
    assert Distinct(source.schema);
  }

  /** The fields a filter may be pushed for when it sits on a projection. */
  function ProjectionFields(source: Relation): map<FieldId, FieldId>
    requires source.op.ProjectionOp?
  {
    ForwardedFields(source.op.projectors)
  }

  /** A pushable conjunct, renamed, fits the projection's source. */
  lemma RebindFits(source: Relation, e: Scalar)
    requires WellFormed(source) && source.op.ProjectionOp?
    requires ArityOk(e) && Fields(e) <= ProjectionFields(source).Keys
    ensures Fits(source.inputs[0], Rebind(e, ProjectionFields(source)))
  {
    var ps := source.op.projectors;
    var m := ForwardedFields(ps);
    var q := Rebind(e, m);
    forall f | f in Fields(q) ensures f in FieldSet(source.inputs[0].schema) {
      var a :| a in m && m[a] == f;
      var i :| 0 <= i < |ps| && ps[i].alias == a && ps[i].expr.Field? && ps[i].expr.id == m[a];
      assert Exprs(ps)[i] == ps[i].expr;
      assert Schemas(source.inputs)[0] == source.inputs[0].schema;
    }
  }

  /** Filters the source by a condition, sinking what can sink. */
  function AddFilter(source: Relation, condition: Scalar): (r: Relation)
    requires Fits(source, condition)
    ensures WellFormed(r) && r.schema == source.schema
    decreases source
  {
    FilterNodeOk(source, condition);
    match source.op
    case UnionAllOp => AddToAll(source, condition)
    case MergeOp(_, _) => AddToAll(source, condition)
    case SortOp(_, _) => AddToAll(source, condition)
    case ProjectionOp(ps) =>
      var fields := ProjectionFields(source);
      var split := Split(condition, fields.Keys);
      if split.pushable.None? then FilterNode(source, condition)
      else
        RebindFits(source, split.pushable.value);
        Remain(AddToFirst(source, Rebind(split.pushable.value, fields)), split.remaining)
    case LeftJoinOp(_, _) =>
      var split := Split(condition, FieldSet(source.inputs[0].schema));
      if split.pushable.None? then FilterNode(source, condition)
      else Remain(AddToFirst(source, split.pushable.value), split.remaining)
    case _ => FilterNode(source, condition)
  }

  lemma SameSchema(source: Relation)
    requires WellFormed(source) && (source.op.UnionAllOp? || source.op.MergeOp? || source.op.SortOp?)
    ensures forall i :: 0 <= i < |source.inputs| ==> source.inputs[i].schema == source.schema
  {
    forall i | 0 <= i < |source.inputs| ensures source.inputs[i].schema == source.schema {
      assert Schemas(source.inputs)[i] == source.inputs[i].schema;
    }
  }

  /** Adds the filter to every input of a node whose inputs have its schema. */
  function AddToAll(source: Relation, condition: Scalar): (r: Relation)
    requires Fits(source, condition) && (source.op.UnionAllOp? || source.op.MergeOp? || source.op.SortOp?)
    ensures WellFormed(r) && r.schema == source.schema && r.op == source.op && |r.inputs| == |source.inputs|
    ensures forall i :: 0 <= i < |source.inputs| ==>
      Fits(source.inputs[i], condition) && r.inputs[i] == AddFilter(source.inputs[i], condition)
    decreases source, 0
  {
    SameSchema(source);
    var qs := seq(|source.inputs|, i requires 0 <= i < |source.inputs| => AddFilter(source.inputs[i], condition));
    InputsKept(source, qs);
    source.(inputs := qs)
  }

  /** Adds the filter to the first input of a node. */
  function AddToFirst(source: Relation, condition: Scalar): (r: Relation)
    requires WellFormed(source) && source.inputs != [] && Fits(source.inputs[0], condition)
    ensures WellFormed(r) && r.schema == source.schema && r.op == source.op
    ensures r.inputs == source.inputs[0 := AddFilter(source.inputs[0], condition)]
    decreases source, 0
  {
    var qs := source.inputs[0 := AddFilter(source.inputs[0], condition)];
    InputsKept(source, qs);
    source.(inputs := qs)
  }

  function Remain(source: Relation, rest: Option<Scalar>): (r: Relation)
    requires WellFormed(source) && PartOk(rest, FieldSet(source.schema))
    ensures WellFormed(r) && r.schema == source.schema
  {
    match rest
    case None => source
    case Some(c) =>
      FilterNodeOk(source, c);
      FilterNode(source, c)
  }

  /** The pass: inputs first, then the node itself when it is a filter. */
  function Pushdown(r: Relation): (q: Relation)
    requires WellFormed(r)
    ensures WellFormed(q) && q.schema == r.schema
    decreases r, 1
  {
    var p := PushdownInputs(r);
    if p.op.FilterOp? then
      FilterFits(p);
      AddFilter(p.inputs[0], p.op.condition)
    else p
  }

  function PushdownInputs(r: Relation): (q: Relation)
    requires WellFormed(r)
    ensures WellFormed(q) && q.schema == r.schema && q.op == r.op && |q.inputs| == |r.inputs|
    ensures forall i :: 0 <= i < |r.inputs| ==> q.inputs[i] == Pushdown(r.inputs[i])
    decreases r, 0
  {
    var qs := seq(|r.inputs|, i requires 0 <= i < |r.inputs| => Pushdown(r.inputs[i]));
    InputsKept(r, qs);
    r.(inputs := qs)
  }

  lemma FilterFits(r: Relation)
    requires WellFormed(r) && r.op.FilterOp?
    ensures |r.inputs| == 1 && Fits(r.inputs[0], r.op.condition) && r.schema == r.inputs[0].schema
  {
    assert Schemas(r.inputs)[0] == r.inputs[0].schema;
  }

  // --- meaning ---

  lemma FilterNodeMeaning(env: Env, source: Relation, condition: Scalar)
    requires Sound(env, source) && ScalarOk(source.schema, condition)
    ensures Sound(env, FilterNode(source, condition))
    ensures Denote(env, FilterNode(source, condition)) ==
            Filter(CondFn(env, source.schema, condition), Denote(env, source))
  {
    FilterNodeOk(source, condition);
    Unfold(env, FilterNode(source, condition));
  }

  /** Filtering every input filters a union, and a merge of sorted inputs, and a sort. */
  lemma OpFilterAll(env: Env, op: Op, s: Schema, ss: seq<Schema>, ins: seq<seq<Row>>, outs: seq<seq<Row>>, c: Scalar)
    requires op.UnionAllOp? || op.MergeOp? || op.SortOp?
    requires OpOk(op, s, ss) && |ss| == |ins| == |outs|
    requires MergeInputsSorted(env, op, ss, ins)
    requires forall i :: 0 <= i < |ins| ==> outs[i] == Filter(CondFn(env, s, c), ins[i])
    ensures MergeInputsSorted(env, op, ss, outs)
    ensures OpRows(env, op, s, ss, outs) == Filter(CondFn(env, s, c), OpRows(env, op, s, ss, ins))
  {
    var p := CondFn(env, s, c);
    match op {
      case UnionAllOp => FilterFlatten(p, ins, outs);
      case SortOp(order, desc) => S.FilterSort(p, KeyFn(env, ss[0], order), desc, ins[0]);
      case MergeOp(order, desc) =>
        var key := KeyFn(env, ss[0], order);
        S.FilterSorted(p, key, desc, ins[0]);
        S.FilterSorted(p, key, desc, ins[1]);
        S.FilterMerge(p, key, desc, ins[0], ins[1]);
    }
  }

  lemma AllMeaning(env: Env, source: Relation, c: Scalar, r: Relation)
    requires Sound(env, source) && Fits(source, c)
    requires source.op.UnionAllOp? || source.op.MergeOp? || source.op.SortOp?
    requires WellFormed(r) && r.op == source.op && r.schema == source.schema && |r.inputs| == |source.inputs|
    requires forall i :: 0 <= i < |r.inputs| ==>
      && Sound(env, r.inputs[i]) && r.inputs[i].schema == source.inputs[i].schema
      && Denote(env, r.inputs[i]) == Filter(CondFn(env, source.schema, c), Denote(env, source.inputs[i]))
    ensures Sound(env, r)
    ensures Denote(env, r) == Filter(CondFn(env, source.schema, c), Denote(env, source))
  {
    assert Schemas(r.inputs) == Schemas(source.inputs);
    Unfold(env, source);
    Unfold(env, r);
    OpFilterAll(env, source.op, source.schema, Schemas(source.inputs),
                DenoteAll(env, source.inputs), DenoteAll(env, r.inputs), c);
  }

  /** A filter on renamed columns, pulled back through the projection. */
  lemma ProjectionMeaning(env: Env, s: Schema, ps: seq<Projector>, rows: seq<Row>, e: Scalar)
    requires Distinct(Aliases(ps)) && Fields(e) <= ForwardedFields(ps).Keys
    ensures Filter(CondFn(env, Aliases(ps), e), Map(ProjectFn(env, s, ps), rows)) ==
            Map(ProjectFn(env, s, ps), Filter(CondFn(env, s, Rebind(e, ForwardedFields(ps))), rows))
  {
    var m := ForwardedFields(ps);
    var f := ProjectFn(env, s, ps);
    var p := CondFn(env, Aliases(ps), e);
    var q := CondFn(env, s, Rebind(e, m));
    forall row | row in rows ensures q(row) == p(f(row)) {
      forall a | a in m ensures At(Aliases(ps), f(row), a) == At(s, row, m[a]) {
        ForwardedAt(env, s, row, ps, a);
      }
      RebindMeaning(env, s, row, Aliases(ps), f(row), e, m);
    }
    FilterMap(f, p, q, rows);
  }

  lemma MatchPrefix(ls: Schema, rs: Schema, l: Row, matches: seq<Row>, row: Row)
    requires |l| == |ls| && row in Map(JoinRow(ls, rs, l), matches)
    ensures l <= row
  {
    var rows := Map(JoinRow(ls, rs, l), matches);
    var i :| 0 <= i < |rows| && row == rows[i];
    assert Pad(l, |ls|) == l;
    assert row == l + Pad(matches[i], |rs|);
  }

  /** A joined row starts with the left row it comes from. */
  lemma JoinPrefix(env: Env, ls: Schema, rs: Schema, lk: Scalar, rk: Scalar, right: seq<Row>, l: Row, row: Row)
    requires |l| == |ls| && row in JoinFn(env, ls, rs, lk, rk, right)(l)
    ensures l <= row
  {
    var matches := Matches(env, rs, rk, right, Eval(env, ls, l, lk));
    if matches == [] {
      assert Pad(l, |ls|) == l;
      assert row == l + Nulls(|rs|);
    } else {
      MatchPrefix(ls, rs, l, matches, row);
    }
  }

  /** Every joined row of a left row satisfies a left-only condition exactly when the left row does. */
  lemma JoinCondition(env: Env, ls: Schema, rs: Schema, l: Row, row: Row, e: Scalar)
    requires |l| == |ls| && l <= row && Fields(e) <= FieldSet(ls)
    ensures CondFn(env, ls + rs, e)(row) == CondFn(env, ls, e)(l)
  {
    forall f | f in Fields(e) ensures At(ls + rs, row, f) == At(ls, l, f) {
      SlotAppend(ls, rs, f);
    }
    EvalAgree(env, ls + rs, row, ls, l, e);
  }

  lemma {:induction false} FlatMapFilter(f: Row -> seq<Row>, p: Row -> bool, q: Row -> bool, rows: seq<Row>)
    requires forall l, row :: l in rows && row in f(l) ==> p(row) == q(l)
    ensures Filter(p, Flatten(Map(f, rows))) == Flatten(Map(f, Filter(q, rows)))
  {
    if rows != [] {
      var l, rest := rows[0], rows[1..];
      FlatMapFilter(f, p, q, rest);
      assert Map(f, rows) == [f(l)] + Map(f, rest);
      FilterAppend(p, f(l), Flatten(Map(f, rest)));
      if q(l) {
        FilterAll(p, f(l));
        assert Map(f, Filter(q, rows)) == [f(l)] + Map(f, Filter(q, rest));
      } else {
        FilterNone(p, f(l));
        assert Filter(q, rows) == Filter(q, rest);
      }
    }
  }

  /** A left-only filter commutes with the left join. */
  lemma JoinMeaning(env: Env, ls: Schema, rs: Schema, lk: Scalar, rk: Scalar, left: seq<Row>, right: seq<Row>, e: Scalar)
    requires RowsFit(left, |ls|) && Fields(e) <= FieldSet(ls)
    ensures var join := JoinFn(env, ls, rs, lk, rk, right);
            Filter(CondFn(env, ls + rs, e), Flatten(Map(join, left))) ==
            Flatten(Map(join, Filter(CondFn(env, ls, e), left)))
  {
    var join := JoinFn(env, ls, rs, lk, rk, right);
    forall l, row | l in left && row in join(l) ensures CondFn(env, ls + rs, e)(row) == CondFn(env, ls, e)(l) {
      JoinPrefix(env, ls, rs, lk, rk, right, l, row);
      JoinCondition(env, ls, rs, l, row, e);
    }
    FlatMapFilter(join, CondFn(env, ls + rs, e), CondFn(env, ls, e), left);
  }

  lemma DenoteProjection(env: Env, r: Relation)
    requires WellFormed(r) && r.op.ProjectionOp?
    ensures |r.inputs| == 1 && r.schema == Aliases(r.op.projectors)
    ensures Denote(env, r) ==
            Map(ProjectFn(env, r.inputs[0].schema, r.op.projectors), Denote(env, r.inputs[0]))
  {
    Unfold(env, r);
  }

  lemma DenoteJoin(env: Env, r: Relation)
    requires WellFormed(r) && r.op.LeftJoinOp?
    ensures |r.inputs| == 2 && r.schema == r.inputs[0].schema + r.inputs[1].schema
    ensures Denote(env, r) ==
            Flatten(Map(JoinFn(env, r.inputs[0].schema, r.inputs[1].schema, r.op.leftKey, r.op.rightKey,
                               Denote(env, r.inputs[1])), Denote(env, r.inputs[0])))
  {
    Unfold(env, r);
  }

  /** Pushing a renamed condition below a projection filters the projection by the original. */
  lemma BelowProjection(env: Env, source: Relation, pushed: Scalar, r: Relation)
    requires WellFormed(source) && source.op.ProjectionOp? && WellFormed(r)
    requires Fields(pushed) <= ProjectionFields(source).Keys
    requires r.op == source.op && r.schema == source.schema && |r.inputs| == 1
    requires r.inputs[0].schema == source.inputs[0].schema
    requires Denote(env, r.inputs[0]) ==
             Filter(CondFn(env, source.inputs[0].schema, Rebind(pushed, ProjectionFields(source))),
                    Denote(env, source.inputs[0]))
    ensures Denote(env, r) == Filter(CondFn(env, source.schema, pushed), Denote(env, source))
  {
    DenoteProjection(env, source);
    DenoteProjection(env, r);
    ProjectionMeaning(env, source.inputs[0].schema, source.op.projectors, Denote(env, source.inputs[0]), pushed);
  }

  /** Pushing a left-only condition into the left input filters the join. */
  lemma BelowJoin(env: Env, source: Relation, pushed: Scalar, r: Relation)
    requires WellFormed(source) && source.op.LeftJoinOp? && WellFormed(r)
    requires Fields(pushed) <= FieldSet(source.inputs[0].schema)
    requires r.op == source.op && r.schema == source.schema
    requires |r.inputs| == 2 && r.inputs[1] == source.inputs[1]
    requires r.inputs[0].schema == source.inputs[0].schema
    requires Denote(env, r.inputs[0]) ==
             Filter(CondFn(env, source.inputs[0].schema, pushed), Denote(env, source.inputs[0]))
    ensures Denote(env, r) == Filter(CondFn(env, source.schema, pushed), Denote(env, source))
  {
    DenoteJoin(env, source);
    DenoteJoin(env, r);
    DenoteFits(env, source.inputs[0]);
    JoinMeaning(env, source.inputs[0].schema, source.inputs[1].schema, source.op.leftKey, source.op.rightKey,
                Denote(env, source.inputs[0]), Denote(env, source.inputs[1]), pushed);
  }

  /** The remaining conjuncts on top of a node filtered by the pushable ones filter by the whole condition. */
  lemma RemainMeaning(env: Env, source: Relation, condition: Scalar, fields: set<FieldId>, r: Relation)
    requires Sound(env, source) && ScalarOk(source.schema, condition) && Sound(env, r) && r.schema == source.schema
    requires Split(condition, fields).pushable.Some?
    requires Denote(env, r) ==
             Filter(CondFn(env, source.schema, Split(condition, fields).pushable.value), Denote(env, source))
    ensures Sound(env, Remain(r, Split(condition, fields).remaining))
    ensures Denote(env, Remain(r, Split(condition, fields).remaining)) ==
            Filter(CondFn(env, source.schema, condition), Denote(env, source))
  {
    var s, split := source.schema, Split(condition, fields);
    var pushed, whole := CondFn(env, s, split.pushable.value), CondFn(env, s, condition);
    var rows := Denote(env, source);
    forall row | row in rows ensures whole(row) == (pushed(row) && Holds(env, s, row, split.remaining)) {
      SplitMeaning(env, s, row, condition, fields);
    }
    match split.remaining {
      case None => FilterAgree(pushed, whole, rows);
      case Some(rest) =>
        FilterNodeMeaning(env, r, rest);
        FilterConjunction(pushed, CondFn(env, s, rest), whole, rows);
    }
  }

  /**
   * Adding a filter to a relation filters its rows, however deep the condition sinks; merges that
   * the condition passes keep sorted inputs.
   */
  lemma {:induction false} AddFilterMeaning(env: Env, source: Relation, c: Scalar)
    requires Sound(env, source) && Fits(source, c)
    ensures Sound(env, AddFilter(source, c))
    ensures Denote(env, AddFilter(source, c)) == Filter(CondFn(env, source.schema, c), Denote(env, source))
    decreases source
  {
    if source.op.UnionAllOp? || source.op.MergeOp? || source.op.SortOp? {
      AddToAllMeaning(env, source, c);
    } else if source.op.ProjectionOp? {
      AddToProjectionMeaning(env, source, c);
    } else if source.op.LeftJoinOp? {
      AddToJoinMeaning(env, source, c);
    } else {
      FilterNodeMeaning(env, source, c);
    }
  }

  lemma {:induction false} AddToProjectionMeaning(env: Env, source: Relation, c: Scalar)
    requires Sound(env, source) && Fits(source, c) && source.op.ProjectionOp?
    ensures Sound(env, AddFilter(source, c))
    ensures Denote(env, AddFilter(source, c)) == Filter(CondFn(env, source.schema, c), Denote(env, source))
    decreases source, 0
  {
    var fields := ProjectionFields(source);
    var pushable := Split(c, fields.Keys).pushable;
    if pushable.Some? {
      RebindFits(source, pushable.value);
      var inner := Rebind(pushable.value, fields);
      AddFilterMeaning(env, source.inputs[0], inner);
      BelowProjection(env, source, pushable.value, AddToFirst(source, inner));
      SoundNode(env, AddToFirst(source, inner));
      RemainMeaning(env, source, c, fields.Keys, AddToFirst(source, inner));
    } else {
      FilterNodeMeaning(env, source, c);
    }
  }

  lemma {:induction false} AddToJoinMeaning(env: Env, source: Relation, c: Scalar)
    requires Sound(env, source) && Fits(source, c) && source.op.LeftJoinOp?
    ensures Sound(env, AddFilter(source, c))
    ensures Denote(env, AddFilter(source, c)) == Filter(CondFn(env, source.schema, c), Denote(env, source))
    decreases source, 0
  {
    var fields := FieldSet(source.inputs[0].schema);
    var pushable := Split(c, fields).pushable;
    if pushable.Some? {
      var pushed := pushable.value;
      assert Fits(source.inputs[0], pushed) && ScalarOk(source.schema, pushed);
      AddFilterMeaning(env, source.inputs[0], pushed);
      var r := AddToFirst(source, pushed);
      assert AddFilter(source, c) == Remain(r, Split(c, fields).remaining);
      BelowJoin(env, source, pushed, r);
      SoundNode(env, r);
      RemainMeaning(env, source, c, fields, r);
    } else {
      FilterNodeMeaning(env, source, c);
    }
  }

  lemma {:induction false} AddToAllMeaning(env: Env, source: Relation, c: Scalar)
    requires Sound(env, source) && Fits(source, c)
    requires source.op.UnionAllOp? || source.op.MergeOp? || source.op.SortOp?
    ensures Sound(env, AddToAll(source, c))
    ensures Denote(env, AddToAll(source, c)) == Filter(CondFn(env, source.schema, c), Denote(env, source))
    decreases source, 0
  {
    SameSchema(source);
    forall i | 0 <= i < |source.inputs|
      ensures Sound(env, AddFilter(source.inputs[i], c))
      ensures Denote(env, AddFilter(source.inputs[i], c)) ==
              Filter(CondFn(env, source.schema, c), Denote(env, source.inputs[i]))
    {
      AddFilterMeaning(env, source.inputs[i], c);
    }
    AllMeaning(env, source, c, AddToAll(source, c));
  }

  /** The pass preserves meaning: the rewritten tree has the same columns and the same rows in the same order. */
  lemma {:induction false} PushdownMeaning(env: Env, r: Relation)
    requires Sound(env, r)
    ensures Replaces(env, Pushdown(r), r)
    decreases r
  {
    forall i | 0 <= i < |r.inputs| ensures Replaces(env, Pushdown(r.inputs[i]), r.inputs[i]) {
      PushdownMeaning(env, r.inputs[i]);
    }
    var p := PushdownInputs(r);
    Congruence(env, r, p.inputs);
    if p.op.FilterOp? {
      FilterFits(p);
      AddFilterMeaning(env, p.inputs[0], p.op.condition);
      FilterNodeMeaning(env, p.inputs[0], p.op.condition);
      assert p == FilterNode(p.inputs[0], p.op.condition);
    }
  }

  // --- normal form ---

  /** A filter with this condition cannot sink into this source. */
  predicate Stuck(source: Relation, condition: Scalar)
    requires ArityOk(condition)
  {
    match source.op
    case UnionAllOp => false
    case MergeOp(_, _) => false
    case SortOp(_, _) => false
    case ProjectionOp(ps) => Split(condition, ForwardedFields(ps).Keys).pushable.None?
    case LeftJoinOp(_, _) => source.inputs != [] ==> Split(condition, FieldSet(source.inputs[0].schema)).pushable.None?
    case _ => true
  }

  predicate Normal(r: Relation)
    requires WellFormed(r)
  {
    && (r.op.FilterOp? ==> |r.inputs| == 1 && Stuck(r.inputs[0], r.op.condition))
    && forall i :: 0 <= i < |r.inputs| ==> Normal(r.inputs[i])
  }

  lemma {:induction false} AddFilterNormal(source: Relation, c: Scalar)
    requires Fits(source, c) && Normal(source)
    ensures Normal(AddFilter(source, c))
    decreases source
  {
    if source.op.UnionAllOp? || source.op.MergeOp? || source.op.SortOp? {
      AddToAllNormal(source, c);
    } else if source.op.ProjectionOp? {
      AddToProjectionNormal(source, c);
    } else if source.op.LeftJoinOp? {
      AddToJoinNormal(source, c);
    } else {
      FilterNodeOk(source, c);
    }
  }

  lemma {:induction false} AddToProjectionNormal(source: Relation, c: Scalar)
    requires Fits(source, c) && Normal(source) && source.op.ProjectionOp?
    ensures Normal(AddFilter(source, c))
    decreases source, 0
  {
    FilterNodeOk(source, c);
    var fields := ProjectionFields(source);
    var split := Split(c, fields.Keys);
    if split.pushable.Some? {
      RebindFits(source, split.pushable.value);
      var inner := Rebind(split.pushable.value, fields);
      AddFilterNormal(source.inputs[0], inner);
      assert Normal(AddToFirst(source, inner));
      SplitRemainder(c, fields.Keys);
    }
  }

  lemma {:induction false} AddToJoinNormal(source: Relation, c: Scalar)
    requires Fits(source, c) && Normal(source) && source.op.LeftJoinOp?
    ensures Normal(AddFilter(source, c))
    decreases source, 0
  {
    FilterNodeOk(source, c);
    var fields := FieldSet(source.inputs[0].schema);
    var split := Split(c, fields);
    if split.pushable.Some? {
      AddFilterNormal(source.inputs[0], split.pushable.value);
      assert Normal(AddToFirst(source, split.pushable.value));
      SplitRemainder(c, fields);
    }
  }

  lemma {:induction false} AddToAllNormal(source: Relation, c: Scalar)
    requires Fits(source, c) && Normal(source)
    requires source.op.UnionAllOp? || source.op.MergeOp? || source.op.SortOp?
    ensures Normal(AddToAll(source, c))
    decreases source, 0
  {
    SameSchema(source);
    forall i | 0 <= i < |source.inputs| ensures Normal(AddToAll(source, c).inputs[i]) {
      AddFilterNormal(source.inputs[i], c);
    }
  }

  /** After the pass no filter sits on a union, merge or sort, nor has a conjunct it could push. */
  lemma {:induction false} PushdownNormal(r: Relation)
    requires WellFormed(r)
    ensures Normal(Pushdown(r))
    decreases r
  {
    forall i | 0 <= i < |r.inputs| ensures Normal(Pushdown(r.inputs[i])) {
      PushdownNormal(r.inputs[i]);
    }
    var p := PushdownInputs(r);
    if p.op.FilterOp? {
      FilterFits(p);
      AddFilterNormal(p.inputs[0], p.op.condition);
    }
  }

  /** The pass leaves exactly the normal trees alone. */
  lemma {:induction false} NormalFixpoint(r: Relation)
    requires WellFormed(r)
    ensures Normal(r) <==> Pushdown(r) == r
    decreases r
  {
    if Normal(r) {
      forall i | 0 <= i < |r.inputs| ensures Pushdown(r.inputs[i]) == r.inputs[i] {
        NormalFixpoint(r.inputs[i]);
      }
      assert PushdownInputs(r).inputs == r.inputs;
      if r.op.FilterOp? {
        FilterFits(r);
        assert r == FilterNode(r.inputs[0], r.op.condition);
      }
    } else {
      PushdownNormal(r);
    }
  }

  /** A second run of the pass changes nothing. */
  lemma PushdownIdempotent(r: Relation)
    requires WellFormed(r)
    ensures Pushdown(Pushdown(r)) == Pushdown(r)
  {
    PushdownNormal(r);
    NormalFixpoint(Pushdown(r));
  }
}
