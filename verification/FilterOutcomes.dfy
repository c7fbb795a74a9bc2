/** Filter pushdown and failing conditions: when a pushed filter can fail, and that it does not when conjuncts are booleans. */
module FilterOutcomes {
  import opened Values
  import opened Sequences
  import opened Wrappers
  import opened Scalars
  import opened Outcomes
  import opened Relations
  import opened Standards
  import opened FilterPushdown
  import S = Sorting
  import ScalarSimplify

  // --- one condition on one row ---

  /** A filter with this condition can decide this row. */
  predicate DecidesRow(env: Env, s: Schema, row: Row, c: Scalar) {
    IsBool(Run(env, s, row, c))
  }

  predicate PartDecides(env: Env, s: Schema, row: Row, part: Option<Scalar>) {
    part.Some? ==> DecidesRow(env, s, row, part.value)
  }

  /** The filter with the pushed part below the filter with the remaining part decides the row. */
  predicate SplitDecides(env: Env, s: Schema, row: Row, split: SplitCondition) {
    && PartDecides(env, s, row, split.pushable)
    && (Holds(env, s, row, split.pushable) ==> PartDecides(env, s, row, split.remaining))
  }

  lemma AndDecides(env: Env, s: Schema, row: Row, c: Scalar)
    requires IsAnd(c)
    ensures DecidesRow(env, s, row, c) <==>
            && DecidesRow(env, s, row, c.args[0])
            && Run(env, s, row, c.args[1]).Done?
            && (IsTrue(Eval(env, s, row, c.args[0])) ==> DecidesRow(env, s, row, c.args[1]))
    ensures Run(env, s, row, c).Done? <==> DecidesRow(env, s, row, c)
    ensures IsTrue(Eval(env, s, row, c)) <==> IsTrue(Eval(env, s, row, c.args[0])) && IsTrue(Eval(env, s, row, c.args[1]))
  {
    BinaryOutcome(env, s, row, c);
    RunGives(env, s, row, c.args[0]);
    assert Eval(env, s, row, c) ==
           Bool(IsTrue(Eval(env, s, row, c.args[0])) && IsTrue(Eval(env, s, row, c.args[1])));
  }

  /**
   * No conjunct that is not a boolean is exposed by taking the pushable conjuncts out of the condition: it does
   * not come first, nor right after conjuncts that all hold.
   */
  predicate Sheltered(env: Env, s: Schema, row: Row, c: Scalar, fields: set<FieldId>)
    requires ArityOk(c)
  {
    if IsAnd(c) then
      var left, right := Split(c.args[0], fields).pushable, Split(c.args[1], fields).pushable;
      if left.None? then Sheltered(env, s, row, c.args[1], fields)
      else if right.None? then Sheltered(env, s, row, c.args[0], fields)
      else
        && Sheltered(env, s, row, c.args[0], fields)
        && ((!Holds(env, s, row, left) && !IsAnd(right.value)) || Sheltered(env, s, row, c.args[1], fields))
    else
      Fields(c) <= fields ==> DecidesRow(env, s, row, c)
  }

  /** No conjunct fails outright; some may have a value that is not a boolean. */
  predicate ConjunctsDone(env: Env, s: Schema, row: Row, c: Scalar) {
    if IsAnd(c) then ConjunctsDone(env, s, row, c.args[0]) && ConjunctsDone(env, s, row, c.args[1])
    else Run(env, s, row, c).Done?
  }

  lemma {:induction false} DoneConjuncts(env: Env, s: Schema, row: Row, c: Scalar)
    requires Run(env, s, row, c).Done?
    ensures ConjunctsDone(env, s, row, c)
  {
    if IsAnd(c) {
      BinaryOutcome(env, s, row, c);
      DoneConjuncts(env, s, row, c.args[0]);
      DoneConjuncts(env, s, row, c.args[1]);
    }
  }

  lemma ConjunctionDecides(env: Env, s: Schema, row: Row, left: Option<Scalar>, right: Option<Scalar>)
    requires left.Some? && right.Some?
    ensures PartDecides(env, s, row, Conjunction(left, right)) <==>
            && DecidesRow(env, s, row, left.value)
            && Run(env, s, row, right.value).Done?
            && (Holds(env, s, row, left) ==> DecidesRow(env, s, row, right.value))
  {
    var both := Call(And, [left.value, right.value], BooleanType);
    AndDecides(env, s, row, both);
    assert both.args[0] == left.value && both.args[1] == right.value;
  }

  /** A part that is a single conjunct does not fail outright when none of the condition does. */
  lemma {:induction false} PartDone(env: Env, s: Schema, row: Row, c: Scalar, fields: set<FieldId>)
    requires ArityOk(c) && ConjunctsDone(env, s, row, c)
    ensures var p := Split(c, fields).pushable; p.Some? && !IsAnd(p.value) ==> Run(env, s, row, p.value).Done?
  {
    if IsAnd(c) {
      PartDone(env, s, row, c.args[0], fields);
      PartDone(env, s, row, c.args[1], fields);
    }
  }

  /** The pushed part decides the row exactly when its conjuncts are sheltered. */
  lemma {:induction false} PushedDecides(env: Env, s: Schema, row: Row, c: Scalar, fields: set<FieldId>)
    requires ArityOk(c) && ConjunctsDone(env, s, row, c)
    ensures PartDecides(env, s, row, Split(c, fields).pushable) <==> Sheltered(env, s, row, c, fields)
  {
    if IsAnd(c) {
      hide Run, Eval;
      var left, right := Split(c.args[0], fields).pushable, Split(c.args[1], fields).pushable;
      PushedDecides(env, s, row, c.args[0], fields);
      PushedDecides(env, s, row, c.args[1], fields);
      PartDone(env, s, row, c.args[1], fields);
      if left.Some? && right.Some? {
        ConjunctionDecides(env, s, row, left, right);
        if IsAnd(right.value) {
          AndDecides(env, s, row, right.value);
        }
      }
    }
  }

  /** What remains above never fails on a row that the whole condition decides and the pushed part lets through. */
  lemma {:induction false} RemainingDecides(env: Env, s: Schema, row: Row, c: Scalar, fields: set<FieldId>)
    requires ArityOk(c) && DecidesRow(env, s, row, c) && Holds(env, s, row, Split(c, fields).pushable)
    ensures PartDecides(env, s, row, Split(c, fields).remaining)
  {
    if IsAnd(c) {
      hide Run, Eval;
      var left, right := Split(c.args[0], fields), Split(c.args[1], fields);
      AndDecides(env, s, row, c);
      ConjunctionHolds(env, s, row, left.pushable, right.pushable);
      RemainingDecides(env, s, row, c.args[0], fields);
      SplitMeaning(env, s, row, c.args[0], fields);
      if DecidesRow(env, s, row, c.args[1]) {
        RemainingDecides(env, s, row, c.args[1], fields);
      } else {
        UndecidedRight(env, s, row, c.args[1], fields);
      }
      if left.remaining.Some? && right.remaining.Some? {
        ConjunctionDecides(env, s, row, left.remaining, right.remaining);
      }
    }
  }

  /** A right operand with a value that is not a boolean is one conjunct; when the pushed part holds it remains. */
  lemma UndecidedRight(env: Env, s: Schema, row: Row, c: Scalar, fields: set<FieldId>)
    requires ArityOk(c) && Run(env, s, row, c).Done? && !DecidesRow(env, s, row, c)
    requires Holds(env, s, row, Split(c, fields).pushable)
    ensures Split(c, fields) == SplitCondition(None, Some(c))
  {
    if IsAnd(c) {
      AndDecides(env, s, row, c);
    } else {
      RunGives(env, s, row, c);
    }
  }

  /**
   * On a row that a filter decides, the two filters it is split into fail exactly when the pushed one does,
   * and that is exactly when one of its conjuncts is not sheltered.
   */
  lemma SplitDecidesExactly(env: Env, s: Schema, row: Row, c: Scalar, fields: set<FieldId>)
    requires ArityOk(c) && DecidesRow(env, s, row, c)
    ensures SplitDecides(env, s, row, Split(c, fields)) <==> Sheltered(env, s, row, c, fields)
  {
    DoneConjuncts(env, s, row, c);
    PushedDecides(env, s, row, c, fields);
    if Holds(env, s, row, Split(c, fields).pushable) {
      RemainingDecides(env, s, row, c, fields);
    }
  }

  // --- below a left join ---

  /** The joined rows of one left row. */
  function JoinedWith(env: Env, source: Relation, l: Row): seq<Row>
    requires WellFormed(source) && source.op.LeftJoinOp? && |source.inputs| == 2
  {
    JoinFn(env, source.inputs[0].schema, source.inputs[1].schema, source.op.leftKey, source.op.rightKey,
           Denote(env, source.inputs[1]))(l)
  }

  lemma JoinSchema(env: Env, source: Relation)
    requires WellFormed(source) && source.op.LeftJoinOp?
    ensures |source.inputs| == 2 && source.schema == source.inputs[0].schema + source.inputs[1].schema
  {
    DenoteJoin(env, source);
  }

  /** A left row shows in some joined row. */
  lemma LeftRowShows(env: Env, source: Relation, l: Row) returns (row: Row)
    requires WellFormed(source) && source.op.LeftJoinOp? && |source.inputs| == 2 && l in Denote(env, source.inputs[0])
    ensures row in Denote(env, source) && row in JoinedWith(env, source, l)
    ensures l <= row && |l| == |source.inputs[0].schema|
  {
    DenoteJoin(env, source);
    DenoteFits(env, source.inputs[0]);
    var ls, rs := source.inputs[0].schema, source.inputs[1].schema;
    var left, right := Denote(env, source.inputs[0]), Denote(env, source.inputs[1]);
    var join := JoinFn(env, ls, rs, source.op.leftKey, source.op.rightKey, right);
    var i :| 0 <= i < |left| && left[i] == l;
    assert Map(join, left)[i] == join(l);
    assert join(l) != [];
    row := join(l)[0];
    assert row in Map(join, left)[i];
    FlattenHolds(Map(join, left), i, row);
    JoinPrefix(env, ls, rs, source.op.leftKey, source.op.rightKey, right, l, row);
  }

  /** Every joined row shows a left row. */
  lemma JoinedRowShows(env: Env, source: Relation, row: Row) returns (l: Row)
    requires WellFormed(source) && source.op.LeftJoinOp? && |source.inputs| == 2 && row in Denote(env, source)
    ensures l in Denote(env, source.inputs[0]) && row in JoinedWith(env, source, l)
  {
    DenoteJoin(env, source);
    var left := Denote(env, source.inputs[0]);
    var joined := Map(l => JoinedWith(env, source, l), left);
    assert Denote(env, source) == Flatten(joined) by {
      assert joined == Map(JoinFn(env, source.inputs[0].schema, source.inputs[1].schema, source.op.leftKey,
                                  source.op.rightKey, Denote(env, source.inputs[1])), left);
    }
    var i := FlattenSource(joined, row);
    l := left[i];
  }

  /** Where a joined row is decided, the pushed part decides its left row exactly if the joined row is sheltered: any one will do. */
  lemma JoinedRowDecides(env: Env, source: Relation, c: Scalar, l: Row, row: Row)
    requires Fits(source, c) && source.op.LeftJoinOp? && |source.inputs| == 2
    requires l in Denote(env, source.inputs[0]) && row in JoinedWith(env, source, l)
    requires DecidesRow(env, source.schema, row, c)
    ensures var ls := source.inputs[0].schema;
            PartDecides(env, ls, l, Split(c, FieldSet(ls)).pushable) <==> Sheltered(env, source.schema, row, c, FieldSet(ls))
  {
    hide Run, Eval;
    var ls, rs := source.inputs[0].schema, source.inputs[1].schema;
    var part := Split(c, FieldSet(ls)).pushable;
    JoinSchema(env, source);
    DenoteFits(env, source.inputs[0]);
    JoinPrefix(env, ls, rs, source.op.leftKey, source.op.rightKey, Denote(env, source.inputs[1]), l, row);
    DoneConjuncts(env, ls + rs, row, c);
    PushedDecides(env, ls + rs, row, c, FieldSet(ls));
    if part.Some? {
      forall f | f in Fields(part.value) ensures At(ls + rs, row, f) == At(ls, l, f) {
        SlotAppend(ls, rs, f);
      }
      RunAgree(env, ls + rs, row, ls, l, part.value);
    }
  }

  /** The filter pushed below the join decides every left row. */
  ghost predicate PushedRuns(env: Env, source: Relation, c: Scalar)
    requires Fits(source, c) && source.inputs != []
  {
    var ls := source.inputs[0].schema;
    forall l :: l in Denote(env, source.inputs[0]) ==> PartDecides(env, ls, l, Split(c, FieldSet(ls)).pushable)
  }

  /** No joined row exposes a conjunct that is not a boolean. */
  ghost predicate AllSheltered(env: Env, source: Relation, c: Scalar)
    requires Fits(source, c) && source.inputs != []
  {
    forall row :: row in Denote(env, source) ==> Sheltered(env, source.schema, row, c, FieldSet(source.inputs[0].schema))
  }

  /**
   * A filter that decides every row of a left join, split around the join: the part below decides every left row if
   * and only if all joined rows are sheltered; and what remains above never fails on the rows let through.
   */
  lemma JoinPushExactly(env: Env, source: Relation, c: Scalar)
    requires Fits(source, c) && source.op.LeftJoinOp? && |source.inputs| == 2
    requires forall row :: row in Denote(env, source) ==> DecidesRow(env, source.schema, row, c)
    ensures PushedRuns(env, source, c) <==> AllSheltered(env, source, c)
    ensures var split := Split(c, FieldSet(source.inputs[0].schema));
            forall row :: row in Denote(env, source) && Holds(env, source.schema, row, split.pushable) ==>
              PartDecides(env, source.schema, row, split.remaining)
  {
    hide Denote, OpOk, DecidesRow, PartDecides, Split, JoinedWith, Sheltered, Holds;
    var fields := FieldSet(source.inputs[0].schema);
    if PushedRuns(env, source, c) {
      forall row | row in Denote(env, source) ensures Sheltered(env, source.schema, row, c, fields) {
        var l := JoinedRowShows(env, source, row);
        JoinedRowDecides(env, source, c, l, row);
      }
    }
    if AllSheltered(env, source, c) {
      forall l | l in Denote(env, source.inputs[0])
        ensures PartDecides(env, source.inputs[0].schema, l, Split(c, fields).pushable)
      {
        var row := LeftRowShows(env, source, l);
        JoinedRowDecides(env, source, c, l, row);
      }
    }
    forall row | row in Denote(env, source) && Holds(env, source.schema, row, Split(c, fields).pushable)
      ensures PartDecides(env, source.schema, row, Split(c, fields).remaining)
    {
      RemainingDecides(env, source.schema, row, c, fields);
    }
  }

  // --- where the pass makes a filter fail ---

  /** One left row without a flag, joined with one right row whose key is not "a". */
  function FlaggedJoin(): Relation {
    var left := Relation(ValuesOp([Null], 0), [], [0]);
    var right := Relation(ValuesOp([Str("b")], 1), [], [1]);
    Relation(LeftJoinOp(Const(Int(1), IntegerType), Const(Int(1), IntegerType)), [left, right], [0, 1])
  }

  function IsA(): Scalar { Call(Named("="), [Field(1, StringType), Const(Str("a"), StringType)], BooleanType) }

  function Flag(): Scalar { Field(0, BooleanType) }

  function IsAAndFlag(): Scalar { Call(And, [IsA(), Flag()], BooleanType) }

  lemma FlaggedFields()
    ensures ArityOk(IsA()) && ArityOk(Flag()) && ArityOk(IsAAndFlag())
    ensures Fields(IsA()) == {1} && Fields(Flag()) == {0} && Fields(IsAAndFlag()) == {0, 1}
  {
    var args := [Field(1, StringType), Const(Str("a"), StringType)];
    assert Fields(args[0]) == {1} && Fields(args[1]) == {};
    assert IsA().args == args;
    var parts := [IsA(), Flag()];
    assert Fields(parts[0]) == {1} && Fields(parts[1]) == {0};
    assert IsAAndFlag().args == parts;
  }

  lemma FlaggedJoinOk()
    ensures WellFormed(FlaggedJoin()) && Fits(FlaggedJoin(), IsAAndFlag())
    ensures Fits(FlaggedJoin().inputs[0], Flag())
  {
    var r := FlaggedJoin();
    FlaggedFields();
    assert Schemas(r.inputs[0].inputs) == [] && Schemas(r.inputs[1].inputs) == [];
    assert WellFormed(r.inputs[0]) && WellFormed(r.inputs[1]);
    assert Schemas(r.inputs) == [[0], [1]];
  }

  lemma FlagPushed()
    ensures ArityOk(IsAAndFlag()) && Split(IsAAndFlag(), {0}) == SplitCondition(Some(Flag()), Some(IsA()))
  {
    FlaggedFields();
    var parts := [IsA(), Flag()];
    assert IsAAndFlag().args == parts;
    assert Split(parts[0], {0}) == SplitCondition(None, Some(IsA()));
    assert Split(parts[1], {0}) == SplitCondition(Some(Flag()), None);
  }

  lemma OneMatch(env: Env)
    ensures var one := Const(Int(1), IntegerType);
            JoinFn(env, [0], [1], one, one, [[Str("b")]])([Null]) == [[Null, Str("b")]]
  {
    var one, right: seq<Row> := Const(Int(1), IntegerType), [[Str("b")]];
    var p := RightMatches(env, [1], one, Int(1));
    FilterAll(p, right);
    assert Matches(env, [1], one, right, Int(1)) == right;
    var l: Row := [Null];
    assert Pad(l, 1) == l && Pad(right[0], 1) == [Str("b")];
    assert JoinRow([0], [1], l)(right[0]) == l + [Str("b")] == [Null, Str("b")];
    assert Map(JoinRow([0], [1], l), right) == [[Null, Str("b")]];
  }

  lemma JoinedRows(env: Env)
    requires WellFormed(FlaggedJoin())
    ensures Denote(env, FlaggedJoin()) == [[Null, Str("b")]]
    ensures Denote(env, FlaggedJoin().inputs[0]) == [[Null]]
  {
    hide JoinFn;
    var r := FlaggedJoin();
    DenoteJoin(env, r);
    assert Denote(env, r.inputs[0]) == [[Null]] && Denote(env, r.inputs[1]) == [[Str("b")]];
    OneMatch(env);
    var one := Const(Int(1), IntegerType);
    var join := JoinFn(env, [0], [1], one, one, [[Str("b")]]);
    var rows: seq<Row> := [[Null, Str("b")]];
    assert Map(join, [[Null]]) == [rows];
    assert Flatten([rows]) == rows + Flatten([rows][1..]);
  }

  /** The joined row is decided: its key is not "a", so the missing flag is not read. */
  lemma JoinedRowDecided(env: Env, row: Row)
    requires row == [Null, Str("b")]
    requires !env.fails("=", [Str("b"), Str("a")]) && env.call("=", [Str("b"), Str("a")]) == Bool(false)
    ensures DecidesRow(env, [0, 1], row, IsAAndFlag())
  {
    var parts, args := [IsA(), Flag()], [Field(1, StringType), Const(Str("a"), StringType)];
    assert IsA().args == args && IsAAndFlag().args == parts;
    assert Slot([0, 1], 1) == 1 by {
      assert [0, 1][1..] == [1];
    }
    UnfoldRun(env, [0, 1], row, IsA());
    var os := RunAll(env, [0, 1], row, args);
    assert os == [Done(Str("b")), Done(Str("a"))];
    assert DoneValues(os) == [Str("b"), Str("a")];
    AndDecides(env, [0, 1], row, IsAAndFlag());
    RunGives(env, [0, 1], row, IsA());
  }

  /**
   * The pass can make a filter fail: every joined row is decided, and dropped, because its key is not "a", but
   * the pushed filter reads the missing flag of the left row.
   */
  lemma PushedFilterFails(env: Env)
    requires !env.fails("=", [Str("b"), Str("a")]) && env.call("=", [Str("b"), Str("a")]) == Bool(false)
    ensures WellFormed(FlaggedJoin()) && Fits(FlaggedJoin(), IsAAndFlag()) && Fits(FlaggedJoin().inputs[0], Flag())
    ensures forall row :: row in Denote(env, FlaggedJoin()) ==> DecidesRow(env, [0, 1], row, IsAAndFlag())
    ensures AddFilter(FlaggedJoin(), IsAAndFlag()) == FilterNode(AddToFirst(FlaggedJoin(), Flag()), IsA())
    ensures AddToFirst(FlaggedJoin(), Flag()).inputs[0] == FilterNode(FlaggedJoin().inputs[0], Flag())
    ensures exists row :: row in Denote(env, FlaggedJoin().inputs[0]) && !DecidesRow(env, [0], row, Flag())
  {
    hide WellFormed, ScalarOk, Split, Denote, OpOk;
    FlaggedJoinOk();
    FlagPushed();
    JoinedRows(env);
    assert FieldSet([0]) == {0};
    JoinedRowDecided(env, [Null, Str("b")]);
    var l: Row := [Null];
    assert l in Denote(env, FlaggedJoin().inputs[0]);
    assert Run(env, [0], l, Flag()) == Done(Null);
  }

  // --- where it does not ---

  ghost predicate PartGood(std: Standard, env: Env, s: Schema, row: Row, part: Option<Scalar>) {
    part.Some? ==> GoodCondition(std, env, s, row, part.value)
  }

  lemma ConjunctionGood(std: Standard, env: Env, s: Schema, row: Row, left: Option<Scalar>, right: Option<Scalar>)
    requires PartGood(std, env, s, row, left) && PartGood(std, env, s, row, right)
    ensures PartGood(std, env, s, row, Conjunction(left, right))
  {
    if left.Some? && right.Some? {
      BothGood(std, env, s, row, left.value, right.value);
    }
  }

  /** Both parts of a condition whose conjuncts are booleans have only boolean conjuncts. */
  lemma {:induction false} SplitGood(std: Standard, env: Env, s: Schema, row: Row, c: Scalar, fields: set<FieldId>)
    requires ArityOk(c) && GoodCondition(std, env, s, row, c)
    ensures PartGood(std, env, s, row, Split(c, fields).pushable) && PartGood(std, env, s, row, Split(c, fields).remaining)
  {
    if IsAnd(c) {
      hide Good, Run;
      var left, right := Split(c.args[0], fields), Split(c.args[1], fields);
      SplitGood(std, env, s, row, c.args[0], fields);
      SplitGood(std, env, s, row, c.args[1], fields);
      ConjunctionGood(std, env, s, row, left.pushable, right.pushable);
      ConjunctionGood(std, env, s, row, left.remaining, right.remaining);
    }
  }

  lemma {:induction false} RunRebound(env: Env, s: Schema, row: Row, s': Schema, row': Row, e: Scalar, fields: map<FieldId, FieldId>)
    requires Fields(e) <= fields.Keys
    requires forall f :: f in fields ==> At(s', row', f) == At(s, row, fields[f])
    ensures Run(env, s, row, Rebind(e, fields)) == Run(env, s', row', e)
  {
    if e.Cached? {
      RunRebound(env, s, row, s', row', e.inner, fields);
    } else if e.Call? || e.Coalesce? {
      var q := Rebind(e, fields);
      forall i | 0 <= i < |e.args| ensures Run(env, s, row, q.args[i]) == Run(env, s', row', e.args[i]) {
        assert Fields(e.args[i]) <= Fields(e);
        RunRebound(env, s, row, s', row', e.args[i], fields);
      }
      UnfoldRun(env, s, row, q);
      UnfoldRun(env, s', row', e);
      assert RunAll(env, s, row, q.args) == RunAll(env, s', row', e.args);
    }
  }

  lemma {:induction false} ProperRebound(env: Env, s: Schema, row: Row, s': Schema, row': Row, e: Scalar, fields: map<FieldId, FieldId>)
    requires Fields(e) <= fields.Keys && ScalarSimplify.Proper(env, s', row', e)
    requires forall f :: f in fields ==> At(s', row', f) == At(s, row, fields[f])
    ensures ScalarSimplify.Proper(env, s, row, Rebind(e, fields))
  {
    RebindMeaning(env, s, row, s', row', e, fields);
    if e.Cached? {
      ProperRebound(env, s, row, s', row', e.inner, fields);
    } else if e.Call? || e.Coalesce? {
      var q := Rebind(e, fields);
      forall i | 0 <= i < |e.args|
        ensures ScalarSimplify.Proper(env, s, row, q.args[i]) && Eval(env, s, row, q.args[i]) == Eval(env, s', row', e.args[i])
      {
        assert Fields(e.args[i]) <= Fields(e);
        ProperRebound(env, s, row, s', row', e.args[i], fields);
        RebindMeaning(env, s, row, s', row', e.args[i], fields);
      }
      assert EvalAll(env, s, row, q.args) == EvalAll(env, s', row', e.args);
    }
  }

  /** A renamed condition is good on a source row when the original is good on the renamed row. */
  lemma {:induction false} ReboundGood(std: Standard, env: Env, s: Schema, row: Row, s': Schema, row': Row, c: Scalar,
                                       fields: map<FieldId, FieldId>)
    requires Fields(c) <= fields.Keys && GoodCondition(std, env, s', row', c)
    requires forall f :: f in fields ==> At(s', row', f) == At(s, row, fields[f])
    ensures GoodCondition(std, env, s, row, Rebind(c, fields))
  {
    RunRebound(env, s, row, s', row', c, fields);
    if std.Typed? {
      ProperRebound(env, s, row, s', row', c, fields);
    }
    if IsAnd(c) {
      assert Fields(c.args[0]) <= Fields(c) && Fields(c.args[1]) <= Fields(c);
      ReboundGood(std, env, s, row, s', row', c.args[0], fields);
      ReboundGood(std, env, s, row, s', row', c.args[1], fields);
    }
  }

  /** The condition is good on every row of the relation. */
  ghost predicate GoodOver(std: Standard, env: Env, source: Relation, c: Scalar)
    requires WellFormed(source)
  {
    GoodFilter(std, env, source.schema, Denote(env, source), c)
  }

  lemma FilterNodeGood(std: Standard, env: Env, source: Relation, c: Scalar)
    requires Fits(source, c) && GoodTree(std, env, source) && GoodOver(std, env, source, c)
    ensures WellFormed(FilterNode(source, c)) && GoodTree(std, env, FilterNode(source, c))
  {
    hide Good;
    FilterNodeOk(source, c);
    var q := FilterNode(source, c);
    assert Schemas(q.inputs) == [source.schema] && DenoteAll(env, q.inputs) == [Denote(env, source)];
    forall row | row in Denote(env, source) ensures Good(std, env, source.schema, row, c) {
      assert GoodCondition(std, env, source.schema, row, c);
    }
  }

  lemma RemainGood(std: Standard, env: Env, source: Relation, rest: Option<Scalar>)
    requires WellFormed(source) && PartOk(rest, FieldSet(source.schema)) && GoodTree(std, env, source)
    requires rest.Some? ==> GoodOver(std, env, source, rest.value)
    ensures GoodTree(std, env, Remain(source, rest))
  {
    if rest.Some? {
      FilterNodeGood(std, env, source, rest.value);
    }
  }

  /** Every row of an input of a union, merge or sort is a row of the node. */
  lemma InputRows(env: Env, source: Relation, i: nat)
    requires WellFormed(source) && (source.op.UnionAllOp? || source.op.MergeOp? || source.op.SortOp?)
    requires i < |source.inputs|
    ensures Within(Denote(env, source.inputs[i]), Denote(env, source))
  {
    hide OpOk;
    Unfold(env, source);
    var ins, ss := DenoteAll(env, source.inputs), Schemas(source.inputs);
    OpArityOf(source);
    forall row | row in ins[i] ensures row in OpRows(env, source.op, source.schema, ss, ins) {
      match source.op {
        case UnionAllOp => FlattenHolds(ins, i, row);
        case SortOp(order, desc) => S.SortMembers(KeyFn(env, ss[0], order), desc, ins[0]);
        case MergeOp(order, desc) => S.MergeMembers(KeyFn(env, ss[0], order), desc, ins[0], ins[1]);
      }
    }
  }

  lemma OpArityOf(r: Relation)
    requires WellFormed(r)
    ensures ArityIs(r.op, |r.inputs|)
  {
  }

  /** A left-only part is good on the left rows. */
  lemma LeftGood(std: Standard, env: Env, source: Relation, c: Scalar)
    requires WellFormed(source) && source.op.LeftJoinOp? && |source.inputs| == 2
    requires Fields(c) <= FieldSet(source.inputs[0].schema) && GoodOver(std, env, source, c)
    ensures GoodOver(std, env, source.inputs[0], c)
  {
    hide GoodCondition, OpOk;
    var ls, rs := source.inputs[0].schema, source.inputs[1].schema;
    forall l | l in Denote(env, source.inputs[0]) ensures GoodCondition(std, env, ls, l, c) {
      var row := LeftRowShows(env, source, l);
      JoinSchema(env, source);
      forall f | f in Fields(c) ensures At(ls + rs, row, f) == At(ls, l, f) {
        SlotAppend(ls, rs, f);
      }
      ConditionAgree(std, env, ls + rs, row, ls, l, c);
    }
  }

  /** A renamed part is good on the rows of a projection's source. */
  lemma RenamedGood(std: Standard, env: Env, source: Relation, c: Scalar)
    requires WellFormed(source) && source.op.ProjectionOp? && |source.inputs| == 1
    requires Fields(c) <= ProjectionFields(source).Keys && GoodOver(std, env, source, c)
    ensures GoodOver(std, env, source.inputs[0], Rebind(c, ProjectionFields(source)))
  {
    hide GoodCondition;
    var s, ps, fields := source.inputs[0].schema, source.op.projectors, ProjectionFields(source);
    DenoteProjection(env, source);
    var rows := Denote(env, source.inputs[0]);
    forall row | row in rows ensures GoodCondition(std, env, s, row, Rebind(c, fields)) {
      var i :| 0 <= i < |rows| && rows[i] == row;
      var row' := ProjectFn(env, s, ps)(row);
      assert Denote(env, source)[i] == row';
      forall f | f in fields ensures At(source.schema, row', f) == At(s, row, fields[f]) {
        ForwardedAt(env, s, row, ps, f);
      }
      ReboundGood(std, env, s, row, source.schema, row', c, fields);
    }
  }

  lemma GoodOnSome(std: Standard, env: Env, s: Schema, some: seq<Row>, all: seq<Row>, c: Scalar)
    requires Within(some, all) && GoodFilter(std, env, s, all, c)
    ensures GoodFilter(std, env, s, some, c)
  {
  }

  /** The parts of a condition that is good on all rows are good on all rows. */
  lemma PartsGood(std: Standard, env: Env, source: Relation, c: Scalar, fields: set<FieldId>)
    requires WellFormed(source) && ArityOk(c) && GoodOver(std, env, source, c)
    ensures var split := Split(c, fields);
            && (split.pushable.Some? ==> GoodOver(std, env, source, split.pushable.value))
            && (split.remaining.Some? ==> GoodOver(std, env, source, split.remaining.value))
  {
    hide GoodCondition;
    forall row | row in Denote(env, source)
      ensures PartGood(std, env, source.schema, row, Split(c, fields).pushable)
      ensures PartGood(std, env, source.schema, row, Split(c, fields).remaining)
    {
      SplitGood(std, env, source.schema, row, c, fields);
    }
  }

  /** Adding a filter whose conjuncts are booleans on every row of the relation keeps all filters of the tree so. */
  lemma {:induction false} AddFilterGood(std: Standard, env: Env, source: Relation, c: Scalar)
    requires Sound(env, source) && Fits(source, c) && GoodTree(std, env, source) && GoodOver(std, env, source, c)
    ensures GoodTree(std, env, AddFilter(source, c))
    decreases source
  {
    hide GoodTree, GoodOver, Sound, WellFormed, ScalarOk;
    if source.op.UnionAllOp? || source.op.MergeOp? || source.op.SortOp? {
      AddToAllGood(std, env, source, c);
    } else if source.op.ProjectionOp? {
      AddToProjectionGood(std, env, source, c);
    } else if source.op.LeftJoinOp? {
      AddToJoinGood(std, env, source, c);
    } else {
      FilterNodeGood(std, env, source, c);
    }
  }

  lemma {:induction false} AddToAllGood(std: Standard, env: Env, source: Relation, c: Scalar)
    requires Sound(env, source) && Fits(source, c) && GoodTree(std, env, source) && GoodOver(std, env, source, c)
    requires source.op.UnionAllOp? || source.op.MergeOp? || source.op.SortOp?
    ensures GoodTree(std, env, AddToAll(source, c))
    decreases source, 0
  {
    hide OpOk, GoodOp, GoodCondition, ScalarOk;
    SameSchema(source);
    var r := AddToAll(source, c);
    forall i | 0 <= i < |source.inputs|
      ensures GoodTree(std, env, r.inputs[i]) && Within(Denote(env, r.inputs[i]), Denote(env, source.inputs[i]))
    {
      InputRows(env, source, i);
      GoodOnSome(std, env, source.schema, Denote(env, source.inputs[i]), Denote(env, source), c);
      AddFilterGood(std, env, source.inputs[i], c);
      AddFilterMeaning(env, source.inputs[i], c);
      FilteredWithin(CondFn(env, source.schema, c), Denote(env, source.inputs[i]));
    }
    FewerInputsGood(std, env, source, r);
  }

  /** What both cases of pushing one part below a node share. */
  lemma PartPushed(std: Standard, env: Env, source: Relation, c: Scalar, fields: set<FieldId>, inner: Scalar)
    requires Sound(env, source) && Fits(source, c) && GoodTree(std, env, source) && GoodOver(std, env, source, c)
    requires source.op.ProjectionOp? || source.op.LeftJoinOp?
    requires source.inputs != [] && Fits(source.inputs[0], inner) && Split(c, fields).pushable.Some?
    requires GoodTree(std, env, AddFilter(source.inputs[0], inner))
    requires Within(Denote(env, AddToFirst(source, inner)), Denote(env, source))
    ensures GoodTree(std, env, Remain(AddToFirst(source, inner), Split(c, fields).remaining))
  {
    hide OpOk, GoodOp, GoodCondition;
    var r, rest := AddToFirst(source, inner), Split(c, fields).remaining;
    AddFilterMeaning(env, source.inputs[0], inner);
    FilteredWithin(CondFn(env, source.inputs[0].schema, inner), Denote(env, source.inputs[0]));
    FewerInputsGood(std, env, source, r);
    PartsGood(std, env, source, c, fields);
    if rest.Some? {
      GoodOnSome(std, env, source.schema, Denote(env, r), Denote(env, source), rest.value);
    }
    RemainGood(std, env, r, rest);
  }

  lemma {:induction false} AddToProjectionGood(std: Standard, env: Env, source: Relation, c: Scalar)
    requires Sound(env, source) && Fits(source, c) && GoodTree(std, env, source) && GoodOver(std, env, source, c)
    requires source.op.ProjectionOp?
    ensures GoodTree(std, env, AddFilter(source, c))
    decreases source, 0
  {
    hide OpOk, GoodOp, GoodCondition;
    var fields := ProjectionFields(source);
    var pushable := Split(c, fields.Keys).pushable;
    if pushable.Some? {
      RebindFits(source, pushable.value);
      var inner := Rebind(pushable.value, fields);
      DenoteProjection(env, source);
      PartsGood(std, env, source, c, fields.Keys);
      RenamedGood(std, env, source, pushable.value);
      GoodInput(std, env, source, 0);
      AddFilterGood(std, env, source.inputs[0], inner);
      AddFilterMeaning(env, source.inputs[0], inner);
      BelowProjection(env, source, pushable.value, AddToFirst(source, inner));
      FilteredWithin(CondFn(env, source.schema, pushable.value), Denote(env, source));
      PartPushed(std, env, source, c, fields.Keys, inner);
    } else {
      FilterNodeGood(std, env, source, c);
    }
  }

  lemma {:induction false} AddToJoinGood(std: Standard, env: Env, source: Relation, c: Scalar)
    requires Sound(env, source) && Fits(source, c) && GoodTree(std, env, source) && GoodOver(std, env, source, c)
    requires source.op.LeftJoinOp?
    ensures GoodTree(std, env, AddFilter(source, c))
    decreases source, 0
  {
    hide OpOk, GoodOp, GoodCondition;
    JoinSchema(env, source);
    var fields := FieldSet(source.inputs[0].schema);
    var pushable := Split(c, fields).pushable;
    if pushable.Some? {
      var pushed := pushable.value;
      PartsGood(std, env, source, c, fields);
      LeftGood(std, env, source, pushed);
      GoodInput(std, env, source, 0);
      AddFilterGood(std, env, source.inputs[0], pushed);
      AddFilterMeaning(env, source.inputs[0], pushed);
      BelowJoin(env, source, pushed, AddToFirst(source, pushed));
      FilteredWithin(CondFn(env, source.schema, pushed), Denote(env, source));
      PartPushed(std, env, source, c, fields, pushed);
    } else {
      FilterNodeGood(std, env, source, c);
    }
  }

  /**
   * When every conjunct of every filter is a boolean on every row of the filter's source, the same holds after
   * the pass: no filter fails, wherever it was pushed. The same for trees of which no scalar fails, and for
   * trees of properly typed scalars.
   */
  lemma {:induction false} PushdownGood(std: Standard, env: Env, r: Relation)
    requires Sound(env, r) && GoodTree(std, env, r)
    ensures GoodTree(std, env, Pushdown(r))
    decreases r
  {
    hide OpOk, GoodOp, GoodCondition;
    forall i | 0 <= i < |r.inputs|
      ensures Replaces(env, Pushdown(r.inputs[i]), r.inputs[i]) && GoodTree(std, env, Pushdown(r.inputs[i]))
    {
      PushdownGood(std, env, r.inputs[i]);
      PushdownMeaning(env, r.inputs[i]);
    }
    var p := PushdownInputs(r);
    GoodCongruence(std, env, r, p.inputs);
    if p.op.FilterOp? {
      FilterPushdown.FilterFits(p);
      FilterGoodOver(std, env, p);
      AddFilterGood(std, env, p.inputs[0], p.op.condition);
    }
  }

  lemma FilterGoodOver(std: Standard, env: Env, r: Relation)
    requires WellFormed(r) && GoodTree(std, env, r) && r.op.FilterOp? && |r.inputs| == 1
    ensures GoodOver(std, env, r.inputs[0], r.op.condition)
  {
    assert DenoteAll(env, r.inputs)[0] == Denote(env, r.inputs[0]) && Schemas(r.inputs)[0] == r.inputs[0].schema;
  }
}
