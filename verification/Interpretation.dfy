/** Every program has an interpretation: rows for its names that agree with their definitions, and only one. */
module Interpretation {
  import opened Values
  import opened Sequences
  import opened Scalars
  import opened Relations
  import opened ScalarRewrites
  import opened Programs
  import S = Sorting

  function WithNames(env: Env, named: string -> seq<Row>): Env {
    env.(named := named)
  }

  // --- nothing but references looks at the rows of names ---

  lemma {:induction false} EvalNamed(env: Env, named: string -> seq<Row>, s: Schema, row: Row, e: Scalar)
    ensures Eval(WithNames(env, named), s, row, e) == Eval(env, s, row, e)
  {
    match e {
      case Coalesce(args, _) =>
        ListNamed(env, named, s, row, args);
        UnfoldArgs(env, s, row, e);
        UnfoldArgs(WithNames(env, named), s, row, e);
      case Call(_, args, _) =>
        ListNamed(env, named, s, row, args);
        UnfoldArgs(env, s, row, e);
        UnfoldArgs(WithNames(env, named), s, row, e);
      case Cached(inner, _) => EvalNamed(env, named, s, row, inner);
      case _ =>
    }
  }

  lemma {:induction false} ListNamed(env: Env, named: string -> seq<Row>, s: Schema, row: Row, es: seq<Scalar>)
    ensures EvalAll(WithNames(env, named), s, row, es) == EvalAll(env, s, row, es)
  {
    forall i | 0 <= i < |es| ensures Eval(WithNames(env, named), s, row, es[i]) == Eval(env, s, row, es[i]) {
      EvalNamed(env, named, s, row, es[i]);
    }
  }

  lemma KeyNamed(env: Env, named: string -> seq<Row>, s: Schema, es: seq<Scalar>)
    ensures forall row :: KeyFn(WithNames(env, named), s, es)(row) == KeyFn(env, s, es)(row)
  {
    forall row ensures KeyFn(WithNames(env, named), s, es)(row) == KeyFn(env, s, es)(row) {
      ListNamed(env, named, s, row, es);
    }
  }

  lemma LogNamed(env: Env, named: string -> seq<Row>, name: string, s: Schema, required: set<FieldId>)
    ensures LogRows(WithNames(env, named), name, s, required) == LogRows(env, name, s, required)
  {
    var env' := WithNames(env, named);
    FilterOn(KeepLine(env', required), KeepLine(env, required), env.lines(name));
    assert forall line :: LineRow(env', s, required)(line) == LineRow(env, s, required)(line);
  }

  lemma AggregateNamed(env: Env, named: string -> seq<Row>, s: Schema, rows: seq<Row>, aggs: seq<Aggregate>)
    ensures AggregateRow(WithNames(env, named), s, rows, aggs) == AggregateRow(env, s, rows, aggs)
  {
    var env' := WithNames(env, named);
    forall i | 0 <= i < |aggs|
      ensures AggregateValue(env', s, rows, aggs[i].node) == AggregateValue(env, s, rows, aggs[i].node)
    {
      if aggs[i].node.FnAggregate? {
        var args := aggs[i].node.args;
        forall k | 0 <= k < |rows| ensures EvalAll(env', s, rows[k], args) == EvalAll(env, s, rows[k], args) {
          ListNamed(env, named, s, rows[k], args);
        }
        assert ArgTuples(env', s, rows, args) == ArgTuples(env, s, rows, args);
      }
    }
  }

  lemma GroupNamed(env: Env, named: string -> seq<Row>, s: Schema, rows: seq<Row>, aggs: seq<Aggregate>, keys: seq<Projector>)
    ensures GroupRows(WithNames(env, named), s, rows, aggs, keys) == GroupRows(env, s, rows, aggs, keys)
  {
    var env' := WithNames(env, named);
    KeyNamed(env, named, s, Exprs(keys));
    assert Map(KeyFn(env', s, Exprs(keys)), rows) == Map(KeyFn(env, s, Exprs(keys)), rows);
    forall k ensures GroupRow(env', s, rows, aggs, keys)(k) == GroupRow(env, s, rows, aggs, keys)(k) {
      forall row ensures HasKey(env', s, keys, k)(row) == HasKey(env, s, keys, k)(row) {
        ListNamed(env, named, s, row, Exprs(keys));
      }
      FilterOn(HasKey(env', s, keys, k), HasKey(env, s, keys, k), rows);
      AggregateNamed(env, named, s, Filter(HasKey(env, s, keys, k), rows), aggs);
    }
  }

  lemma JoinNamed(env: Env, named: string -> seq<Row>, ls: Schema, rs: Schema, lk: Scalar, rk: Scalar, right: seq<Row>, l: Row)
    ensures JoinFn(WithNames(env, named), ls, rs, lk, rk, right)(l) == JoinFn(env, ls, rs, lk, rk, right)(l)
  {
    var env', key := WithNames(env, named), Eval(env, ls, l, lk);
    EvalNamed(env, named, ls, l, lk);
    forall row ensures RightMatches(env', rs, rk, key)(row) == RightMatches(env, rs, rk, key)(row) {
      EvalNamed(env, named, rs, row, rk);
    }
    FilterOn(RightMatches(env', rs, rk, key), RightMatches(env, rs, rk, key), right);
  }

  lemma ConditionNamed(env: Env, named: string -> seq<Row>, s: Schema, e: Scalar)
    ensures forall row :: Eval(WithNames(env, named), s, row, e) == Eval(env, s, row, e)
  {
    forall row ensures Eval(WithNames(env, named), s, row, e) == Eval(env, s, row, e) {
      EvalNamed(env, named, s, row, e);
    }
  }

  /** Only a reference depends on the rows of names, and only on those of its own. */
  lemma OpNamed(env: Env, named: string -> seq<Row>, op: Op, schema: Schema, ss: seq<Schema>, ins: seq<seq<Row>>)
    requires |ss| == |ins| && ArityIs(op, |ins|) && (op.NamedOp? ==> named(op.name) == env.named(op.name))
    ensures OpRows(WithNames(env, named), op, schema, ss, ins) == OpRows(env, op, schema, ss, ins)
  {
    hide Eval, EvalAll, GroupRows, S.Sort, S.Merge, LogRows, JoinFn, AggregateRow;
    var env' := WithNames(env, named);
    match op {
      case LogOp(name) => LogNamed(env, named, name, schema, FieldSet(schema));
      case ProjectionOp(ps) =>
        forall row ensures ProjectFn(env', ss[0], ps)(row) == ProjectFn(env, ss[0], ps)(row) {
          ListNamed(env, named, ss[0], row, Exprs(ps));
        }
        assert Map(ProjectFn(env', ss[0], ps), ins[0]) == Map(ProjectFn(env, ss[0], ps), ins[0]);
      case FilterOp(c) =>
        ConditionNamed(env, named, ss[0], c);
        FilterOn(CondFn(env', ss[0], c), CondFn(env, ss[0], c), ins[0]);
      case SortOp(order, desc) =>
        KeyNamed(env, named, ss[0], order);
        SortOn(KeyFn(env', ss[0], order), KeyFn(env, ss[0], order), desc, ins[0]);
      case TopKOp(order, desc, _) =>
        KeyNamed(env, named, ss[0], order);
        SortOn(KeyFn(env', ss[0], order), KeyFn(env, ss[0], order), desc, ins[0]);
      case MergeOp(order, desc) =>
        KeyNamed(env, named, ss[0], order);
        MergeOn(KeyFn(env', ss[0], order), KeyFn(env, ss[0], order), desc, ins[0], ins[1]);
      case LeftJoinOp(lk, rk) =>
        forall l ensures JoinFn(env', ss[0], ss[1], lk, rk, ins[1])(l) == JoinFn(env, ss[0], ss[1], lk, rk, ins[1])(l) {
          JoinNamed(env, named, ss[0], ss[1], lk, rk, ins[1], l);
        }
        assert Map(JoinFn(env', ss[0], ss[1], lk, rk, ins[1]), ins[0]) == Map(JoinFn(env, ss[0], ss[1], lk, rk, ins[1]), ins[0]);
      case SemiJoinOp(key, _) =>
        ConditionNamed(env, named, ss[0], key);
        FilterOn(MatchFn(env', ss[0], key, MatchSet(ins[1])), MatchFn(env, ss[0], key, MatchSet(ins[1])), ins[0]);
      case MarkJoinOp(key, _, _) =>
        ConditionNamed(env, named, ss[0], key);
        assert Map(MarkFn(env', ss[0], key, MatchSet(ins[1])), ins[0]) == Map(MarkFn(env, ss[0], key, MatchSet(ins[1])), ins[0]);
      case AggregateOp(aggs) => AggregateNamed(env, named, ss[0], ins[0], aggs);
      case GroupOp(aggs, keys) => GroupNamed(env, named, ss[0], ins[0], aggs, keys);
      case _ =>
    }
  }

  /** The rows of a relation depend on the rows of the names it refers to, and on no others. */
  lemma {:induction false} DenoteNamed(env: Env, named: string -> seq<Row>, names: map<string, Schema>, r: Relation)
    requires WellFormed(r) && RefsIn(names, r) && forall n :: n in names ==> named(n) == env.named(n)
    ensures Denote(WithNames(env, named), r) == Denote(env, r)
  {
    hide OpOk, OpRows;
    forall i | 0 <= i < |r.inputs| ensures Denote(WithNames(env, named), r.inputs[i]) == Denote(env, r.inputs[i]) {
      DenoteNamed(env, named, names, r.inputs[i]);
    }
    Unfold(env, r);
    Unfold(WithNames(env, named), r);
    assert DenoteAll(WithNames(env, named), r.inputs) == DenoteAll(env, r.inputs);
    OpArity(r);
    OpNamed(env, named, r.op, r.schema, Schemas(r.inputs), DenoteAll(env, r.inputs));
  }

  lemma OpArity(r: Relation)
    requires WellFormed(r)
    ensures ArityIs(r.op, |r.inputs|)
  {
  }

  // --- interpretations ---

  /** The names defined by the first statements have the rows of their definitions. */
  ghost predicate InterpretsTo(env: Env, stmts: seq<Statement>, n: nat)
    requires ProgramOk(stmts) && n <= |stmts|
  {
    forall i :: 0 <= i < n && stmts[i].NamedStatement? ==> env.named(stmts[i].name) == Denote(env, stmts[i].relation)
  }

  /** The rows of names after the first statements were interpreted one by one. */
  ghost function NamedRows(env: Env, stmts: seq<Statement>, n: nat): string -> seq<Row>
    requires ProgramOk(stmts) && n <= |stmts|
  {
    if n == 0 then env.named
    else
      var before := NamedRows(env, stmts, n - 1);
      var stmt := stmts[n - 1];
      if stmt.QueryStatement? then before
      else
        var rows := Denote(WithNames(env, before), stmt.relation);
        name => if name == stmt.name then rows else before(name)
  }

  lemma {:induction false} NamesDefined(stmts: seq<Statement>, i: nat, n: nat)
    requires i < n <= |stmts| && stmts[i].NamedStatement?
    ensures stmts[i].name in NamesOf(stmts[..n])
    decreases n
  {
    assert stmts[..n][..n - 1] == stmts[..n - 1];
    if i < n - 1 {
      NamesDefined(stmts, i, n - 1);
    }
  }

  lemma {:induction false} NamesGrow(stmts: seq<Statement>, i: nat, n: nat)
    requires i <= n <= |stmts|
    ensures NamesOf(stmts[..i]).Keys <= NamesOf(stmts[..n]).Keys
    decreases n
  {
    if i < n {
      NamesGrow(stmts, i, n - 1);
      assert stmts[..n][..n - 1] == stmts[..n - 1];
    }
  }

  /** An earlier definition keeps its rows, and its name keeps them, when one more name is given rows. */
  lemma DefinitionKept(env: Env, stmts: seq<Statement>, n: nat, i: nat)
    requires ProgramOk(stmts) && i < n <= |stmts| && stmts[i].NamedStatement? && stmts[n - 1].NamedStatement?
    requires InterpretsTo(WithNames(env, NamedRows(env, stmts, n - 1)), stmts, n - 1)
    ensures WellFormed(stmts[i].relation)
    ensures NamedRows(env, stmts, n)(stmts[i].name) ==
            Denote(WithNames(env, NamedRows(env, stmts, n)), stmts[i].relation)
  {
    hide WellFormed, Denote, NamesOf, RefsIn;
    var before, after := NamedRows(env, stmts, n - 1), NamedRows(env, stmts, n);
    assert WithNames(env, after) == WithNames(WithNames(env, before), after);
    ProgramAt(stmts, n - 1);
    ProgramAt(stmts, i);
    NamesGrow(stmts, i, n - 1);
    DenoteNamed(WithNames(env, before), after, NamesOf(stmts[..i]), stmts[i].relation);
    if i < n - 1 {
      NamesDefined(stmts, i, n - 1);
    }
  }

  lemma {:induction false} NamedRowsInterpret(env: Env, stmts: seq<Statement>, n: nat)
    requires ProgramOk(stmts) && n <= |stmts|
    ensures InterpretsTo(WithNames(env, NamedRows(env, stmts, n)), stmts, n)
    decreases n
  {
    hide WellFormed, Denote, NamesOf, RefsIn;
    if n > 0 {
      NamedRowsInterpret(env, stmts, n - 1);
      if stmts[n - 1].NamedStatement? {
        forall i | 0 <= i < n && stmts[i].NamedStatement?
          ensures NamedRows(env, stmts, n)(stmts[i].name) ==
                  Denote(WithNames(env, NamedRows(env, stmts, n)), stmts[i].relation)
        {
          DefinitionKept(env, stmts, n, i);
        }
      }
    }
  }

  /** Every program has an interpretation that differs from a given environment only in the rows of names. */
  lemma InterpretationExists(env: Env, stmts: seq<Statement>) returns (named: string -> seq<Row>)
    requires ProgramOk(stmts)
    ensures Interprets(WithNames(env, named), stmts)
  {
    NamedRowsInterpret(env, stmts, |stmts|);
    named := NamedRows(env, stmts, |stmts|);
  }

  /** Two interpretations of a program give its names, and so its relations, the same rows. */
  lemma {:induction false} InterpretationUnique(env: Env, named: string -> seq<Row>, stmts: seq<Statement>, n: nat)
    requires ProgramOk(stmts) && n <= |stmts| && Interprets(env, stmts) && Interprets(WithNames(env, named), stmts)
    ensures forall name :: name in NamesOf(stmts[..n]) ==> named(name) == env.named(name)
    ensures forall i :: 0 <= i < n ==> Denote(WithNames(env, named), stmts[i].relation) == Denote(env, stmts[i].relation)
    decreases n
  {
    hide WellFormed, Denote, RefsIn;
    if n > 0 {
      InterpretationUnique(env, named, stmts, n - 1);
      ProgramAt(stmts, n - 1);
      DenoteNamed(env, named, NamesOf(stmts[..n - 1]), stmts[n - 1].relation);
      assert stmts[..n][..n - 1] == stmts[..n - 1];
    }
  }
}
