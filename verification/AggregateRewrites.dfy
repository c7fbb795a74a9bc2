/** Folding aggregates of constants, and computing equal aggregates once. */
module AggregateRewrites {
  import opened Wrappers
  import opened Values
  import opened Sequences
  import opened Scalars
  import opened Relations
  import opened ScalarSimplify
  import opened OptimizerContext

  // --- aggregates of constants ---

  /** A non-null count of a constant is zero or the number of rows; a minimum or maximum is the constant itself. */
  function FoldAggregate(a: AggregateNode): AggregateNode {
    match a
    case ConstAggregate(_, _) => a
    case FnAggregate(fn, args) =>
      if args == [] || !AllConst(args) then a
      else match fn
        case CountNonNull => if args[0].v == Null then ConstAggregate(Int(0), false) else FnAggregate(CountAll, [])
        case MinOf => ConstAggregate(args[0].v, true)
        case MaxOf => ConstAggregate(args[0].v, true)
        case _ => a
  }

  function FoldAggregates(aggs: seq<Aggregate>): (bggs: seq<Aggregate>)
    ensures |bggs| == |aggs|
  {
    seq(|aggs|, i requires 0 <= i < |aggs| => aggs[i].(node := FoldAggregate(aggs[i].node)))
  }

  function FoldNode(r: Relation): Relation {
    match r.op
    case AggregateOp(aggs) => r.(op := AggregateOp(FoldAggregates(aggs)))
    case GroupOp(aggs, keys) => r.(op := GroupOp(FoldAggregates(aggs), keys))
    case _ => r
  }

  ghost predicate AllAre(vs: seq<Value>, v: Value) {
    forall i | 0 <= i < |vs| :: vs[i] == v
  }

  lemma {:induction false} SameValues(vs: seq<Value>, v: Value)
    requires AllAre(vs, v)
    ensures CountOf(vs) == if v == Null then 0 else |vs|
    ensures MinValue(vs) == MaxValue(vs) == if vs == [] then Null else v
  {
    if vs != [] {
      SameValues(vs[1..], v);
    }
  }

  /** Folding keeps the value of an aggregate over any rows, the empty input included. */
  lemma FoldAggregateMeaning(env: Env, s: Schema, rows: seq<Row>, a: AggregateNode)
    ensures AggregateValue(env, s, rows, FoldAggregate(a)) == AggregateValue(env, s, rows, a)
  {
    if a.FnAggregate? && a.args != [] && AllConst(a.args) {
      var firsts := FirstArgs(ArgTuples(env, s, rows, a.args));
      forall i | 0 <= i < |rows| ensures firsts[i] == a.args[0].v {
        assert ArgTuples(env, s, rows, a.args)[i][0] == Eval(env, s, rows[i], a.args[0]);
      }
      SameValues(firsts, a.args[0].v);
      assert |ArgTuples(env, s, rows, [])| == |rows|;
    }
  }

  lemma FoldedRow(env: Env, s: Schema, rows: seq<Row>, aggs: seq<Aggregate>)
    ensures AggregateRow(env, s, rows, FoldAggregates(aggs)) == AggregateRow(env, s, rows, aggs)
  {
    forall i | 0 <= i < |aggs|
      ensures AggregateValue(env, s, rows, FoldAggregates(aggs)[i].node) == AggregateValue(env, s, rows, aggs[i].node)
    {
      FoldAggregateMeaning(env, s, rows, aggs[i].node);
    }
  }

  lemma FoldAggregatesOk(s: Schema, aggs: seq<Aggregate>)
    requires AggregatesOk(s, aggs)
    ensures AggregatesOk(s, FoldAggregates(aggs)) && Outputs(FoldAggregates(aggs)) == Outputs(aggs)
  {
    forall i | 0 <= i < |aggs| ensures ScalarsOk(s, AggregateArgs(FoldAggregates(aggs)[i].node)) {
      assert ScalarsOk(s, AggregateArgs(aggs[i].node));
    }
  }

  lemma FoldNodeOk(r: Relation)
    requires WellFormed(r)
    ensures WellFormed(FoldNode(r)) && FoldNode(r).schema == r.schema
  {
    match r.op {
      case AggregateOp(aggs) => FoldAggregatesOk(Schemas(r.inputs)[0], aggs);
      case GroupOp(aggs, _) => FoldAggregatesOk(Schemas(r.inputs)[0], aggs);
      case _ =>
    }
  }

  lemma FoldNodeMeaning(env: Env, r: Relation)
    requires Sound(env, r)
    ensures Replaces(env, FoldNode(r), r)
  {
    var q := FoldNode(r);
    FoldNodeOk(r);
    if r.op.AggregateOp? {
      var s, rows := Schemas(r.inputs)[0], DenoteAll(env, r.inputs)[0];
      Unfold(env, r);
      Unfold(env, q);
      FoldedRow(env, s, rows, r.op.aggregates);
      SoundNode(env, q);
    } else if r.op.GroupOp? {
      var s, rows := Schemas(r.inputs)[0], DenoteAll(env, r.inputs)[0];
      var aggs, keys := r.op.aggregates, r.op.keys;
      Unfold(env, r);
      Unfold(env, q);
      FoldedGroups(env, s, rows, aggs, keys);
      SoundNode(env, q);
    }
  }

  lemma FoldedGroups(env: Env, s: Schema, rows: seq<Row>, aggs: seq<Aggregate>, keys: seq<Projector>)
    ensures GroupRows(env, s, rows, FoldAggregates(aggs), keys) == GroupRows(env, s, rows, aggs, keys)
  {
    forall k: Key
      ensures GroupRow(env, s, rows, FoldAggregates(aggs), keys)(k) == GroupRow(env, s, rows, aggs, keys)(k)
    {
      FoldedRow(env, s, Filter(HasKey(env, s, keys, k), rows), aggs);
    }
  }

  method FoldAll(aggs: seq<Aggregate>, ctx: Context) returns (folded: seq<Aggregate>)
    modifies ctx
    ensures folded == FoldAggregates(aggs)
    ensures (old(ctx.changes) ==> ctx.changes) && (!ctx.changes ==> folded == aggs)
  {
    folded := [];
    for i := 0 to |aggs|
      invariant folded == FoldAggregates(aggs)[..i]
      invariant (old(ctx.changes) ==> ctx.changes) && (!ctx.changes ==> folded == aggs[..i])
    {
      var node := FoldAggregate(aggs[i].node);
      if node != aggs[i].node {
        ctx.SetChanges();
      }
      folded := folded + [aggs[i].(node := node)];
    }
  }

  method Fold(r: Relation, ctx: Context) returns (q: Relation)
    modifies ctx
    ensures q == FoldNode(r)
    ensures (old(ctx.changes) ==> ctx.changes) && (!ctx.changes ==> q == r)
  {
    q := r;
    if r.op.AggregateOp? {
      var aggs := FoldAll(r.op.aggregates, ctx);
      q := r.(op := AggregateOp(aggs));
    } else if r.op.GroupOp? {
      var aggs := FoldAll(r.op.aggregates, ctx);
      q := r.(op := GroupOp(aggs, r.op.keys));
    }
  }

  // --- equal aggregates ---

  /** Where the first of the kept aggregates equal to this one but for its output is. */
  function FindEqual(kept: seq<Aggregate>, a: Aggregate): (r: Option<nat>)
    ensures r.Some? ==> r.value < |kept| && kept[r.value] == a.(output := kept[r.value].output)
    ensures r.None? ==> forall k | 0 <= k < |kept| :: kept[k] != a.(output := kept[k].output)
  {
    if kept == [] then None
    else
      var before := FindEqual(kept[..|kept| - 1], a);
      if before.Some? then before
      else if kept[|kept| - 1] == a.(output := kept[|kept| - 1].output) then Some(|kept| - 1)
      else None
  }

  /** The aggregates that stay, and for every aggregate the column that holds its value. */
  function Deduplicated(aggs: seq<Aggregate>): (r: (seq<Aggregate>, seq<FieldId>))
    ensures |r.1| == |aggs| && |r.0| <= |aggs|
  {
    if aggs == [] then ([], [])
    else
      var before, a := Deduplicated(aggs[..|aggs| - 1]), aggs[|aggs| - 1];
      var found := FindEqual(before.0, a);
      if found.Some? then (before.0, before.1 + [before.0[found.value].output])
      else (before.0 + [a], before.1 + [a.output])
  }

  function Forwarders(aggs: seq<Aggregate>, columns: seq<FieldId>): (ps: seq<Projector>)
    requires |columns| == |aggs|
    ensures |ps| == |aggs|
  {
    seq(|aggs|, i requires 0 <= i < |aggs| => Projector(aggs[i].output, Field(columns[i], aggs[i].ty)))
  }

  function KeyForwarders(keys: seq<Projector>): (ps: seq<Projector>)
    ensures |ps| == |keys|
  {
    seq(|keys|, i requires 0 <= i < |keys| => Projector(keys[i].alias, Field(keys[i].alias, keys[i].expr.ty)))
  }

  function DeduplicateNode(r: Relation): Relation {
    match r.op
    case AggregateOp(aggs) =>
      var (kept, columns) := Deduplicated(aggs);
      if |aggs| < 2 || |kept| == |aggs| then r
      else Relation(ProjectionOp(Forwarders(aggs, columns)), [Relation(AggregateOp(kept), r.inputs, Outputs(kept))], r.schema)
    case GroupOp(aggs, keys) =>
      var (kept, columns) := Deduplicated(aggs);
      if |aggs| < 2 || |kept| == |aggs| then r
      else Relation(ProjectionOp(Forwarders(aggs, columns) + KeyForwarders(keys)),
                    [Relation(GroupOp(kept, keys), r.inputs, Outputs(kept) + Aliases(keys))], r.schema)
    case _ => r
  }

  /** Kept aggregates come from the list, and every column is the output of a kept aggregate that computes the same. */
  ghost predicate Covers(aggs: seq<Aggregate>, kept: seq<Aggregate>, columns: seq<FieldId>) {
    && |columns| == |aggs|
    && (forall k | 0 <= k < |kept| :: kept[k] in aggs)
    && (forall i | 0 <= i < |aggs| :: Served(kept, aggs[i], columns[i]))
  }

  ghost predicate Served(kept: seq<Aggregate>, a: Aggregate, column: FieldId) {
    exists k :: 0 <= k < |kept| && Serves(kept[k], a, column)
  }

  predicate Serves(k: Aggregate, a: Aggregate, column: FieldId) {
    k.output == column && k.node == a.node
  }

  lemma ServedStill(kept: seq<Aggregate>, more: seq<Aggregate>, a: Aggregate, column: FieldId)
    requires Served(kept, a, column)
    ensures Served(kept + more, a, column)
  {
    var k :| 0 <= k < |kept| && Serves(kept[k], a, column);
    assert (kept + more)[k] == kept[k];
  }

  /** One more aggregate: served by an equal one that was kept, or kept itself. */
  lemma CoversNext(aggs: seq<Aggregate>, kept: seq<Aggregate>, columns: seq<FieldId>, a: Aggregate, more: seq<Aggregate>, column: FieldId)
    requires Covers(aggs, kept, columns) && Served(kept + more, a, column) && (more == [] || more == [a])
    ensures Covers(aggs + [a], kept + more, columns + [column])
  {
    hide Served;
    forall i | 0 <= i < |aggs + [a]| ensures Served(kept + more, (aggs + [a])[i], (columns + [column])[i]) {
      if i < |aggs| {
        ServedStill(kept, more, aggs[i], columns[i]);
      }
    }
    forall k | 0 <= k < |kept + more| ensures (kept + more)[k] in aggs + [a] {
      if k < |kept| {
        assert kept[k] in aggs;
      }
    }
  }

  lemma {:induction false} DeduplicatedCovers(aggs: seq<Aggregate>)
    ensures Covers(aggs, Deduplicated(aggs).0, Deduplicated(aggs).1)
    ensures Distinct(Outputs(aggs)) ==> Distinct(Outputs(Deduplicated(aggs).0))
  {
    hide Covers, FindEqual;
    if aggs == [] {
      NothingCovered();
    } else {
      var shorter, a := aggs[..|aggs| - 1], aggs[|aggs| - 1];
      var before := Deduplicated(shorter);
      DeduplicatedCovers(shorter);
      assert aggs == shorter + [a];
      var found := FindEqual(before.0, a);
      if found.Some? {
        assert Serves(before.0[found.value], a, before.0[found.value].output);
        assert before.0 + [] == before.0;
        CoversNext(shorter, before.0, before.1, a, [], before.0[found.value].output);
      } else {
        assert Serves((before.0 + [a])[|before.0|], a, a.output);
        CoversNext(shorter, before.0, before.1, a, [a], a.output);
      }
      if Distinct(Outputs(aggs)) {
        assert Outputs(shorter) == Outputs(aggs)[..|shorter|];
        KeptFrom(shorter, before.0, before.1);
        KeptDistinct(shorter, a, before.0);
      }
    }
  }

  lemma NothingCovered()
    ensures Covers([], [], [])
  {
  }

  lemma KeptFrom(aggs: seq<Aggregate>, kept: seq<Aggregate>, columns: seq<FieldId>)
    requires Covers(aggs, kept, columns)
    ensures forall k | 0 <= k < |kept| :: kept[k] in aggs
  {
  }

  lemma KeptDistinct(shorter: seq<Aggregate>, a: Aggregate, kept: seq<Aggregate>)
    requires Distinct(Outputs(shorter + [a])) && Distinct(Outputs(kept))
    requires forall k | 0 <= k < |kept| :: kept[k] in shorter
    ensures Distinct(Outputs(kept + [a]))
  {
    var all := shorter + [a];
    forall i, j | 0 <= i < j < |kept + [a]| ensures Outputs(kept + [a])[i] != Outputs(kept + [a])[j] {
      if j == |kept| {
        var k :| 0 <= k < |shorter| && shorter[k] == kept[i];
        assert Outputs(all)[k] != Outputs(all)[|shorter|];
      } else {
        assert Outputs(kept)[i] != Outputs(kept)[j];
      }
    }
  }

  lemma ForwardedAggregate(env: Env, s: Schema, rows: seq<Row>, a: Aggregate, kept: seq<Aggregate>,
                           column: FieldId, rest: Schema, tail: Row)
    requires Served(kept, a, column) && Distinct(Outputs(kept) + rest)
    ensures At(Outputs(kept) + rest, AggregateRow(env, s, rows, kept) + tail, column) == AggregateValue(env, s, rows, a.node)
  {
    hide AggregateValue;
    var t := Outputs(kept) + rest;
    var k :| 0 <= k < |kept| && Serves(kept[k], a, column);
    assert t[k] == column;
    SlotUnique(t, k);
  }

  /** Reading the kept aggregates through the forwarders gives back the row of all aggregates. */
  lemma ForwardedAggregates(env: Env, s: Schema, rows: seq<Row>, aggs: seq<Aggregate>, kept: seq<Aggregate>,
                            columns: seq<FieldId>, rest: Schema, tail: Row)
    requires Covers(aggs, kept, columns) && Distinct(Outputs(kept) + rest)
    ensures EvalAll(env, Outputs(kept) + rest, AggregateRow(env, s, rows, kept) + tail, Exprs(Forwarders(aggs, columns))) ==
            AggregateRow(env, s, rows, aggs)
  {
    hide AggregateValue, Distinct, Served, At;
    var t, row := Outputs(kept) + rest, AggregateRow(env, s, rows, kept) + tail;
    var es := Exprs(Forwarders(aggs, columns));
    forall i | 0 <= i < |aggs| ensures Eval(env, t, row, es[i]) == AggregateValue(env, s, rows, aggs[i].node) {
      ForwardedAggregate(env, s, rows, aggs[i], kept, columns[i], rest, tail);
    }
  }

  lemma ForwardedKeys(env: Env, s: Schema, keys: seq<Projector>, head: Row, tail: Row)
    requires Distinct(s + Aliases(keys)) && |head| == |s| && |tail| == |keys|
    ensures EvalAll(env, s + Aliases(keys), head + tail, Exprs(KeyForwarders(keys))) == tail
  {
    var t := s + Aliases(keys);
    forall i | 0 <= i < |keys| ensures Eval(env, t, head + tail, Exprs(KeyForwarders(keys))[i]) == tail[i] {
      assert t[|s| + i] == keys[i].alias;
      SlotUnique(t, |s| + i);
    }
  }

  // --- the step ---

  lemma KeptOk(s: Schema, aggs: seq<Aggregate>, kept: seq<Aggregate>)
    requires AggregatesOk(s, aggs) && forall k | 0 <= k < |kept| :: kept[k] in aggs
    ensures AggregatesOk(s, kept)
  {
    forall k | 0 <= k < |kept| ensures ScalarsOk(s, AggregateArgs(kept[k].node)) {
      var i :| 0 <= i < |aggs| && aggs[i] == kept[k];
      assert ScalarsOk(s, AggregateArgs(aggs[i].node));
    }
  }

  lemma ForwardersOk(aggs: seq<Aggregate>, kept: seq<Aggregate>, columns: seq<FieldId>, rest: Schema)
    requires Covers(aggs, kept, columns)
    ensures ScalarsOk(Outputs(kept) + rest, Exprs(Forwarders(aggs, columns)))
    ensures Aliases(Forwarders(aggs, columns)) == Outputs(aggs)
  {
    forall i | 0 <= i < |aggs| ensures columns[i] in Outputs(kept) + rest {
      assert Served(kept, aggs[i], columns[i]);
      var k :| 0 <= k < |kept| && Serves(kept[k], aggs[i], columns[i]);
      assert (Outputs(kept) + rest)[k] == columns[i];
    }
  }

  lemma KeyForwardersOk(s: Schema, keys: seq<Projector>)
    ensures ScalarsOk(s + Aliases(keys), Exprs(KeyForwarders(keys)))
    ensures Aliases(KeyForwarders(keys)) == Aliases(keys)
  {
    forall i | 0 <= i < |keys| ensures keys[i].alias in s + Aliases(keys) {
      assert (s + Aliases(keys))[|s| + i] == keys[i].alias;
    }
  }

  lemma KeptColumnsDistinct(aggs: seq<Aggregate>, kept: seq<Aggregate>, columns: seq<FieldId>, rest: Schema)
    requires Covers(aggs, kept, columns) && Distinct(Outputs(aggs) + rest) && Distinct(Outputs(kept))
    ensures Distinct(Outputs(kept) + rest)
  {
    var all := Outputs(aggs) + rest;
    forall i, j | 0 <= i < j < |Outputs(kept) + rest| ensures (Outputs(kept) + rest)[i] != (Outputs(kept) + rest)[j] {
      if j < |kept| {
        assert Outputs(kept)[i] != Outputs(kept)[j];
      } else if i < |kept| {
        var k :| 0 <= k < |aggs| && aggs[k] == kept[i];
        assert all[k] != all[|aggs| + j - |kept|];
      } else {
        assert all[|aggs| + i - |kept|] != all[|aggs| + j - |kept|];
      }
    }
  }

  lemma PrefixDistinct(a: Schema, b: Schema)
    requires Distinct(a + b)
    ensures Distinct(a)
  {
    forall i, j | 0 <= i < j < |a| ensures a[i] != a[j] {
      assert (a + b)[i] != (a + b)[j];
    }
  }

  /** The kept aggregates, under any columns that follow them, are as well-formed as all of them were. */
  lemma KeptFacts(s: Schema, aggs: seq<Aggregate>, rest: Schema)
    requires AggregatesOk(s, aggs) && Distinct(Outputs(aggs) + rest)
    ensures var (kept, columns) := Deduplicated(aggs);
            && AggregatesOk(s, kept)
            && Covers(aggs, kept, columns)
            && Distinct(Outputs(kept) + rest)
  {
    var (kept, columns) := Deduplicated(aggs);
    DeduplicatedCovers(aggs);
    PrefixDistinct(Outputs(aggs), rest);
    KeptFrom(aggs, kept, columns);
    KeptOk(s, aggs, kept);
    KeptColumnsDistinct(aggs, kept, columns, rest);
  }

  /** A projection over an aggregation with the inputs of `r`. */
  function Over(ps: seq<Projector>, op: Op, r: Relation, middle: Schema): Relation {
    Relation(ProjectionOp(ps), [Relation(op, r.inputs, middle)], r.schema)
  }

  lemma OverOk(ps: seq<Projector>, op: Op, r: Relation, middle: Schema)
    requires WellFormed(r) && OpOk(op, middle, Schemas(r.inputs)) && r.schema == Aliases(ps) && ScalarsOk(middle, Exprs(ps))
    ensures WellFormed(Over(ps, op, r, middle))
  {
    assert Distinct(r.schema);
    assert WellFormed(Relation(op, r.inputs, middle));
    assert Schemas([Relation(op, r.inputs, middle)]) == [middle];
  }

  lemma OverRows(env: Env, ps: seq<Projector>, op: Op, r: Relation, middle: Schema)
    requires Sound(env, r) && OpOk(op, middle, Schemas(r.inputs)) && !op.MergeOp?
    requires WellFormed(Over(ps, op, r, middle))
    ensures Sound(env, Over(ps, op, r, middle))
    ensures Denote(env, Over(ps, op, r, middle)) ==
            Map(ProjectFn(env, middle, ps), OpRows(env, op, middle, Schemas(r.inputs), DenoteAll(env, r.inputs)))
  {
    hide OpOk, OpRows;
    var source := Relation(op, r.inputs, middle);
    Unfold(env, source);
    SoundNode(env, source);
    SoundNode(env, Over(ps, op, r, middle));
    ProjectionOver(env, ps, source, r.schema);
  }

  lemma ProjectionOver(env: Env, ps: seq<Projector>, source: Relation, schema: Schema)
    requires WellFormed(source) && WellFormed(Relation(ProjectionOp(ps), [source], schema))
    ensures Denote(env, Relation(ProjectionOp(ps), [source], schema)) ==
            Map(ProjectFn(env, source.schema, ps), Denote(env, source))
  {
    Unfold(env, Relation(ProjectionOp(ps), [source], schema));
  }

  lemma AggregateFacts(r: Relation)
    requires WellFormed(r) && r.op.AggregateOp?
    ensures var aggs := r.op.aggregates;
            var (kept, columns) := Deduplicated(aggs);
            && |r.inputs| == 1 && AggregatesOk(r.inputs[0].schema, aggs) && r.schema == Outputs(aggs)
            && Covers(aggs, kept, columns)
            && Distinct(Outputs(kept) + [])
            && OpOk(AggregateOp(kept), Outputs(kept), Schemas(r.inputs))
            && WellFormed(Over(Forwarders(aggs, columns), AggregateOp(kept), r, Outputs(kept)))
  {
    var aggs := r.op.aggregates;
    var (kept, columns) := Deduplicated(aggs);
    assert Outputs(aggs) + [] == Outputs(aggs) && Outputs(kept) + [] == Outputs(kept);
    KeptFacts(Schemas(r.inputs)[0], aggs, []);
    ForwardersOk(aggs, kept, columns, []);
    OverOk(Forwarders(aggs, columns), AggregateOp(kept), r, Outputs(kept));
  }

  lemma GroupParts(r: Relation)
    requires WellFormed(r) && r.op.GroupOp?
    ensures var aggs, keys := r.op.aggregates, r.op.keys;
            && |r.inputs| == 1
            && AggregatesOk(Schemas(r.inputs)[0], aggs)
            && ScalarsOk(Schemas(r.inputs)[0], Exprs(keys))
            && r.schema == Outputs(aggs) + Aliases(keys)
            && Distinct(r.schema)
  {
  }

  lemma GroupOpOk(aggs: seq<Aggregate>, keys: seq<Projector>, ss: seq<Schema>)
    requires |ss| == 1 && AggregatesOk(ss[0], aggs) && ScalarsOk(ss[0], Exprs(keys)) && Distinct(Outputs(aggs) + Aliases(keys))
    ensures OpOk(GroupOp(aggs, keys), Outputs(aggs) + Aliases(keys), ss)
  {
  }

  lemma AllForwardersOk(aggs: seq<Aggregate>, kept: seq<Aggregate>, columns: seq<FieldId>, keys: seq<Projector>)
    requires |columns| == |aggs| && Covers(aggs, kept, columns)
    ensures var ps := Forwarders(aggs, columns) + KeyForwarders(keys);
            Aliases(ps) == Outputs(aggs) + Aliases(keys) && ScalarsOk(Outputs(kept) + Aliases(keys), Exprs(ps))
  {
    hide ScalarOk, Covers;
    ForwardersOk(aggs, kept, columns, Aliases(keys));
    KeyForwardersOk(Outputs(kept), keys);
    var ps := Forwarders(aggs, columns) + KeyForwarders(keys);
    assert Exprs(ps) == Exprs(Forwarders(aggs, columns)) + Exprs(KeyForwarders(keys));
  }

  lemma GroupFacts(r: Relation)
    requires WellFormed(r) && r.op.GroupOp?
    ensures var aggs, keys := r.op.aggregates, r.op.keys;
            var (kept, columns) := Deduplicated(aggs);
            var middle := Outputs(kept) + Aliases(keys);
            && |r.inputs| == 1
            && Covers(aggs, kept, columns)
            && Distinct(middle)
            && OpOk(GroupOp(kept, keys), middle, Schemas(r.inputs))
            && WellFormed(Over(Forwarders(aggs, columns) + KeyForwarders(keys), GroupOp(kept, keys), r, middle))
  {
    hide WellFormed, OpOk, Covers, Deduplicated, ScalarsOk, AggregatesOk, Distinct;
    var aggs, keys := r.op.aggregates, r.op.keys;
    var (kept, columns) := Deduplicated(aggs);
    GroupParts(r);
    KeptFacts(Schemas(r.inputs)[0], aggs, Aliases(keys));
    GroupOpOk(kept, keys, Schemas(r.inputs));
    AllForwardersOk(aggs, kept, columns, keys);
    OverOk(Forwarders(aggs, columns) + KeyForwarders(keys), GroupOp(kept, keys), r, Outputs(kept) + Aliases(keys));
  }

  lemma DeduplicateNodeOk(r: Relation)
    requires WellFormed(r)
    ensures WellFormed(DeduplicateNode(r)) && DeduplicateNode(r).schema == r.schema
  {
    hide WellFormed;
    if r.op.AggregateOp? {
      AggregateFacts(r);
    } else if r.op.GroupOp? {
      GroupFacts(r);
    }
  }

  lemma GroupRowForwarded(env: Env, s: Schema, rows: seq<Row>, aggs: seq<Aggregate>, kept: seq<Aggregate>,
                          columns: seq<FieldId>, keys: seq<Projector>, k: Key)
    requires |columns| == |aggs| && Covers(aggs, kept, columns) && Distinct(Outputs(kept) + Aliases(keys)) && |k| == |keys|
    ensures ProjectFn(env, Outputs(kept) + Aliases(keys), Forwarders(aggs, columns) + KeyForwarders(keys))
              (GroupRow(env, s, rows, kept, keys)(k)) == GroupRow(env, s, rows, aggs, keys)(k)
  {
    hide Covers, Distinct, Eval, AggregateValue, Filter;
    var t, ps := Outputs(kept) + Aliases(keys), Forwarders(aggs, columns) + KeyForwarders(keys);
    var group := Filter(HasKey(env, s, keys, k), rows);
    var row := AggregateRow(env, s, group, kept) + k;
    ForwardedAggregates(env, s, group, aggs, kept, columns, Aliases(keys), k);
    ForwardedKeys(env, Outputs(kept), keys, AggregateRow(env, s, group, kept), k);
    assert Exprs(ps) == Exprs(Forwarders(aggs, columns)) + Exprs(KeyForwarders(keys));
    EvalAllAppend(env, t, row, Exprs(Forwarders(aggs, columns)), Exprs(KeyForwarders(keys)));
  }

  lemma EvalAllAppend(env: Env, s: Schema, row: Row, a: seq<Scalar>, b: seq<Scalar>)
    ensures EvalAll(env, s, row, a + b) == EvalAll(env, s, row, a) + EvalAll(env, s, row, b)
  {
  }

  lemma GroupsForwarded(env: Env, s: Schema, rows: seq<Row>, aggs: seq<Aggregate>, kept: seq<Aggregate>,
                        columns: seq<FieldId>, keys: seq<Projector>)
    requires |columns| == |aggs| && Covers(aggs, kept, columns) && Distinct(Outputs(kept) + Aliases(keys))
    ensures Map(ProjectFn(env, Outputs(kept) + Aliases(keys), Forwarders(aggs, columns) + KeyForwarders(keys)),
                GroupRows(env, s, rows, kept, keys)) == GroupRows(env, s, rows, aggs, keys)
  {
    hide Covers, Distinct, ProjectFn, GroupRow;
    var ks := Map(KeyFn(env, s, Exprs(keys)), rows);
    DistinctKeysMembers(ks);
    forall k | k in DistinctKeys(ks)
      ensures ProjectFn(env, Outputs(kept) + Aliases(keys), Forwarders(aggs, columns) + KeyForwarders(keys))
                (GroupRow(env, s, rows, kept, keys)(k)) == GroupRow(env, s, rows, aggs, keys)(k)
    {
      assert k in ks;
      GroupRowForwarded(env, s, rows, aggs, kept, columns, keys, k);
    }
  }

  lemma DeduplicatedGroup(env: Env, r: Relation)
    requires Sound(env, r) && r.op.GroupOp?
    ensures var aggs, keys := r.op.aggregates, r.op.keys;
            var (kept, columns) := Deduplicated(aggs);
            Replaces(env, Over(Forwarders(aggs, columns) + KeyForwarders(keys), GroupOp(kept, keys), r, Outputs(kept) + Aliases(keys)), r)
  {
    hide Covers, Deduplicated, GroupRows, OpOk;
    var aggs, keys := r.op.aggregates, r.op.keys;
    var (kept, columns) := Deduplicated(aggs);
    GroupFacts(r);
    OverRows(env, Forwarders(aggs, columns) + KeyForwarders(keys), GroupOp(kept, keys), r, Outputs(kept) + Aliases(keys));
    GroupsForwarded(env, Schemas(r.inputs)[0], DenoteAll(env, r.inputs)[0], aggs, kept, columns, keys);
    Unfold(env, r);
  }

  lemma DeduplicatedAggregate(env: Env, r: Relation)
    requires Sound(env, r) && r.op.AggregateOp?
    ensures var (kept, columns) := Deduplicated(r.op.aggregates);
            Replaces(env, Over(Forwarders(r.op.aggregates, columns), AggregateOp(kept), r, Outputs(kept)), r)
  {
    hide Covers, Deduplicated, AggregateValue, OpOk;
    var aggs := r.op.aggregates;
    var (kept, columns) := Deduplicated(aggs);
    AggregateFacts(r);
    var s, rows := Schemas(r.inputs)[0], DenoteAll(env, r.inputs)[0];
    OverRows(env, Forwarders(aggs, columns), AggregateOp(kept), r, Outputs(kept));
    ForwardedAggregates(env, s, rows, aggs, kept, columns, [], []);
    assert Outputs(kept) + [] == Outputs(kept) && AggregateRow(env, s, rows, kept) + [] == AggregateRow(env, s, rows, kept);
    Unfold(env, r);
  }

  /** Computing equal aggregates once and forwarding their value keeps the rows. */
  lemma DeduplicateNodeMeaning(env: Env, r: Relation)
    requires Sound(env, r)
    ensures Replaces(env, DeduplicateNode(r), r)
  {
    hide Deduplicated, Sound, WellFormed, Denote;
    if r.op.AggregateOp? {
      DeduplicatedAggregate(env, r);
    } else if r.op.GroupOp? {
      DeduplicatedGroup(env, r);
    }
    Itself(env, r);
  }

  lemma Itself(env: Env, r: Relation)
    requires Sound(env, r)
    ensures Replaces(env, r, r)
  {
  }

  // --- as the optimizer runs it ---

  lemma DeduplicatedStep(aggs: seq<Aggregate>, i: nat)
    requires i < |aggs|
    ensures var before, found := Deduplicated(aggs[..i]), FindEqual(Deduplicated(aggs[..i]).0, aggs[i]);
            Deduplicated(aggs[..i + 1]) ==
            if found.Some? then (before.0, before.1 + [before.0[found.value].output])
            else (before.0 + [aggs[i]], before.1 + [aggs[i].output])
  {
    assert aggs[..i + 1][..i] == aggs[..i];
  }

  /** The loop over the aggregates, with a table from what an aggregate computes to the column that holds it. */
  method DeduplicateAll(aggs: seq<Aggregate>) returns (kept: seq<Aggregate>, columns: seq<FieldId>)
    ensures (kept, columns) == Deduplicated(aggs)
    ensures |kept| == |aggs| ==> kept == aggs
  {
    hide Deduplicated, Indexed, FindEqual;
    var expressions: map<(AggregateNode, ValueType), FieldId> := map[];
    kept, columns := [], [];
    assert aggs[..0] == [];
    Start(expressions);
    for i := 0 to |aggs|
      invariant (kept, columns) == Deduplicated(aggs[..i]) && |kept| <= i
      invariant |kept| == i ==> kept == aggs[..i]
      invariant Indexed(expressions, kept)
    {
      var a := aggs[i];
      DeduplicatedStep(aggs, i);
      var key := (a.node, a.ty);
      Lookup(expressions, kept, a);
      if key in expressions {
        columns := columns + [expressions[key]];
      } else {
        Insert(expressions, kept, a);
        expressions := expressions[key := a.output];
        kept, columns := kept + [a], columns + [a.output];
      }
    }
    assert aggs[..|aggs|] == aggs;
  }

  lemma Start(table: map<(AggregateNode, ValueType), FieldId>)
    requires table == map[]
    ensures Indexed(table, []) && Deduplicated([]) == ([], [])
  {
  }

  /** The table maps what each kept aggregate computes to its output, and nothing else. */
  ghost predicate Indexed(table: map<(AggregateNode, ValueType), FieldId>, kept: seq<Aggregate>) {
    && (forall k | 0 <= k < |kept| :: (kept[k].node, kept[k].ty) in table && table[(kept[k].node, kept[k].ty)] == kept[k].output)
    && (forall key | key in table :: exists k :: 0 <= k < |kept| && (kept[k].node, kept[k].ty) == key)
  }

  lemma Lookup(table: map<(AggregateNode, ValueType), FieldId>, kept: seq<Aggregate>, a: Aggregate)
    requires Indexed(table, kept)
    ensures var found := FindEqual(kept, a);
            if (a.node, a.ty) in table then found.Some? && table[(a.node, a.ty)] == kept[found.value].output
            else found.None?
  {
  }

  lemma Insert(table: map<(AggregateNode, ValueType), FieldId>, kept: seq<Aggregate>, a: Aggregate)
    requires Indexed(table, kept) && (a.node, a.ty) !in table
    ensures Indexed(table[(a.node, a.ty) := a.output], kept + [a])
  {
    var after, more := table[(a.node, a.ty) := a.output], kept + [a];
    forall key | key in after ensures exists k :: 0 <= k < |more| && (more[k].node, more[k].ty) == key {
      if key == (a.node, a.ty) {
        assert more[|kept|] == a;
      } else {
        var k :| 0 <= k < |kept| && (kept[k].node, kept[k].ty) == key;
        assert more[k] == kept[k];
      }
    }
  }

  lemma DeduplicateIs(r: Relation, kept: seq<Aggregate>, columns: seq<FieldId>)
    requires r.op.AggregateOp? || r.op.GroupOp?
    requires (kept, columns) == Deduplicated(r.op.aggregates)
    ensures |columns| == |r.op.aggregates|
    ensures |r.op.aggregates| < 2 || |kept| == |r.op.aggregates| ==> DeduplicateNode(r) == r
    ensures r.op.AggregateOp? && |r.op.aggregates| >= 2 && |kept| != |r.op.aggregates| ==>
      DeduplicateNode(r) == Over(Forwarders(r.op.aggregates, columns), AggregateOp(kept), r, Outputs(kept))
    ensures r.op.GroupOp? && |r.op.aggregates| >= 2 && |kept| != |r.op.aggregates| ==>
      DeduplicateNode(r) == Over(Forwarders(r.op.aggregates, columns) + KeyForwarders(r.op.keys), GroupOp(kept, r.op.keys), r,
                                 Outputs(kept) + Aliases(r.op.keys))
  {
    hide Forwarders, KeyForwarders, Outputs, Aliases;
    var both := Deduplicated(r.op.aggregates);
    assert both.0 == kept && both.1 == columns;
  }

  lemma NothingToDeduplicate(r: Relation)
    requires !(r.op.AggregateOp? || r.op.GroupOp?) || |r.op.aggregates| < 2
    ensures DeduplicateNode(r) == r
  {
  }

  method Deduplicate(r: Relation, ctx: Context) returns (q: Relation)
    modifies ctx
    ensures q == DeduplicateNode(r)
    ensures (old(ctx.changes) ==> ctx.changes) && (!ctx.changes ==> q == r)
  {
    hide Deduplicated, DeduplicateNode, Forwarders, KeyForwarders, Outputs, Aliases;
    q := r;
    if !(r.op.AggregateOp? || r.op.GroupOp?) || |r.op.aggregates| < 2 {
      NothingToDeduplicate(r);
      return;
    }
    var aggs := r.op.aggregates;
    var kept, columns := DeduplicateAll(aggs);
    DeduplicateIs(r, kept, columns);
    if |kept| == |aggs| {
      return;
    }
    ctx.SetChanges();
    if r.op.AggregateOp? {
      q := Over(Forwarders(aggs, columns), AggregateOp(kept), r, Outputs(kept));
    } else {
      var keys := r.op.keys;
      q := Over(Forwarders(aggs, columns) + KeyForwarders(keys), GroupOp(kept, keys), r, Outputs(kept) + Aliases(keys));
    }
  }
}
