/**
 * The relational IR and its meaning: every well-formed tree denotes a sequence of rows.
 *
 * A relation node is its operator, its input relations and its schema. The meaning of an operator
 * (`OpRows`) depends on its inputs only through their schemas and rows, so a rewrite that keeps
 * both of an input keeps the meaning of the whole tree.
 */
module Relations {
  import opened Values
  import opened Sequences
  import opened Scalars
  import S = Sorting

  datatype Projector = Projector(alias: FieldId, expr: Scalar)

  datatype AggregateFn = CountAll | CountNonNull | MinOf | MaxOf | NamedAggregate(name: string)

  datatype AggregateNode =
    | FnAggregate(fn: AggregateFn, args: seq<Scalar>)
    | ConstAggregate(value: Value, nullIfEmpty: bool)

  datatype Aggregate = Aggregate(node: AggregateNode, output: FieldId, ty: ValueType)

  datatype Op =
    | EmptyOp
    | LogOp(name: string)
    | NamedOp(name: string)
    | ValuesOp(values: seq<Value>, output: FieldId)
    | ProjectionOp(projectors: seq<Projector>)
    | FilterOp(condition: Scalar)
    | SortOp(order: seq<Scalar>, desc: bool)
    | TopKOp(order: seq<Scalar>, desc: bool, topCount: nat)
    | LimitOp(limit: nat)
    | UnionAllOp
    | MergeOp(order: seq<Scalar>, desc: bool)
    | LeftJoinOp(leftKey: Scalar, rightKey: Scalar)
    | SemiJoinOp(key: Scalar, matchField: FieldId)
    | MarkJoinOp(key: Scalar, matchField: FieldId, output: FieldId)
    | AggregateOp(aggregates: seq<Aggregate>)
    | GroupOp(aggregates: seq<Aggregate>, keys: seq<Projector>)
    | MaterializeOp

  datatype Relation = Relation(op: Op, inputs: seq<Relation>, schema: Schema)

  // --- operators on rows ---

  function Aliases(ps: seq<Projector>): Schema { seq(|ps|, i requires 0 <= i < |ps| => ps[i].alias) }

  function Exprs(ps: seq<Projector>): seq<Scalar> { seq(|ps|, i requires 0 <= i < |ps| => ps[i].expr) }

  function Outputs(aggs: seq<Aggregate>): Schema { seq(|aggs|, i requires 0 <= i < |aggs| => aggs[i].output) }

  function CondFn(env: Env, s: Schema, c: Scalar): Row -> bool { row => IsTrue(Eval(env, s, row, c)) }

  function KeyFn(env: Env, s: Schema, order: seq<Scalar>): Row -> Key { row => EvalAll(env, s, row, order) }

  function ProjectFn(env: Env, s: Schema, ps: seq<Projector>): Row -> Row { row => EvalAll(env, s, row, Exprs(ps)) }

  function Nulls(n: nat): Row { seq(n, i => Null) }

  /** A record read through `n` slots: missing ones are null. */
  function Pad(row: Row, n: nat): (r: Row)
    ensures |r| == n
  {
    seq(n, i requires 0 <= i < n => if i < |row| then row[i] else Null)
  }

  function PadFn(n: nat): Row -> Row { row => Pad(row, n) }

  /** The slots a log reader allocates: up to the last required one. */
  function NumSlots(s: Schema, required: set<FieldId>): (n: nat)
    ensures n <= |s|
    ensures forall i :: n <= i < |s| ==> s[i] !in required
    ensures n > 0 ==> s[n - 1] in required
  {
    if s == [] then 0
    else if s[|s| - 1] in required then |s|
    else NumSlots(s[..|s| - 1], required)
  }

  function LineValue(env: Env, line: LogLine, f: FieldId): Value {
    if f == env.lineField then line.text
    else if line.Parsed? && f in line.fields then line.fields[f]
    else Null
  }

  /** Lines are parsed when a field other than the whole line is wanted; only then are malformed lines dropped. */
  predicate Parses(env: Env, required: set<FieldId>) {
    required != {} && required != {env.lineField}
  }

  function KeepLine(env: Env, required: set<FieldId>): LogLine -> bool {
    (line: LogLine) => line.Parsed? || !Parses(env, required)
  }

  function LineRow(env: Env, s: Schema, required: set<FieldId>): LogLine -> Row {
    (line: LogLine) => var n := NumSlots(s, required);
      seq(n, i requires 0 <= i < n => if s[i] in required then LineValue(env, line, s[i]) else Null)
  }

  function LogRows(env: Env, name: string, s: Schema, required: set<FieldId>): seq<Row> {
    Map(LineRow(env, s, required), Filter(KeepLine(env, required), env.lines(name)))
  }

  function RightMatches(env: Env, rs: Schema, rightKey: Scalar, key: Value): Row -> bool {
    row => Eval(env, rs, row, rightKey) == key
  }

  function JoinRow(ls: Schema, rs: Schema, l: Row): Row -> Row {
    r => Pad(l, |ls|) + Pad(r, |rs|)
  }

  /** The right rows whose key equals a left key; null matches nothing. */
  function Matches(env: Env, rs: Schema, rightKey: Scalar, right: seq<Row>, key: Value): seq<Row> {
    if key == Null then [] else Filter(RightMatches(env, rs, rightKey, key), right)
  }

  /** The output rows of one left row with these matches. */
  function JoinRows(ls: Schema, rs: Schema, l: Row, matches: seq<Row>): seq<Row> {
    if matches == [] then [Pad(l, |ls|) + Nulls(|rs|)] else Map(JoinRow(ls, rs, l), matches)
  }

  /** The output rows of one left row: its matches in right order, or one row padded with nulls. */
  function JoinFn(env: Env, ls: Schema, rs: Schema, leftKey: Scalar, rightKey: Scalar, right: seq<Row>): Row -> seq<Row> {
    l => JoinRows(ls, rs, l, Matches(env, rs, rightKey, right, Eval(env, ls, l, leftKey)))
  }

  /** The match set of a semi- or mark-join: slot 0 of every match row. */
  function MatchSet(rows: seq<Row>): set<Value> {
    set i | 0 <= i < |rows| :: if |rows[i]| > 0 then rows[i][0] else Null
  }

  function MatchFn(env: Env, s: Schema, key: Scalar, matches: set<Value>): Row -> bool {
    row => Eval(env, s, row, key) in matches
  }

  function MarkFn(env: Env, s: Schema, key: Scalar, matches: set<Value>): Row -> Row {
    row => Pad(row, |s|) + [Bool(Eval(env, s, row, key) in matches)]
  }

  function CountOf(vs: seq<Value>): nat {
    if vs == [] then 0 else (if vs[0] != Null then 1 else 0) + CountOf(vs[1..])
  }

  function MinValue(vs: seq<Value>): Value {
    if vs == [] then Null
    else var rest := MinValue(vs[1..]);
      if vs[0] == Null then rest else if rest == Null || ValueLe(vs[0], rest) then vs[0] else rest
  }

  function MaxValue(vs: seq<Value>): Value {
    if vs == [] then Null
    else var rest := MaxValue(vs[1..]);
      if vs[0] == Null then rest else if rest == Null || ValueLe(rest, vs[0]) then vs[0] else rest
  }

  function ArgTuples(env: Env, s: Schema, rows: seq<Row>, args: seq<Scalar>): seq<seq<Value>> {
    seq(|rows|, i requires 0 <= i < |rows| => EvalAll(env, s, rows[i], args))
  }

  /** The first argument of every fed tuple. */
  function FirstArgs(tuples: seq<seq<Value>>): seq<Value> {
    seq(|tuples|, i requires 0 <= i < |tuples| => if tuples[i] == [] then Null else tuples[i][0])
  }

  function AggregateFnValue(env: Env, fn: AggregateFn, tuples: seq<seq<Value>>): Value {
    match fn
    case CountAll => Int(|tuples|)
    case CountNonNull => Int(CountOf(FirstArgs(tuples)))
    case MinOf => MinValue(FirstArgs(tuples))
    case MaxOf => MaxValue(FirstArgs(tuples))
    case NamedAggregate(name) => env.aggregate(name, tuples)
  }

  function AggregateValue(env: Env, s: Schema, rows: seq<Row>, a: AggregateNode): Value {
    match a
    case FnAggregate(fn, args) => AggregateFnValue(env, fn, ArgTuples(env, s, rows, args))
    case ConstAggregate(v, nullIfEmpty) => if nullIfEmpty && rows == [] then Null else v
  }

  function AggregateRow(env: Env, s: Schema, rows: seq<Row>, aggs: seq<Aggregate>): Row {
    seq(|aggs|, i requires 0 <= i < |aggs| => AggregateValue(env, s, rows, aggs[i].node))
  }

  /** Distinct keys in order of first appearance. */
  function DistinctKeys(keys: seq<Key>): seq<Key> {
    if keys == [] then []
    else var rest := DistinctKeys(keys[..|keys| - 1]);
      if keys[|keys| - 1] in rest then rest else rest + [keys[|keys| - 1]]
  }

  function HasKey(env: Env, s: Schema, keys: seq<Projector>, k: Key): Row -> bool {
    row => EvalAll(env, s, row, Exprs(keys)) == k
  }

  function GroupRow(env: Env, s: Schema, rows: seq<Row>, aggs: seq<Aggregate>, keys: seq<Projector>): Key -> Row {
    k => AggregateRow(env, s, Filter(HasKey(env, s, keys, k), rows), aggs) + k
  }

  function GroupRows(env: Env, s: Schema, rows: seq<Row>, aggs: seq<Aggregate>, keys: seq<Projector>): seq<Row> {
    Map(GroupRow(env, s, rows, aggs, keys), DistinctKeys(Map(KeyFn(env, s, Exprs(keys)), rows)))
  }

  /** How many inputs an operator has. */
  predicate ArityIs(op: Op, n: nat) {
    match op
    case EmptyOp => n == 0
    case LogOp(_) => n == 0
    case NamedOp(_) => n == 0
    case ValuesOp(_, _) => n == 0
    case UnionAllOp => true
    case MergeOp(_, _) => n == 2
    case LeftJoinOp(_, _) => n == 2
    case SemiJoinOp(_, _) => n == 2
    case MarkJoinOp(_, _, _) => n == 2
    case _ => n == 1
  }

  /** The rows of an operator, from the schemas and the rows of its inputs. */
  function OpRows(env: Env, op: Op, schema: Schema, ss: seq<Schema>, ins: seq<seq<Row>>): seq<Row>
    requires |ss| == |ins| && ArityIs(op, |ins|)
  {
    match op
    case EmptyOp => []
    case LogOp(name) => LogRows(env, name, schema, FieldSet(schema))
    case NamedOp(name) => Map(PadFn(|schema|), env.named(name))
    case ValuesOp(vs, _) => seq(|vs|, i requires 0 <= i < |vs| => [vs[i]])
    case ProjectionOp(ps) => Map(ProjectFn(env, ss[0], ps), ins[0])
    case FilterOp(c) => Filter(CondFn(env, ss[0], c), ins[0])
    case SortOp(order, desc) => S.Sort(KeyFn(env, ss[0], order), desc, ins[0])
    case TopKOp(order, desc, k) => Take(k, S.Sort(KeyFn(env, ss[0], order), desc, ins[0]))
    case LimitOp(n) => Take(n, ins[0])
    case UnionAllOp => Flatten(ins)
    case MergeOp(order, desc) => S.Merge(KeyFn(env, ss[0], order), desc, ins[0], ins[1])
    case LeftJoinOp(lk, rk) => Flatten(Map(JoinFn(env, ss[0], ss[1], lk, rk, ins[1]), ins[0]))
    case SemiJoinOp(key, _) => Filter(MatchFn(env, ss[0], key, MatchSet(ins[1])), ins[0])
    case MarkJoinOp(key, _, _) => Map(MarkFn(env, ss[0], key, MatchSet(ins[1])), ins[0])
    case AggregateOp(aggs) => [AggregateRow(env, ss[0], ins[0], aggs)]
    case GroupOp(aggs, keys) => GroupRows(env, ss[0], ins[0], aggs, keys)
    case MaterializeOp => ins[0]
  }

  // --- well-formed trees ---

  predicate ScalarOk(s: Schema, e: Scalar) {
    Fields(e) <= FieldSet(s) && ArityOk(e)
  }

  predicate ScalarsOk(s: Schema, es: seq<Scalar>) {
    forall i :: 0 <= i < |es| ==> ScalarOk(s, es[i])
  }

  function AggregateArgs(a: AggregateNode): seq<Scalar> {
    match a
    case FnAggregate(_, args) => args
    case ConstAggregate(_, _) => []
  }

  predicate AggregatesOk(s: Schema, aggs: seq<Aggregate>) {
    forall i :: 0 <= i < |aggs| ==> ScalarsOk(s, AggregateArgs(aggs[i].node))
  }

  /** The schema of a node is the one its operator produces, and every scalar reads fields it has. */
  predicate OpOk(op: Op, schema: Schema, ss: seq<Schema>) {
    && ArityIs(op, |ss|)
    && Distinct(schema)
    && match op
       case EmptyOp => true
       case LogOp(_) => true
       case NamedOp(_) => true
       case ValuesOp(_, output) => schema == [output]
       case ProjectionOp(ps) => schema == Aliases(ps) && ScalarsOk(ss[0], Exprs(ps))
       case FilterOp(c) => schema == ss[0] && ScalarOk(ss[0], c)
       case SortOp(order, _) => schema == ss[0] && ScalarsOk(ss[0], order)
       case TopKOp(order, _, _) => schema == ss[0] && ScalarsOk(ss[0], order)
       case LimitOp(_) => schema == ss[0]
       case UnionAllOp => forall i :: 0 <= i < |ss| ==> ss[i] == schema
       case MergeOp(order, _) => schema == ss[0] == ss[1] && ScalarsOk(ss[0], order)
       case LeftJoinOp(lk, rk) => schema == ss[0] + ss[1] && ScalarOk(ss[0], lk) && ScalarOk(ss[1], rk)
       case SemiJoinOp(key, m) => schema == ss[0] && ScalarOk(ss[0], key) && ss[1] == [m]
       case MarkJoinOp(key, m, output) => schema == ss[0] + [output] && ScalarOk(ss[0], key) && ss[1] == [m]
       case AggregateOp(aggs) => schema == Outputs(aggs) && AggregatesOk(ss[0], aggs)
       case GroupOp(aggs, keys) =>
         schema == Outputs(aggs) + Aliases(keys) && AggregatesOk(ss[0], aggs) && ScalarsOk(ss[0], Exprs(keys))
       case MaterializeOp => schema == ss[0]
  }

  function Schemas(rs: seq<Relation>): (ss: seq<Schema>)
    ensures |ss| == |rs|
  {
    seq(|rs|, i requires 0 <= i < |rs| => rs[i].schema)
  }

  predicate WellFormed(r: Relation) {
    && OpOk(r.op, r.schema, Schemas(r.inputs))
    && forall i :: 0 <= i < |r.inputs| ==> WellFormed(r.inputs[i])
  }

  /** A node stays well-formed when its inputs change but their schemas do not. */
  lemma InputsKept(r: Relation, qs: seq<Relation>)
    requires WellFormed(r) && |qs| == |r.inputs|
    requires forall i :: 0 <= i < |qs| ==> WellFormed(qs[i]) && qs[i].schema == r.inputs[i].schema
    ensures WellFormed(r.(inputs := qs))
  {
    assert Schemas(qs) == Schemas(r.inputs);
  }

  /** The rows a relation stands for. */
  function Denote(env: Env, r: Relation): seq<Row>
    requires WellFormed(r)
    decreases r, 0
  {
    OpRows(env, r.op, r.schema, Schemas(r.inputs),
           seq(|r.inputs|, i requires 0 <= i < |r.inputs| => Denote(env, r.inputs[i])))
  }

  function DenoteAll(env: Env, rs: seq<Relation>): (rows: seq<seq<Row>>)
    requires forall i :: 0 <= i < |rs| ==> WellFormed(rs[i])
    ensures |rows| == |rs|
  {
    seq(|rs|, i requires 0 <= i < |rs| => Denote(env, rs[i]))
  }

  /** What a sorted merge expects of its inputs. */
  ghost predicate MergeInputsSorted(env: Env, op: Op, ss: seq<Schema>, ins: seq<seq<Row>>)
    requires |ss| == |ins| && ArityIs(op, |ins|)
  {
    op.MergeOp? ==>
      && S.Sorted(KeyFn(env, ss[0], op.order), op.desc, ins[0])
      && S.Sorted(KeyFn(env, ss[0], op.order), op.desc, ins[1])
  }

  /** A well-formed tree all of whose sorted merges have inputs sorted by their order list. */
  ghost predicate Sound(env: Env, r: Relation) {
    && WellFormed(r)
    && MergeInputsSorted(env, r.op, Schemas(r.inputs), DenoteAll(env, r.inputs))
    && forall i :: 0 <= i < |r.inputs| ==> Sound(env, r.inputs[i])
  }

  lemma SoundNode(env: Env, r: Relation)
    requires WellFormed(r) && !r.op.MergeOp?
    requires forall i :: 0 <= i < |r.inputs| ==> Sound(env, r.inputs[i])
    ensures Sound(env, r)
  {
  }

  lemma Unfold(env: Env, r: Relation)
    requires WellFormed(r)
    ensures Denote(env, r) == OpRows(env, r.op, r.schema, Schemas(r.inputs), DenoteAll(env, r.inputs))
  {
    assert DenoteAll(env, r.inputs) == seq(|r.inputs|, i requires 0 <= i < |r.inputs| => Denote(env, r.inputs[i]));
  }

  /** `q` may replace `r` anywhere: same columns, same rows, and fit for use as a merge input. */
  ghost predicate Replaces(env: Env, q: Relation, r: Relation)
    requires WellFormed(r)
  {
    && Sound(env, q)
    && q.schema == r.schema
    && Denote(env, q) == Denote(env, r)
  }

  /** Replacing every input of a node by one with the same columns and rows keeps the node's meaning. */
  lemma Congruence(env: Env, r: Relation, qs: seq<Relation>)
    requires Sound(env, r) && |qs| == |r.inputs|
    requires forall i :: 0 <= i < |qs| ==> Replaces(env, qs[i], r.inputs[i])
    ensures Replaces(env, r.(inputs := qs), r)
  {
    var q := r.(inputs := qs);
    assert Schemas(qs) == Schemas(r.inputs);
    assert WellFormed(q);
    assert DenoteAll(env, qs) == DenoteAll(env, r.inputs);
    Unfold(env, q);
    Unfold(env, r);
  }

  ghost predicate RowsFit(rows: seq<Row>, width: nat) {
    forall i :: 0 <= i < |rows| ==> |rows[i]| == width
  }

  lemma {:induction false} FilterFits(p: Row -> bool, rows: seq<Row>, width: nat)
    requires RowsFit(rows, width)
    ensures RowsFit(Filter(p, rows), width)
  {
    if rows != [] {
      assert RowsFit(rows[1..], width);
      FilterFits(p, rows[1..], width);
    }
  }

  lemma {:induction false} FlattenFits(ss: seq<seq<Row>>, width: nat)
    requires forall i :: 0 <= i < |ss| ==> RowsFit(ss[i], width)
    ensures RowsFit(Flatten(ss), width)
  {
    if ss != [] {
      FlattenFits(ss[1..], width);
    }
  }

  lemma SortFits(key: Row -> Key, desc: bool, rows: seq<Row>, width: nat)
    requires RowsFit(rows, width)
    ensures RowsFit(S.Sort(key, desc, rows), width)
  {
    var t := S.Sort(key, desc, rows);
    S.SortMembers(key, desc, rows);
    forall i | 0 <= i < |t| ensures |t[i]| == width {
      assert t[i] in t;
    }
  }

  lemma MergeFits(key: Row -> Key, desc: bool, a: seq<Row>, b: seq<Row>, width: nat)
    requires RowsFit(a, width) && RowsFit(b, width)
    ensures RowsFit(S.Merge(key, desc, a, b), width)
  {
    var t := S.Merge(key, desc, a, b);
    S.MergeMembers(key, desc, a, b);
    forall i | 0 <= i < |t| ensures |t[i]| == width {
      assert t[i] in t;
    }
  }

  lemma JoinRowsFit(env: Env, ls: Schema, rs: Schema, lk: Scalar, rk: Scalar, l: Row, right: seq<Row>)
    ensures RowsFit(JoinFn(env, ls, rs, lk, rk, right)(l), |ls + rs|)
  {
    var matches := Matches(env, rs, rk, right, Eval(env, ls, l, lk));
    assert RowsFit(JoinRows(ls, rs, l, matches), |ls + rs|);
  }

  lemma JoinFits(env: Env, ls: Schema, rs: Schema, lk: Scalar, rk: Scalar, left: seq<Row>, right: seq<Row>)
    ensures RowsFit(Flatten(Map(JoinFn(env, ls, rs, lk, rk, right), left)), |ls + rs|)
  {
    var join := JoinFn(env, ls, rs, lk, rk, right);
    forall i | 0 <= i < |left| ensures RowsFit(Map(join, left)[i], |ls + rs|) {
      JoinRowsFit(env, ls, rs, lk, rk, left[i], right);
    }
    FlattenFits(Map(join, left), |ls + rs|);
  }

  lemma {:induction false} DistinctKeysMembers(keys: seq<Key>)
    ensures forall k :: k in DistinctKeys(keys) <==> k in keys
  {
    if keys != [] {
      DistinctKeysMembers(keys[..|keys| - 1]);
      assert keys == keys[..|keys| - 1] + [keys[|keys| - 1]];
    }
  }

  lemma GroupFits(env: Env, s: Schema, rows: seq<Row>, aggs: seq<Aggregate>, keys: seq<Projector>)
    ensures RowsFit(GroupRows(env, s, rows, aggs, keys), |aggs| + |keys|)
  {
    var ks := Map(KeyFn(env, s, Exprs(keys)), rows);
    DistinctKeysMembers(ks);
    forall i | 0 <= i < |DistinctKeys(ks)| ensures |DistinctKeys(ks)[i]| == |keys| {
      assert DistinctKeys(ks)[i] in ks;
    }
  }

  lemma AllSlots(s: Schema, required: set<FieldId>)
    requires FieldSet(s) <= required
    ensures NumSlots(s, required) == |s|
  {
    if s != [] {
      assert s[|s| - 1] in FieldSet(s);
    }
  }

  /** Every row an operator produces has one value per column of its schema. */
  lemma OpRowsFit(env: Env, op: Op, schema: Schema, ss: seq<Schema>, ins: seq<seq<Row>>)
    requires |ss| == |ins| && OpOk(op, schema, ss)
    requires forall i :: 0 <= i < |ins| ==> RowsFit(ins[i], |ss[i]|)
    ensures RowsFit(OpRows(env, op, schema, ss, ins), |schema|)
  {
    match op {
      case EmptyOp =>
      case LogOp(_) => AllSlots(schema, FieldSet(schema));
      case NamedOp(_) =>
      case ValuesOp(_, _) =>
      case ProjectionOp(_) =>
      case FilterOp(c) => FilterFits(CondFn(env, ss[0], c), ins[0], |ss[0]|);
      case SortOp(order, desc) => SortFits(KeyFn(env, ss[0], order), desc, ins[0], |ss[0]|);
      case TopKOp(order, desc, _) => SortFits(KeyFn(env, ss[0], order), desc, ins[0], |ss[0]|);
      case LimitOp(_) =>
      case UnionAllOp => FlattenFits(ins, |schema|);
      case MergeOp(order, desc) => MergeFits(KeyFn(env, ss[0], order), desc, ins[0], ins[1], |schema|);
      case LeftJoinOp(lk, rk) => JoinFits(env, ss[0], ss[1], lk, rk, ins[0], ins[1]);
      case SemiJoinOp(key, _) => FilterFits(MatchFn(env, ss[0], key, MatchSet(ins[1])), ins[0], |ss[0]|);
      case MarkJoinOp(_, _, _) =>
      case AggregateOp(_) =>
      case GroupOp(aggs, keys) => GroupFits(env, ss[0], ins[0], aggs, keys);
      case MaterializeOp =>
    }
  }

  lemma {:induction false} DenoteFits(env: Env, r: Relation)
    requires WellFormed(r)
    ensures RowsFit(Denote(env, r), |r.schema|)
  {
    forall i | 0 <= i < |r.inputs| ensures RowsFit(DenoteAll(env, r.inputs)[i], |Schemas(r.inputs)[i]|) {
      DenoteFits(env, r.inputs[i]);
    }
    Unfold(env, r);
    OpRowsFit(env, r.op, r.schema, Schemas(r.inputs), DenoteAll(env, r.inputs));
  }
}
