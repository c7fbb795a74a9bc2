/** Scalar expressions of the relational IR and their value on one row. */
module Scalars {
  import opened Values

  type FieldId = nat

  /** The columns of a relation, by slot. */
  type Schema = seq<FieldId>

  /**
   * Functions a scalar may call. The optimizer looks inside the first five; every other executor is
   * one `Named` function, with its parameters (regex, separator, ...) folded into the name.
   */
  datatype Fn = And | Or | Not | CoalesceFn | Cast(to: ValueType) | Named(name: string)

  datatype Scalar =
    | Field(id: FieldId, ty: ValueType)
    | Const(v: Value, ty: ValueType)
    | Coalesce(args: seq<Scalar>, ty: ValueType)
    | Call(fn: Fn, args: seq<Scalar>, ty: ValueType)
    | Cached(inner: Scalar, ty: ValueType)

  /** One line of a log: its text, and its fields unless the line is malformed. */
  datatype LogLine = Parsed(text: Value, fields: map<FieldId, Value>) | Malformed(text: Value)

  /**
   * What a relation takes from outside itself: function bodies, which calls of them fail, the lines of each
   * log, the rows of each named relation.
   */
  datatype Env = Env(
    call: (string, seq<Value>) -> Value,
    fails: (string, seq<Value>) -> bool,
    convert: (Value, ValueType) -> Value,
    aggregate: (string, seq<seq<Value>>) -> Value,
    lines: string -> seq<LogLine>,
    named: string -> seq<Row>,
    lineField: FieldId
  )

  predicate Distinct(s: Schema) {
    forall i, j :: 0 <= i < j < |s| ==> s[i] != s[j]
  }

  function FieldSet(s: Schema): set<FieldId> { set f | f in s }

  function Slot(s: Schema, id: FieldId): (slot: nat)
    requires id in s
    ensures slot < |s| && s[slot] == id
  {
    if s[0] == id then 0 else 1 + Slot(s[1..], id)
  }

  /** The value of a field in a row; a slot behind the end of a short record reads as null. */
  function At(s: Schema, row: Row, id: FieldId): Value {
    if id in s && Slot(s, id) < |row| then row[Slot(s, id)] else Null
  }

  predicate IsTrue(v: Value) { v == Bool(true) }

  function FirstNonNull(vs: seq<Value>): Value {
    if vs == [] then Null else if vs[0] != Null then vs[0] else FirstNonNull(vs[1..])
  }

  /** Conversions; those that go through text or floating point are left to the environment. */
  function CastValue(env: Env, v: Value, to: ValueType): Value {
    if v == Null || to == NullType then Null
    else if v.Type() == to then v
    else match (v, to)
         case (Str(s), BooleanType) => Bool(s != "")
         case (Int(i), BooleanType) => Bool(i != 0)
         case (Bool(b), IntegerType) => Int(if b then 1 else 0)
         case (Bool(b), StringType) => Str(if b then "true" else "false")
         case _ => env.convert(v, to)
  }

  function Apply(env: Env, fn: Fn, vs: seq<Value>): Value {
    match fn
    case And => if |vs| == 2 then Bool(IsTrue(vs[0]) && IsTrue(vs[1])) else Null
    case Or => if |vs| == 2 then Bool(IsTrue(vs[0]) || IsTrue(vs[1])) else Null
    case Not => if |vs| == 1 then Bool(!IsTrue(vs[0])) else Null
    case CoalesceFn => FirstNonNull(vs)
    case Cast(to) => if |vs| == 1 then CastValue(env, vs[0], to) else Null
    case Named(name) => env.call(name, vs)
  }

  function Eval(env: Env, s: Schema, row: Row, e: Scalar): Value {
    match e
    case Field(id, _) => At(s, row, id)
    case Const(v, _) => v
    case Coalesce(args, _) => FirstNonNull(seq(|args|, i requires 0 <= i < |args| => Eval(env, s, row, args[i])))
    case Call(fn, args, _) => Apply(env, fn, seq(|args|, i requires 0 <= i < |args| => Eval(env, s, row, args[i])))
    case Cached(inner, _) => Eval(env, s, row, inner)
  }

  function EvalAll(env: Env, s: Schema, row: Row, es: seq<Scalar>): seq<Value> {
    seq(|es|, i requires 0 <= i < |es| => Eval(env, s, row, es[i]))
  }

  function Fields(e: Scalar): set<FieldId> {
    match e
    case Field(id, _) => {id}
    case Const(_, _) => {}
    case Coalesce(args, _) => set i, f | 0 <= i < |args| && f in Fields(args[i]) :: f
    case Call(_, args, _) => set i, f | 0 <= i < |args| && f in Fields(args[i]) :: f
    case Cached(inner, _) => Fields(inner)
  }

  function AllFields(es: seq<Scalar>): set<FieldId> {
    set i, f | 0 <= i < |es| && f in Fields(es[i]) :: f
  }

  /** Built-in functions are called with as many arguments as their executors take. */
  predicate ArityOk(e: Scalar) {
    match e
    case Field(_, _) => true
    case Const(_, _) => true
    case Coalesce(args, _) => forall i :: 0 <= i < |args| ==> ArityOk(args[i])
    case Call(fn, args, _) =>
      && (fn == And || fn == Or ==> |args| == 2)
      && (fn == Not || fn.Cast? ==> |args| == 1)
      && (forall i :: 0 <= i < |args| ==> ArityOk(args[i]))
    case Cached(inner, _) => ArityOk(inner)
  }

  lemma {:induction false} SlotUnique(s: Schema, i: nat)
    requires Distinct(s) && i < |s|
    ensures Slot(s, s[i]) == i
  {
    assert s[Slot(s, s[i])] == s[i];
  }

  lemma {:induction false} SlotAppend(a: Schema, b: Schema, id: FieldId)
    requires id in a
    ensures id in a + b && Slot(a + b, id) == Slot(a, id)
  {
    if a[0] != id {
      SlotAppend(a[1..], b, id);
      assert (a + b)[1..] == a[1..] + b;
    }
  }

  /** The value of a scalar depends only on the fields it reads, not on where they sit. */
  lemma {:induction false} EvalAgree(env: Env, s: Schema, row: Row, s': Schema, row': Row, e: Scalar)
    requires forall f :: f in Fields(e) ==> At(s, row, f) == At(s', row', f)
    ensures Eval(env, s, row, e) == Eval(env, s', row', e)
  {
    match e
    case Field(_, _) =>
    case Const(_, _) =>
    case Coalesce(args, _) => EvalAllAgree(env, s, row, s', row', args);
      assert EvalAll(env, s, row, args) == seq(|args|, i requires 0 <= i < |args| => Eval(env, s, row, args[i]));
      assert EvalAll(env, s', row', args) == seq(|args|, i requires 0 <= i < |args| => Eval(env, s', row', args[i]));
    case Call(_, args, _) => EvalAllAgree(env, s, row, s', row', args);
      assert EvalAll(env, s, row, args) == seq(|args|, i requires 0 <= i < |args| => Eval(env, s, row, args[i]));
      assert EvalAll(env, s', row', args) == seq(|args|, i requires 0 <= i < |args| => Eval(env, s', row', args[i]));
    case Cached(inner, _) => EvalAgree(env, s, row, s', row', inner);
  }

  lemma {:induction false} EvalAllAgree(env: Env, s: Schema, row: Row, s': Schema, row': Row, es: seq<Scalar>)
    requires forall f :: f in AllFields(es) ==> At(s, row, f) == At(s', row', f)
    ensures EvalAll(env, s, row, es) == EvalAll(env, s', row', es)
  {
    forall i | 0 <= i < |es| ensures Eval(env, s, row, es[i]) == Eval(env, s', row', es[i]) {
      assert forall f :: f in Fields(es[i]) ==> f in AllFields(es);
      EvalAgree(env, s, row, s', row', es[i]);
    }
  }

  lemma EvalAt(env: Env, s: Schema, row: Row, es: seq<Scalar>, i: nat)
    requires i < |es|
    ensures EvalAll(env, s, row, es)[i] == Eval(env, s, row, es[i])
  {
  }

  lemma UnfoldArgs(env: Env, s: Schema, row: Row, e: Scalar)
    requires e.Coalesce? || e.Call?
    ensures e.Coalesce? ==> Eval(env, s, row, e) == FirstNonNull(EvalAll(env, s, row, e.args))
    ensures e.Call? ==> Eval(env, s, row, e) == Apply(env, e.fn, EvalAll(env, s, row, e.args))
  {
    assert EvalAll(env, s, row, e.args) ==
           seq(|e.args|, i requires 0 <= i < |e.args| => Eval(env, s, row, e.args[i]));
  }
}
