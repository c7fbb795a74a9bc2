/** Evaluating a scalar as the executors do it, where reading a null or a number as a boolean fails. */
module Outcomes {
  import opened Values
  import opened Scalars

  datatype Outcome = Done(v: Value) | Failed

  /** A condition can be decided: it has a boolean value. */
  predicate IsBool(o: Outcome) {
    o.Done? && o.v.Bool?
  }

  /** Execution of a function on values; `and` and `or` do not read their right value when the left one decides. */
  function Execute(env: Env, fn: Fn, vs: seq<Value>): Outcome {
    match fn
    case And => if |vs| == 2 then Decide(vs[0], vs[1], false) else Failed
    case Or => if |vs| == 2 then Decide(vs[0], vs[1], true) else Failed
    case Not => if |vs| == 1 && vs[0].Bool? then Done(Bool(!vs[0].b)) else Failed
    case CoalesceFn => Done(FirstNonNull(vs))
    case Cast(to) => if |vs| == 1 then Done(CastValue(env, vs[0], to)) else Failed
    case Named(name) => if env.fails(name, vs) then Failed else Done(env.call(name, vs))
  }

  function Decide(left: Value, right: Value, absorbing: bool): Outcome {
    if !left.Bool? then Failed
    else if left.b == absorbing then Done(left)
    else if right.Bool? then Done(right)
    else Failed
  }

  predicate AllDone(os: seq<Outcome>) {
    forall i :: 0 <= i < |os| ==> os[i].Done?
  }

  function DoneValues(os: seq<Outcome>): (vs: seq<Value>)
    requires AllDone(os)
    ensures |vs| == |os|
  {
    seq(|os|, i requires 0 <= i < |os| => os[i].v)
  }

  /** A call evaluates all of its arguments first. */
  function RunCall(env: Env, fn: Fn, os: seq<Outcome>): Outcome {
    if AllDone(os) then Execute(env, fn, DoneValues(os)) else Failed
  }

  /** A coalesce stops at the first argument that is not null, or at one that fails. */
  function FirstOutcome(os: seq<Outcome>): Outcome {
    if os == [] then Done(Null) else if os[0] != Done(Null) then os[0] else FirstOutcome(os[1..])
  }

  function Run(env: Env, s: Schema, row: Row, e: Scalar): Outcome {
    match e
    case Field(id, _) => Done(At(s, row, id))
    case Const(v, _) => Done(v)
    case Coalesce(args, _) => FirstOutcome(seq(|args|, i requires 0 <= i < |args| => Run(env, s, row, args[i])))
    case Call(fn, args, _) => RunCall(env, fn, seq(|args|, i requires 0 <= i < |args| => Run(env, s, row, args[i])))
    case Cached(inner, _) => Run(env, s, row, inner)
  }

  function RunAll(env: Env, s: Schema, row: Row, es: seq<Scalar>): (os: seq<Outcome>)
    ensures |os| == |es|
  {
    seq(|es|, i requires 0 <= i < |es| => Run(env, s, row, es[i]))
  }

  lemma UnfoldRun(env: Env, s: Schema, row: Row, e: Scalar)
    requires e.Coalesce? || e.Call?
    ensures e.Coalesce? ==> Run(env, s, row, e) == FirstOutcome(RunAll(env, s, row, e.args))
    ensures e.Call? ==> Run(env, s, row, e) == RunCall(env, e.fn, RunAll(env, s, row, e.args))
  {
    assert RunAll(env, s, row, e.args) == seq(|e.args|, i requires 0 <= i < |e.args| => Run(env, s, row, e.args[i]));
  }

  /** Both operands of `and` and `or` are evaluated; the right value is read only when the left one does not decide. */
  lemma BinaryOutcome(env: Env, s: Schema, row: Row, e: Scalar)
    requires e.Call? && (e.fn == And || e.fn == Or) && |e.args| == 2
    ensures var l, r := Run(env, s, row, e.args[0]), Run(env, s, row, e.args[1]);
            Run(env, s, row, e) == if l.Done? && r.Done? then Decide(l.v, r.v, e.fn == Or) else Failed
  {
    UnfoldRun(env, s, row, e);
    var os := RunAll(env, s, row, e.args);
    assert os[0] == Run(env, s, row, e.args[0]) && os[1] == Run(env, s, row, e.args[1]);
    if AllDone(os) {
      assert DoneValues(os) == [os[0].v, os[1].v];
    }
  }

  /** The value an outcome has, when it has one. */
  predicate Gives(o: Outcome, v: Value) {
    o.Done? ==> o.v == v
  }

  lemma {:induction false} FirstOutcomeGives(os: seq<Outcome>, vs: seq<Value>)
    requires |os| == |vs| && forall i :: 0 <= i < |os| ==> Gives(os[i], vs[i])
    ensures Gives(FirstOutcome(os), FirstNonNull(vs))
  {
    if os != [] {
      FirstOutcomeGives(os[1..], vs[1..]);
    }
  }

  lemma RunCallGives(env: Env, fn: Fn, os: seq<Outcome>, vs: seq<Value>)
    requires |os| == |vs| && forall i :: 0 <= i < |os| ==> Gives(os[i], vs[i])
    ensures Gives(RunCall(env, fn, os), Apply(env, fn, vs))
  {
    if AllDone(os) {
      assert DoneValues(os) == vs;
    }
  }

  /** A scalar that does not fail has the value of its denotation. */
  lemma {:induction false} RunGives(env: Env, s: Schema, row: Row, e: Scalar)
    ensures Gives(Run(env, s, row, e), Eval(env, s, row, e))
  {
    match e {
      case Field(_, _) =>
      case Const(_, _) =>
      case Cached(inner, _) => RunGives(env, s, row, inner);
      case Coalesce(args, _) =>
        RunAllGives(env, s, row, args);
        UnfoldRun(env, s, row, e);
        UnfoldArgs(env, s, row, e);
        FirstOutcomeGives(RunAll(env, s, row, args), EvalAll(env, s, row, args));
      case Call(fn, args, _) =>
        RunAllGives(env, s, row, args);
        UnfoldRun(env, s, row, e);
        UnfoldArgs(env, s, row, e);
        RunCallGives(env, fn, RunAll(env, s, row, args), EvalAll(env, s, row, args));
    }
  }

  lemma {:induction false} RunAllGives(env: Env, s: Schema, row: Row, es: seq<Scalar>)
    ensures forall i :: 0 <= i < |es| ==> Gives(RunAll(env, s, row, es)[i], EvalAll(env, s, row, es)[i])
  {
    forall i | 0 <= i < |es| ensures Gives(Run(env, s, row, es[i]), Eval(env, s, row, es[i])) {
      RunGives(env, s, row, es[i]);
    }
  }

  /** Like its value, the outcome of a scalar depends only on the fields it reads. */
  lemma {:induction false} RunAgree(env: Env, s: Schema, row: Row, s': Schema, row': Row, e: Scalar)
    requires forall f :: f in Fields(e) ==> At(s, row, f) == At(s', row', f)
    ensures Run(env, s, row, e) == Run(env, s', row', e)
  {
    match e {
      case Field(_, _) =>
      case Const(_, _) =>
      case Cached(inner, _) => RunAgree(env, s, row, s', row', inner);
      case Coalesce(args, _) =>
        RunAllAgree(env, s, row, s', row', args);
        UnfoldRun(env, s, row, e);
        UnfoldRun(env, s', row', e);
      case Call(_, args, _) =>
        RunAllAgree(env, s, row, s', row', args);
        UnfoldRun(env, s, row, e);
        UnfoldRun(env, s', row', e);
    }
  }

  lemma {:induction false} RunAllAgree(env: Env, s: Schema, row: Row, s': Schema, row': Row, es: seq<Scalar>)
    requires forall f :: f in AllFields(es) ==> At(s, row, f) == At(s', row', f)
    ensures RunAll(env, s, row, es) == RunAll(env, s', row', es)
  {
    forall i | 0 <= i < |es| ensures Run(env, s, row, es[i]) == Run(env, s', row', es[i]) {
      assert forall f :: f in Fields(es[i]) ==> f in AllFields(es);
      RunAgree(env, s, row, s', row', es[i]);
    }
  }
}
