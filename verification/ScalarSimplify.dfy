/** Simplifying one scalar: constants folded, boolean constants, identity casts and coalesce arguments removed. */
module ScalarSimplify {
  import opened Values
  import opened Scalars
  import opened Outcomes

  // --- what the rules may rely on ---

  predicate HasType(v: Value, ty: ValueType) {
    v == Null || v.Type() == ty
  }

  /**
   * On this row every part of a scalar has a value of its declared type or null, the operands of boolean
   * operators are booleans, and no call fails. Binding checks the types; a null operand makes evaluation fail.
   */
  ghost predicate Proper(env: Env, s: Schema, row: Row, e: Scalar)
    decreases e
  {
    && HasType(Eval(env, s, row, e), e.ty)
    && match e
       case Field(_, _) => true
       case Const(_, _) => true
       case Cached(inner, _) => Proper(env, s, row, inner)
       case Coalesce(args, _) => forall i | 0 <= i < |args| :: Proper(env, s, row, args[i])
       case Call(fn, args, _) =>
         && (forall i | 0 <= i < |args| :: Proper(env, s, row, args[i]))
         && Accepts(env, fn, EvalAll(env, s, row, args))
  }

  /** The function does not fail on these values. */
  predicate Accepts(env: Env, fn: Fn, vs: seq<Value>) {
    && (fn == And || fn == Or || fn == Not ==> forall i | 0 <= i < |vs| :: vs[i].Bool?)
    && (fn.Named? ==> !env.fails(fn.name, vs))
  }

  lemma AcceptedDone(env: Env, fn: Fn, vs: seq<Value>)
    requires Accepts(env, fn, vs) && (fn == And || fn == Or ==> |vs| == 2) && (fn == Not || fn.Cast? ==> |vs| == 1)
    ensures Execute(env, fn, vs) == Done(Apply(env, fn, vs))
  {
  }

  lemma {:induction false} FirstDone(vs: seq<Value>)
    ensures FirstOutcome(seq(|vs|, i requires 0 <= i < |vs| => Done(vs[i]))) == Done(FirstNonNull(vs))
  {
    if vs != [] {
      FirstDone(vs[1..]);
      assert seq(|vs|, i requires 0 <= i < |vs| => Done(vs[i]))[1..] ==
             seq(|vs[1..]|, i requires 0 <= i < |vs[1..]| => Done(vs[1..][i]));
    }
  }

  /** On a row on which it is proper a scalar does not fail. */
  lemma {:induction false} ProperRuns(env: Env, s: Schema, row: Row, e: Scalar)
    requires ArityOk(e) && Proper(env, s, row, e)
    ensures Run(env, s, row, e) == Done(Eval(env, s, row, e))
  {
    if e.Cached? {
      ProperRuns(env, s, row, e.inner);
    } else if e.Coalesce? || e.Call? {
      var vs := EvalAll(env, s, row, e.args);
      forall i | 0 <= i < |e.args| ensures Run(env, s, row, e.args[i]) == Done(vs[i]) {
        ProperRuns(env, s, row, e.args[i]);
      }
      UnfoldRun(env, s, row, e);
      UnfoldArgs(env, s, row, e);
      assert RunAll(env, s, row, e.args) == seq(|vs|, i requires 0 <= i < |vs| => Done(vs[i]));
      if e.Coalesce? {
        FirstDone(vs);
      } else {
        assert DoneValues(RunAll(env, s, row, e.args)) == vs;
        AcceptedDone(env, e.fn, vs);
      }
    }
  }

  /** A rewrite of a scalar that is right on one row, and leaves a scalar that may be rewritten again. */
  ghost predicate Right(env: Env, s: Schema, row: Row, q: Scalar, e: Scalar) {
    Eval(env, s, row, q) == Eval(env, s, row, e) && Proper(env, s, row, q)
  }

  /** A rewrite reads no new field and keeps the arity of every call. */
  predicate Fits(q: Scalar, e: Scalar) {
    Fields(q) <= Fields(e) && (ArityOk(e) ==> ArityOk(q))
  }

  // --- folding calls of constants ---

  predicate AllConst(args: seq<Scalar>) {
    forall i | 0 <= i < |args| :: args[i].Const?
  }

  function ConstValues(args: seq<Scalar>): seq<Value>
    requires AllConst(args)
  {
    seq(|args|, i requires 0 <= i < |args| => args[i].v)
  }

  function FoldCall(env: Env, e: Scalar): Scalar {
    if e.Call? && AllConst(e.args) then Const(Apply(env, e.fn, ConstValues(e.args)), e.ty) else e
  }

  // --- simplifying calls ---

  predicate IsBoolConst(e: Scalar) {
    e.Const? && e.v.Bool?
  }

  /** The neutral constant gives way to the other operand, the absorbing one stays. */
  function SimplifyBinary(self: Scalar, conjunction: bool): Scalar
    requires self.Call? && |self.args| == 2
  {
    var left, right := self.args[0], self.args[1];
    if IsBoolConst(left) then (if left.v.b == conjunction then right else left)
    else if IsBoolConst(right) then (if right.v.b == conjunction then left else right)
    else self
  }

  function SimplifyNot(self: Scalar): Scalar
    requires self.Call? && |self.args| == 1 && ArityOk(self)
  {
    var inner := self.args[0];
    assert ArityOk(inner);
    if inner.Call? && inner.fn == Not then inner.args[0] else self
  }

  function SimplifyCall(self: Scalar): Scalar
    requires self.Call? && ArityOk(self)
  {
    match self.fn
    case Cast(to) => if self.args[0].ty == to then self.args[0] else self
    case And => SimplifyBinary(self, true)
    case Or => SimplifyBinary(self, false)
    case Not => SimplifyNot(self)
    case CoalesceFn => Coalesce(self.args, self.ty)
    case Named(_) => self
  }

  // --- simplifying coalesce ---

  datatype Folded = Kept(args: seq<Scalar>) | Collapsed(v: Value)

  /** Drops nulls and repetitions, and everything after the first other constant. */
  function FoldArgs(args: seq<Scalar>, kept: seq<Scalar>): Folded
    decreases |args|
  {
    if args == [] then Kept(kept)
    else if args[0].Const? then
      if args[0].v == Null then FoldArgs(args[1..], kept)
      else if kept == [] then Collapsed(args[0].v)
      else Kept(kept + [args[0]])
    else if args[0] in kept then FoldArgs(args[1..], kept)
    else FoldArgs(args[1..], kept + [args[0]])
  }

  function SimplifyCoalesce(args: seq<Scalar>, ty: ValueType): Scalar {
    match FoldArgs(args, [])
    case Collapsed(v) => Const(v, ty)
    case Kept(kept) => if kept == [] then Const(Null, ty) else if |kept| == 1 then kept[0] else Coalesce(kept, ty)
  }

  /** The loop over coalesce arguments; it reports a change whenever the result differs. */
  method OptimizeCoalesce(self: Scalar) returns (r: Scalar, changed: bool)
    requires self.Coalesce?
    ensures r == SimplifyCoalesce(self.args, self.ty)
    ensures changed <==> r != self
  {
    var kept: seq<Scalar> := [];
    ghost var total := FoldArgs(self.args, []);
    for i := 0 to |self.args|
      invariant total == FoldArgs(self.args[i..], kept)
      invariant |kept| <= i && (|kept| == i ==> kept == self.args[..i])
    {
      var a := self.args[i];
      assert self.args[i..][0] == a && self.args[i..][1..] == self.args[i + 1..];
      if a.Const? {
        if a.v == Null {
          continue;
        }
        if kept == [] {
          return Const(a.v, self.ty), true;
        }
        kept := kept + [a];
        return Coalesce(kept, self.ty), |kept| != |self.args|;
      }
      if a in kept {
        continue;
      }
      kept := kept + [a];
    }
    if kept == [] {
      return Const(Null, self.ty), true;
    }
    if |kept| == 1 {
      SmallerThan(self, kept[0], total);
      return kept[0], true;
    }
    return Coalesce(kept, self.ty), |kept| != |self.args|;
  }

  lemma SmallerThan(self: Scalar, x: Scalar, total: Folded)
    requires self.Coalesce? && total == FoldArgs(self.args, []) == Kept([x])
    ensures x != self
  {
    KeptFrom(self.args, []);
    assert x in self.args;
    var i :| 0 <= i < |self.args| && self.args[i] == x;
    assert self.args[i] < self;
  }

  lemma {:induction false} KeptFrom(args: seq<Scalar>, kept: seq<Scalar>)
    ensures var r := FoldArgs(args, kept); r.Kept? ==> forall x :: x in r.args ==> x in kept || x in args
    decreases |args|
  {
    if args != [] {
      assert args == [args[0]] + args[1..];
      KeptFrom(args[1..], kept);
      KeptFrom(args[1..], kept + [args[0]]);
    }
  }

  // --- meaning ---

  lemma FoldCallRight(env: Env, s: Schema, row: Row, e: Scalar)
    requires Proper(env, s, row, e)
    ensures Right(env, s, row, FoldCall(env, e), e) && Fits(FoldCall(env, e), e)
  {
    if e.Call? && AllConst(e.args) {
      UnfoldArgs(env, s, row, e);
      assert EvalAll(env, s, row, e.args) == ConstValues(e.args);
    }
  }

  /** Each rule on calls keeps the value. */
  lemma SimplifyCallRight(env: Env, s: Schema, row: Row, e: Scalar)
    requires e.Call? && ArityOk(e) && Proper(env, s, row, e)
    ensures Right(env, s, row, SimplifyCall(e), e)
  {
    UnfoldArgs(env, s, row, e);
    var vs := EvalAll(env, s, row, e.args);
    match e.fn {
      case Cast(_) =>
      case And => assert vs[0].Bool? && vs[1].Bool?;
      case Or => assert vs[0].Bool? && vs[1].Bool?;
      case Not =>
        if e.args[0].Call? && e.args[0].fn == Not {
          UnfoldArgs(env, s, row, e.args[0]);
          assert EvalAll(env, s, row, e.args[0].args)[0].Bool?;
        }
      case CoalesceFn =>
        var q := Coalesce(e.args, e.ty);
        UnfoldArgs(env, s, row, q);
        assert forall i | 0 <= i < |e.args| :: Proper(env, s, row, e.args[i]);
      case Named(_) =>
    }
  }

  /** Conversions give a value of the requested type, or null. */
  ghost predicate ConvertsTo(env: Env) {
    forall v: Value, to: ValueType :: HasType(env.convert(v, to), to)
  }

  /** What the rule that applies takes for granted about the outcomes of the operands. */
  predicate OperandsFit(env: Env, s: Schema, row: Row, e: Scalar)
    requires e.Call? && ArityOk(e)
  {
    match e.fn
    case Cast(to) => e.args[0].ty == to ==> HasTypeIfDone(Run(env, s, row, e.args[0]), to)
    case And => DroppedFits(Run(env, s, row, e.args[0]), Run(env, s, row, e.args[1]), e.args[0], e.args[1], true)
    case Or => DroppedFits(Run(env, s, row, e.args[0]), Run(env, s, row, e.args[1]), e.args[0], e.args[1], false)
    case Not =>
      assert ArityOk(e.args[0]);
      e.args[0].Call? && e.args[0].fn == Not ==> BoolIfDone(Run(env, s, row, e.args[0].args[0]))
    case CoalesceFn => NullsBeforeFailure(RunAll(env, s, row, e.args))
    case Named(_) => true
  }

  predicate HasTypeIfDone(o: Outcome, ty: ValueType) {
    o.Done? ==> HasType(o.v, ty)
  }

  predicate BoolIfDone(o: Outcome) {
    o.Done? ==> o.v.Bool?
  }

  /**
   * A neutral constant gives way to an operand that must be a boolean unless it fails. An absorbing constant on
   * the left hides the other operand, which must not fail; on the right it hides one that is read first, and
   * must be a boolean.
   */
  predicate DroppedFits(l: Outcome, r: Outcome, left: Scalar, right: Scalar, neutral: bool) {
    if IsBoolConst(left) then (if left.v.b == neutral then BoolIfDone(r) else r.Done?)
    else IsBoolConst(right) ==> if right.v.b == neutral then BoolIfDone(l) else IsBool(l)
  }

  /** If an argument fails at all, the first one that does comes after nulls only. */
  predicate NullsBeforeFailure(os: seq<Outcome>) {
    AllDone(os) || exists n :: 0 <= n < |os| && os[n] == Failed && AllNull(os[..n])
  }

  predicate AllNull(os: seq<Outcome>) {
    forall i :: 0 <= i < |os| ==> os[i] == Done(Null)
  }

  lemma {:induction false} FirstFails(os: seq<Outcome>)
    ensures FirstOutcome(os) == Failed <==> exists n :: 0 <= n < |os| && os[n] == Failed && AllNull(os[..n])
  {
    if os != [] {
      FirstFails(os[1..]);
      assert AllNull(os[..0]);
      if os[0] == Done(Null) {
        if n :| 0 <= n < |os[1..]| && os[1..][n] == Failed && AllNull(os[1..][..n]) {
          assert os[..n + 1] == [os[0]] + os[1..][..n];
        }
        if n :| 0 <= n < |os| && os[n] == Failed && AllNull(os[..n]) {
          assert os[1..][..n - 1] == os[..n][1..];
        }
      } else if n :| 0 <= n < |os| && os[n] == Failed && AllNull(os[..n]) {
        assert n > 0 ==> os[..n][0] == os[0];
      }
    }
  }

  /**
   * A rule on calls keeps the outcome, value or failure, on exactly these rows: a boolean operand that is kept
   * is a boolean or fails, one that is dropped would not have failed, and a cast value has its declared type.
   */
  lemma SimplifyCallExactly(env: Env, s: Schema, row: Row, e: Scalar)
    requires e.Call? && ArityOk(e) && ConvertsTo(env)
    ensures Run(env, s, row, SimplifyCall(e)) == Run(env, s, row, e) <==> OperandsFit(env, s, row, e)
  {
    UnfoldRun(env, s, row, e);
    var os := RunAll(env, s, row, e.args);
    match e.fn {
      case Cast(to) =>
        assert os[0] == Run(env, s, row, e.args[0]);
        if os[0].Done? {
          assert DoneValues(os) == [os[0].v];
          assert HasType(CastValue(env, os[0].v, to), to);
        }
      case And => BinaryOutcome(env, s, row, e);
      case Or => BinaryOutcome(env, s, row, e);
      case Not => NotOutcome(env, s, row, e);
      case CoalesceFn =>
        UnfoldRun(env, s, row, Coalesce(e.args, e.ty));
        FirstFails(os);
        if AllDone(os) {
          var vs := DoneValues(os);
          FirstDone(vs);
          assert os == seq(|vs|, i requires 0 <= i < |vs| => Done(vs[i]));
        }
      case Named(_) =>
    }
  }

  lemma NotOutcome(env: Env, s: Schema, row: Row, e: Scalar)
    requires e.Call? && ArityOk(e) && e.fn == Not
    ensures NegationOutcome(env, s, row, e)
    ensures e.args[0].Call? && e.args[0].fn == Not ==> ArityOk(e.args[0]) && NegationOutcome(env, s, row, e.args[0])
  {
    Negated(env, s, row, e);
    assert ArityOk(e.args[0]);
    if e.args[0].Call? && e.args[0].fn == Not {
      Negated(env, s, row, e.args[0]);
    }
  }

  predicate NegationOutcome(env: Env, s: Schema, row: Row, e: Scalar)
    requires e.Call? && ArityOk(e) && e.fn == Not
  {
    var o := Run(env, s, row, e.args[0]);
    Run(env, s, row, e) == if IsBool(o) then Done(Bool(!o.v.b)) else Failed
  }

  lemma Negated(env: Env, s: Schema, row: Row, e: Scalar)
    requires e.Call? && ArityOk(e) && e.fn == Not
    ensures NegationOutcome(env, s, row, e)
  {
    UnfoldRun(env, s, row, e);
    var os := RunAll(env, s, row, e.args);
    assert os[0] == Run(env, s, row, e.args[0]);
    if AllDone(os) {
      assert DoneValues(os) == [os[0].v];
    }
  }

  /**
   * Dropping an operand that is read first can hide a failure: a null and the constant false fail together,
   * and the simplified scalar is false.
   */
  lemma DroppedNullHidesFailure(env: Env, f: FieldId)
    ensures var e := Call(And, [Field(f, BooleanType), Const(Bool(false), BooleanType)], BooleanType);
            && Run(env, [f], [Null], e) == Failed
            && ArityOk(e) && Run(env, [f], [Null], SimplifyCall(e)) == Done(Bool(false))
  {
    var e := Call(And, [Field(f, BooleanType), Const(Bool(false), BooleanType)], BooleanType);
    BinaryOutcome(env, [f], [Null], e);
  }

  /** The first result that is not `none`. */
  function FirstOf<T(==)>(f: Scalar -> T, none: T, es: seq<Scalar>): T {
    if es == [] then none else if f(es[0]) != none then f(es[0]) else FirstOf(f, none, es[1..])
  }

  lemma {:induction false} FirstAppend<T>(f: Scalar -> T, none: T, a: seq<Scalar>, b: seq<Scalar>)
    ensures FirstOf(f, none, a + b) == if FirstOf(f, none, a) != none then FirstOf(f, none, a) else FirstOf(f, none, b)
  {
    if a == [] {
      assert a + b == b;
    } else {
      FirstAppend(f, none, a[1..], b);
      assert (a + b)[1..] == a[1..] + b;
    }
  }

  lemma {:induction false} FirstRepeated<T>(f: Scalar -> T, none: T, es: seq<Scalar>, x: Scalar)
    requires x in es && FirstOf(f, none, es) == none
    ensures f(x) == none
  {
    if es[0] != x {
      assert es == [es[0]] + es[1..];
      FirstRepeated(f, none, es[1..], x);
    }
  }

  /** Only the constant null is skipped, and constants of one value are alike. */
  ghost predicate SkipsNull<T(!new)>(f: Scalar -> T, none: T) {
    && (forall c: Scalar :: c.Const? ==> (f(c) == none <==> c.v == Null))
    && (forall v, t, u :: f(Const(v, t)) == f(Const(v, u)))
  }

  /** Folding coalesce arguments keeps the first result that is not skipped, whichever results are looked at. */
  lemma {:induction false} FoldArgsRight<T(!new)>(f: Scalar -> T, none: T, args: seq<Scalar>, kept: seq<Scalar>, ty: ValueType)
    requires SkipsNull(f, none)
    ensures match FoldArgs(args, kept)
            case Collapsed(v) => f(Const(v, ty)) == FirstOf(f, none, kept + args)
            case Kept(r) => FirstOf(f, none, r) == FirstOf(f, none, kept + args)
    decreases |args|
  {
    if args == [] {
      assert kept + args == kept;
    } else {
      var a, rest := args[0], args[1..];
      assert args == [a] + rest && [a][1..] == [];
      FirstAppend(f, none, kept, args);
      FirstAppend(f, none, kept, rest);
      FirstAppend(f, none, kept, [a]);
      FirstAppend(f, none, kept + [a], rest);
      if a.Const? {
        assert a == Const(a.v, a.ty);
        if a.v == Null {
          assert f(a) == none;
          FoldArgsRight(f, none, rest, kept, ty);
        } else {
          assert FirstOf(f, none, args) == f(a);
          assert f(Const(a.v, ty)) == f(Const(a.v, a.ty));
        }
      } else if a in kept {
        FoldArgsRight(f, none, rest, kept, ty);
        if FirstOf(f, none, kept) == none {
          FirstRepeated(f, none, kept, a);
        }
      } else {
        FoldArgsRight(f, none, rest, kept + [a], ty);
      }
    }
  }

  lemma {:induction false} FirstValue(env: Env, s: Schema, row: Row, es: seq<Scalar>)
    ensures FirstOf(e => Eval(env, s, row, e), Null, es) == FirstNonNull(EvalAll(env, s, row, es))
  {
    if es != [] {
      FirstValue(env, s, row, es[1..]);
      assert EvalAll(env, s, row, es)[1..] == EvalAll(env, s, row, es[1..]);
    }
  }

  lemma {:induction false} FirstRun(env: Env, s: Schema, row: Row, es: seq<Scalar>)
    ensures FirstOf(e => Run(env, s, row, e), Done(Null), es) == FirstOutcome(RunAll(env, s, row, es))
  {
    if es != [] {
      FirstRun(env, s, row, es[1..]);
      assert RunAll(env, s, row, es)[1..] == RunAll(env, s, row, es[1..]);
    }
  }

  /** The rule as a choice of the first result. */
  lemma SimplifyCoalesceFirst<T(!new)>(f: Scalar -> T, none: T, e: Scalar)
    requires e.Coalesce? && SkipsNull(f, none)
    ensures var r, value := SimplifyCoalesce(e.args, e.ty), FirstOf(f, none, e.args);
            if r.Coalesce? && r.ty == e.ty && FoldArgs(e.args, []) == Kept(r.args) then FirstOf(f, none, r.args) == value
            else f(r) == value
  {
    hide FoldArgs, FirstOf, SkipsNull;
    FoldArgsRight(f, none, e.args, [], e.ty);
    assert [] + e.args == e.args;
    var folded := FoldArgs(e.args, []);
    if folded.Kept? {
      if folded.args == [] {
        FirstNone(f, none, e.ty);
      } else if |folded.args| == 1 {
        FirstOne(f, none, folded.args);
      }
    }
  }

  lemma FirstNone<T(!new)>(f: Scalar -> T, none: T, ty: ValueType)
    requires SkipsNull(f, none)
    ensures FirstOf(f, none, []) == none == f(Const(Null, ty))
  {
    var c := Const(Null, ty);
    assert c.Const? && f(c) == none;
  }

  lemma FirstOne<T>(f: Scalar -> T, none: T, es: seq<Scalar>)
    requires |es| == 1
    ensures FirstOf(f, none, es) == f(es[0])
  {
    assert es[1..] == [];
  }

  lemma ProperMembers(env: Env, s: Schema, row: Row, e: Scalar, xs: seq<Scalar>)
    requires e.Coalesce? && Proper(env, s, row, e) && forall x :: x in xs ==> x in e.args
    ensures forall i | 0 <= i < |xs| :: Proper(env, s, row, xs[i])
  {
    forall i | 0 <= i < |xs| ensures Proper(env, s, row, xs[i]) {
      assert xs[i] in e.args;
      var k :| 0 <= k < |e.args| && e.args[k] == xs[i];
    }
  }

  lemma SimplifyCoalesceRight(env: Env, s: Schema, row: Row, e: Scalar)
    requires e.Coalesce? && Proper(env, s, row, e)
    ensures Right(env, s, row, SimplifyCoalesce(e.args, e.ty), e)
  {
    SimplifyCoalesceFirst(x => Eval(env, s, row, x), Null, e);
    UnfoldArgs(env, s, row, e);
    FirstValue(env, s, row, e.args);
    KeptFrom(e.args, []);
    var folded := FoldArgs(e.args, []);
    if folded.Kept? {
      ProperMembers(env, s, row, e, folded.args);
      FirstValue(env, s, row, folded.args);
      UnfoldArgs(env, s, row, Coalesce(folded.args, e.ty));
    }
  }

  /**
   * The rule on coalesce keeps the outcome, value or failure, on every row: an argument that is dropped would not
   * have been reached, or was null, or was evaluated before.
   */
  lemma SimplifyCoalesceOutcome(env: Env, s: Schema, row: Row, e: Scalar)
    requires e.Coalesce?
    ensures Run(env, s, row, SimplifyCoalesce(e.args, e.ty)) == Run(env, s, row, e)
  {
    SimplifyCoalesceFirst(x => Run(env, s, row, x), Done(Null), e);
    UnfoldRun(env, s, row, e);
    FirstRun(env, s, row, e.args);
    var folded := FoldArgs(e.args, []);
    if folded.Kept? {
      FirstRun(env, s, row, folded.args);
      UnfoldRun(env, s, row, Coalesce(folded.args, e.ty));
    }
  }

  // --- fields and arities ---

  lemma SimplifyCallFits(e: Scalar)
    requires e.Call? && ArityOk(e)
    ensures Fits(SimplifyCall(e), e)
  {
    forall i | 0 <= i < |e.args| ensures Fields(e.args[i]) <= Fields(e) && ArityOk(e.args[i]) {
    }
    if e.fn == Not && e.args[0].Call? && e.args[0].fn == Not {
      assert ArityOk(e.args[0]);
      assert Fields(e.args[0].args[0]) <= Fields(e.args[0]);
    }
  }

  lemma SimplifyCoalesceFits(e: Scalar)
    requires e.Coalesce? && ArityOk(e)
    ensures Fits(SimplifyCoalesce(e.args, e.ty), e)
  {
    KeptFrom(e.args, []);
    var folded := FoldArgs(e.args, []);
    if folded.Kept? {
      forall i | 0 <= i < |folded.args| ensures Fields(folded.args[i]) <= Fields(e) && ArityOk(folded.args[i]) {
        assert folded.args[i] in e.args;
        var k :| 0 <= k < |e.args| && e.args[k] == folded.args[i];
      }
    }
  }

  // --- whole scalars ---

  datatype Rule = Fold(env: Env) | Simplify

  /** One rule at the root of a scalar. */
  function AtRoot(rule: Rule, e: Scalar): (q: Scalar)
    requires ArityOk(e)
    ensures Fits(q, e)
  {
    match rule
    case Fold(env) => FoldCall(env, e)
    case Simplify =>
      match e
      case Call(_, _, _) => SimplifyCallFits(e); SimplifyCall(e)
      case Coalesce(args, ty) => SimplifyCoalesceFits(e); SimplifyCoalesce(args, ty)
      case _ => e
  }

  /** A rule applied to every part of a scalar, parts first. */
  function Rewrite(rule: Rule, e: Scalar): (q: Scalar)
    requires ArityOk(e)
    ensures Fits(q, e)
    decreases e, 1
  {
    AtRoot(rule, RewriteParts(rule, e))
  }

  function RewriteParts(rule: Rule, e: Scalar): (q: Scalar)
    requires ArityOk(e)
    ensures ArityOk(q) && Fits(q, e) && q.ty == e.ty
    decreases e, 0
  {
    match e
    case Field(_, _) => e
    case Const(_, _) => e
    case Cached(inner, ty) => Cached(Rewrite(rule, inner), ty)
    case Coalesce(args, ty) => Coalesce(seq(|args|, i requires 0 <= i < |args| => Rewrite(rule, args[i])), ty)
    case Call(fn, args, ty) => Call(fn, seq(|args|, i requires 0 <= i < |args| => Rewrite(rule, args[i])), ty)
  }

  lemma AtRootRight(env: Env, s: Schema, row: Row, rule: Rule, e: Scalar)
    requires ArityOk(e) && Proper(env, s, row, e) && (rule.Fold? ==> rule.env == env)
    ensures Right(env, s, row, AtRoot(rule, e), e)
  {
    match rule {
      case Fold(_) => FoldCallRight(env, s, row, e);
      case Simplify =>
        match e {
          case Call(_, _, _) => SimplifyCallRight(env, s, row, e);
          case Coalesce(_, _) => SimplifyCoalesceRight(env, s, row, e);
          case _ =>
        }
    }
  }

  /** Rewriting a scalar keeps its value on every row on which it is proper. */
  lemma {:induction false} RewriteRight(env: Env, s: Schema, row: Row, rule: Rule, e: Scalar)
    requires ArityOk(e) && Proper(env, s, row, e) && (rule.Fold? ==> rule.env == env)
    ensures Right(env, s, row, Rewrite(rule, e), e)
    decreases e, 1
  {
    RewritePartsRight(env, s, row, rule, e);
    AtRootRight(env, s, row, rule, RewriteParts(rule, e));
  }

  lemma {:induction false} RewritePartsRight(env: Env, s: Schema, row: Row, rule: Rule, e: Scalar)
    requires ArityOk(e) && Proper(env, s, row, e) && (rule.Fold? ==> rule.env == env)
    ensures Right(env, s, row, RewriteParts(rule, e), e)
    decreases e, 0
  {
    var q := RewriteParts(rule, e);
    match e {
      case Field(_, _) =>
      case Const(_, _) =>
      case Cached(inner, _) => RewriteRight(env, s, row, rule, inner);
      case Coalesce(args, _) =>
        forall i | 0 <= i < |args| ensures Right(env, s, row, q.args[i], args[i]) {
          RewriteRight(env, s, row, rule, args[i]);
        }
        SameArgs(env, s, row, e, q);
      case Call(_, args, _) =>
        forall i | 0 <= i < |args| ensures Right(env, s, row, q.args[i], args[i]) {
          RewriteRight(env, s, row, rule, args[i]);
        }
        SameArgs(env, s, row, e, q);
    }
  }

  lemma SameArgs(env: Env, s: Schema, row: Row, e: Scalar, q: Scalar)
    requires (e.Call? && q.Call? && e.fn == q.fn) || (e.Coalesce? && q.Coalesce?)
    requires |e.args| == |q.args| && forall i | 0 <= i < |e.args| :: Eval(env, s, row, q.args[i]) == Eval(env, s, row, e.args[i])
    ensures Eval(env, s, row, q) == Eval(env, s, row, e) && EvalAll(env, s, row, q.args) == EvalAll(env, s, row, e.args)
  {
    UnfoldArgs(env, s, row, e);
    UnfoldArgs(env, s, row, q);
    assert EvalAll(env, s, row, q.args) == EvalAll(env, s, row, e.args);
  }
}
