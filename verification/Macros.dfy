/** Macro definitions and their expansion in the syntax tree of a query. */
module Macros {
  import opened Wrappers
  import opened Values

  // --- syntax ---

  datatype Expr =
    | Identifier(name: string)
    | Literal(text: string)
    | In(expr: Expr, query: Query)
    | Like(expr: Expr, regex: string)
    | Call(func: string, args: seq<Expr>)
    | Binary(op: string, left: Expr, right: Expr)
    | Unary(op: string, expr: Expr)

  datatype Projector = Star | IdentifierProjector(name: string) | ExprProjector(alias: string, expr: Expr)

  /** A relation of the syntax tree: its kind, and the parts in which macros can occur. */
  datatype Query = Query(kind: string, projectors: seq<Projector>, exprs: seq<Expr>, inputs: seq<Query>)

  datatype Macro = Macro(parameters: seq<string>, body: Expr)

  type Definitions = map<string, Macro>

  datatype Error =
    | ConflictsWithBuiltin(name: string)
    | DuplicateMacro(name: string)
    | DuplicateParameter(name: string)
    | UnknownParameter(name: string)
    | UnknownFunction(name: string)
    | WrongArity(name: string, expected: nat, got: nat)

  // --- substitution of parameters ---

  function Substitute(e: Expr, arguments: map<string, Expr>): Expr
    decreases e
  {
    match e
    case Identifier(name) => if name in arguments then arguments[name] else e
    case Literal(_) => e
    case In(x, query) => In(Substitute(x, arguments), SubstituteQuery(query, arguments))
    case Like(x, regex) => Like(Substitute(x, arguments), regex)
    case Call(func, args) => Call(func, SubstituteAll(args, arguments))
    case Binary(op, l, r) => Binary(op, Substitute(l, arguments), Substitute(r, arguments))
    case Unary(op, x) => Unary(op, Substitute(x, arguments))
  }

  function SubstituteAll(es: seq<Expr>, arguments: map<string, Expr>): (qs: seq<Expr>)
    ensures |qs| == |es| && forall i | 0 <= i < |es| :: qs[i] == Substitute(es[i], arguments)
    decreases es
  {
    seq(|es|, i requires 0 <= i < |es| => Substitute(es[i], arguments))
  }

  /** A parameter selected by name becomes a column of that name with the argument's value. */
  function SubstituteProjector(p: Projector, arguments: map<string, Expr>): Projector
    decreases p
  {
    match p
    case Star => p
    case IdentifierProjector(name) => if name in arguments then ExprProjector(name, arguments[name]) else p
    case ExprProjector(alias, x) => ExprProjector(alias, Substitute(x, arguments))
  }

  function SubstituteQuery(q: Query, arguments: map<string, Expr>): Query
    decreases q
  {
    Query(q.kind,
          seq(|q.projectors|, i requires 0 <= i < |q.projectors| => SubstituteProjector(q.projectors[i], arguments)),
          SubstituteAll(q.exprs, arguments),
          seq(|q.inputs|, i requires 0 <= i < |q.inputs| => SubstituteQuery(q.inputs[i], arguments)))
  }

  /** The arguments of a call by parameter name. */
  function Bind<T>(parameters: seq<string>, args: seq<T>): (m: map<string, T>)
    requires |parameters| == |args|
    ensures m.Keys == (set p | p in parameters)
    ensures DistinctNames(parameters) ==> forall i | 0 <= i < |args| :: m[parameters[i]] == args[i]
    decreases |args|
  {
    if args == [] then map[]
    else
      var rest := Bind(parameters[1..], args[1..]);
      assert parameters == [parameters[0]] + parameters[1..];
      rest[parameters[0] := args[0]]
  }

  predicate DistinctNames(names: seq<string>) {
    forall i, j :: 0 <= i < j < |names| ==> names[i] != names[j]
  }

  // --- expansion ---

  /** Replaces a call of a macro by its body; arguments are expanded already, and so are stored bodies. */
  function ExpandCall(call: Expr, defs: Definitions, builtins: set<string>): Result<Expr, Error>
    requires call.Call?
  {
    if call.func !in defs then
      if call.func in builtins then Ok(call) else Err(UnknownFunction(call.func))
    else
      var m := defs[call.func];
      if |call.args| != |m.parameters| then Err(WrongArity(call.func, |m.parameters|, |call.args|))
      else Ok(Substitute(m.body, Bind(m.parameters, call.args)))
  }

  function Expand(e: Expr, defs: Definitions, builtins: set<string>): Result<Expr, Error>
    decreases e
  {
    match e
    case Identifier(_) => Ok(e)
    case Literal(_) => Ok(e)
    case In(x, query) =>
      var x' := Expand(x, defs, builtins);
      if x'.Err? then x' else
      var query' := ExpandQuery(query, defs, builtins);
      if query'.Err? then Err(query'.error) else Ok(In(x'.value, query'.value))
    case Like(x, regex) =>
      var x' := Expand(x, defs, builtins);
      if x'.Err? then x' else Ok(Like(x'.value, regex))
    case Call(func, args) =>
      var args' := ExpandAll(args, defs, builtins);
      if args'.Err? then Err(args'.error) else ExpandCall(Call(func, args'.value), defs, builtins)
    case Binary(op, l, r) =>
      var l' := Expand(l, defs, builtins);
      if l'.Err? then l' else
      var r' := Expand(r, defs, builtins);
      if r'.Err? then r' else Ok(Binary(op, l'.value, r'.value))
    case Unary(op, x) =>
      var x' := Expand(x, defs, builtins);
      if x'.Err? then x' else Ok(Unary(op, x'.value))
  }

  /** Expands a list from the left, up to the first error. */
  function ExpandAll(es: seq<Expr>, defs: Definitions, builtins: set<string>): (r: Result<seq<Expr>, Error>)
    ensures r.Ok? ==> |r.value| == |es|
    decreases es
  {
    if es == [] then Ok([])
    else
      var before := ExpandAll(es[..|es| - 1], defs, builtins);
      if before.Err? then before else
      var last := Expand(es[|es| - 1], defs, builtins);
      if last.Err? then Err(last.error) else Ok(before.value + [last.value])
  }

  function ExpandProjector(p: Projector, defs: Definitions, builtins: set<string>): Result<Projector, Error>
    decreases p
  {
    if p.ExprProjector? then
      var x := Expand(p.expr, defs, builtins);
      if x.Err? then Err(x.error) else Ok(ExprProjector(p.alias, x.value))
    else Ok(p)
  }

  function ExpandProjectors(ps: seq<Projector>, defs: Definitions, builtins: set<string>): (r: Result<seq<Projector>, Error>)
    ensures r.Ok? ==> |r.value| == |ps|
    decreases ps
  {
    if ps == [] then Ok([])
    else
      var before := ExpandProjectors(ps[..|ps| - 1], defs, builtins);
      if before.Err? then before else
      var last := ExpandProjector(ps[|ps| - 1], defs, builtins);
      if last.Err? then Err(last.error) else Ok(before.value + [last.value])
  }

  function ExpandQuery(q: Query, defs: Definitions, builtins: set<string>): Result<Query, Error>
    decreases q
  {
    var ps := ExpandProjectors(q.projectors, defs, builtins);
    if ps.Err? then Err(ps.error) else
    var es := ExpandAll(q.exprs, defs, builtins);
    if es.Err? then Err(es.error) else
    var qs := ExpandQueries(q.inputs, defs, builtins);
    if qs.Err? then Err(qs.error) else Ok(Query(q.kind, ps.value, es.value, qs.value))
  }

  function ExpandQueries(qs: seq<Query>, defs: Definitions, builtins: set<string>): (r: Result<seq<Query>, Error>)
    ensures r.Ok? ==> |r.value| == |qs|
    decreases qs
  {
    if qs == [] then Ok([])
    else
      var before := ExpandQueries(qs[..|qs| - 1], defs, builtins);
      if before.Err? then before else
      var last := ExpandQuery(qs[|qs| - 1], defs, builtins);
      if last.Err? then Err(last.error) else Ok(before.value + [last.value])
  }

  // --- which functions an expression calls ---

  /** Every call, in subqueries too, satisfies a predicate on the name and the number of arguments. */
  predicate CallsAre(e: Expr, p: (string, nat) -> bool)
    decreases e
  {
    match e
    case Identifier(_) => true
    case Literal(_) => true
    case In(x, query) => CallsAre(x, p) && QueryCallsAre(query, p)
    case Like(x, _) => CallsAre(x, p)
    case Call(func, args) => p(func, |args|) && forall i | 0 <= i < |args| :: CallsAre(args[i], p)
    case Binary(_, l, r) => CallsAre(l, p) && CallsAre(r, p)
    case Unary(_, x) => CallsAre(x, p)
  }

  predicate QueryCallsAre(q: Query, p: (string, nat) -> bool)
    decreases q
  {
    && (forall i | 0 <= i < |q.projectors| :: ProjectorCallsAre(q.projectors[i], p))
    && (forall i | 0 <= i < |q.exprs| :: CallsAre(q.exprs[i], p))
    && (forall i | 0 <= i < |q.inputs| :: QueryCallsAre(q.inputs[i], p))
  }

  predicate ProjectorCallsAre(pr: Projector, p: (string, nat) -> bool)
    decreases pr
  {
    pr.ExprProjector? ==> CallsAre(pr.expr, p)
  }

  function IsBuiltin(builtins: set<string>): (string, nat) -> bool { (f, n) => f in builtins }

  /** What a call must be for expansion to accept it. */
  function Known(defs: Definitions, builtins: set<string>): (string, nat) -> bool {
    (f, n) => if f in defs then n == |defs[f].parameters| else f in builtins
  }

  // --- no macro call survives ---

  /** Stored bodies are expanded, and no macro has the name of a built-in function. */
  ghost predicate Stored(defs: Definitions, builtins: set<string>) {
    forall name | name in defs ::
      && name !in builtins
      && DistinctNames(defs[name].parameters)
      && BodyOk(defs[name].body, defs[name].parameters)
      && CallsAre(defs[name].body, IsBuiltin(builtins))
  }

  /** Outside subqueries a body mentions nothing but parameters. */
  predicate BodyOk(e: Expr, parameters: seq<string>)
    decreases e
  {
    match e
    case Identifier(name) => name in parameters
    case Literal(_) => true
    case In(x, _) => BodyOk(x, parameters)
    case Like(x, _) => BodyOk(x, parameters)
    case Call(_, args) => forall i | 0 <= i < |args| :: BodyOk(args[i], parameters)
    case Binary(_, l, r) => BodyOk(l, parameters) && BodyOk(r, parameters)
    case Unary(_, x) => BodyOk(x, parameters)
  }

  ghost predicate ArgumentCallsAre(arguments: map<string, Expr>, p: (string, nat) -> bool) {
    forall name | name in arguments :: CallsAre(arguments[name], p)
  }

  lemma {:induction false} SubstituteCalls(e: Expr, arguments: map<string, Expr>, p: (string, nat) -> bool)
    requires CallsAre(e, p) && ArgumentCallsAre(arguments, p)
    ensures CallsAre(Substitute(e, arguments), p)
    decreases e
  {
    match e {
      case Identifier(_) =>
      case Literal(_) =>
      case In(x, query) => SubstituteCalls(x, arguments, p); SubstituteQueryCalls(query, arguments, p);
      case Like(x, _) => SubstituteCalls(x, arguments, p);
      case Call(_, args) => SubstituteAllCalls(args, arguments, p);
      case Binary(_, l, r) => SubstituteCalls(l, arguments, p); SubstituteCalls(r, arguments, p);
      case Unary(_, x) => SubstituteCalls(x, arguments, p);
    }
  }

  lemma {:induction false} SubstituteAllCalls(es: seq<Expr>, arguments: map<string, Expr>, p: (string, nat) -> bool)
    requires (forall i | 0 <= i < |es| :: CallsAre(es[i], p)) && ArgumentCallsAre(arguments, p)
    ensures forall i | 0 <= i < |es| :: CallsAre(SubstituteAll(es, arguments)[i], p)
    decreases es
  {
    forall i | 0 <= i < |es| ensures CallsAre(SubstituteAll(es, arguments)[i], p) {
      SubstituteCalls(es[i], arguments, p);
    }
  }

  lemma {:induction false} SubstituteProjectorCalls(pr: Projector, arguments: map<string, Expr>, p: (string, nat) -> bool)
    requires ProjectorCallsAre(pr, p) && ArgumentCallsAre(arguments, p)
    ensures ProjectorCallsAre(SubstituteProjector(pr, arguments), p)
    decreases pr
  {
    match pr {
      case Star =>
      case IdentifierProjector(name) => assert name in arguments ==> CallsAre(arguments[name], p);
      case ExprProjector(_, x) => SubstituteCalls(x, arguments, p);
    }
  }

  lemma {:induction false} SubstituteQueryCalls(q: Query, arguments: map<string, Expr>, p: (string, nat) -> bool)
    requires QueryCallsAre(q, p) && ArgumentCallsAre(arguments, p)
    ensures QueryCallsAre(SubstituteQuery(q, arguments), p)
    decreases q
  {
    var r := SubstituteQuery(q, arguments);
    forall i | 0 <= i < |q.projectors| ensures ProjectorCallsAre(r.projectors[i], p) {
      assert ProjectorCallsAre(q.projectors[i], p);
      SubstituteProjectorCalls(q.projectors[i], arguments, p);
    }
    SubstituteAllCalls(q.exprs, arguments, p);
    forall i | 0 <= i < |q.inputs| ensures QueryCallsAre(r.inputs[i], p) {
      SubstituteQueryCalls(q.inputs[i], arguments, p);
    }
  }

  lemma ArgumentsOf(parameters: seq<string>, args: seq<Expr>, p: (string, nat) -> bool)
    requires |parameters| == |args| && DistinctNames(parameters)
    requires forall i | 0 <= i < |args| :: CallsAre(args[i], p)
    ensures ArgumentCallsAre(Bind(parameters, args), p)
  {
    var m := Bind(parameters, args);
    forall name | name in m ensures CallsAre(m[name], p) {
      var i :| 0 <= i < |parameters| && parameters[i] == name;
      assert m[parameters[i]] == args[i];
    }
  }

  /** Expansion succeeds exactly when all calls are known, and leaves only calls of built-in functions. */
  lemma {:induction false} ExpandMeaning(e: Expr, defs: Definitions, builtins: set<string>)
    requires Stored(defs, builtins)
    ensures Expand(e, defs, builtins).Ok? <==> CallsAre(e, Known(defs, builtins))
    ensures Expand(e, defs, builtins).Ok? ==> CallsAre(Expand(e, defs, builtins).value, IsBuiltin(builtins))
    decreases e
  {
    match e {
      case Identifier(_) =>
      case Literal(_) =>
      case In(x, query) => ExpandMeaning(x, defs, builtins); ExpandQueryMeaning(query, defs, builtins);
      case Like(x, _) => ExpandMeaning(x, defs, builtins);
      case Call(func, args) =>
        ExpandAllMeaning(args, defs, builtins);
        var args' := ExpandAll(args, defs, builtins);
        if args'.Ok? && func in defs && |args| == |defs[func].parameters| {
          ArgumentsOf(defs[func].parameters, args'.value, IsBuiltin(builtins));
          SubstituteCalls(defs[func].body, Bind(defs[func].parameters, args'.value), IsBuiltin(builtins));
        }
      case Binary(_, l, r) => ExpandMeaning(l, defs, builtins); ExpandMeaning(r, defs, builtins);
      case Unary(_, x) => ExpandMeaning(x, defs, builtins);
    }
  }

  lemma {:induction false} ExpandAllMeaning(es: seq<Expr>, defs: Definitions, builtins: set<string>)
    requires Stored(defs, builtins)
    ensures var r := ExpandAll(es, defs, builtins);
            && (r.Ok? <==> forall i | 0 <= i < |es| :: CallsAre(es[i], Known(defs, builtins)))
            && (r.Ok? ==> forall i | 0 <= i < |es| ::
                  && CallsAre(r.value[i], IsBuiltin(builtins))
                  && Expand(es[i], defs, builtins) == Ok(r.value[i]))
    decreases es
  {
    hide Expand, CallsAre, Known, IsBuiltin, Stored;
    if es != [] {
      ExpandAllMeaning(es[..|es| - 1], defs, builtins);
      ExpandMeaning(es[|es| - 1], defs, builtins);
    }
  }

  lemma {:induction false} ExpandProjectorsMeaning(ps: seq<Projector>, defs: Definitions, builtins: set<string>)
    requires Stored(defs, builtins)
    ensures var r := ExpandProjectors(ps, defs, builtins);
            && (r.Ok? <==> forall i | 0 <= i < |ps| :: ProjectorCallsAre(ps[i], Known(defs, builtins)))
            && (r.Ok? ==> forall i | 0 <= i < |ps| :: ProjectorCallsAre(r.value[i], IsBuiltin(builtins)))
    decreases ps
  {
    if ps != [] {
      ExpandProjectorsMeaning(ps[..|ps| - 1], defs, builtins);
      if ps[|ps| - 1].ExprProjector? {
        ExpandMeaning(ps[|ps| - 1].expr, defs, builtins);
      }
    }
  }

  lemma {:induction false} ExpandQueryMeaning(q: Query, defs: Definitions, builtins: set<string>)
    requires Stored(defs, builtins)
    ensures ExpandQuery(q, defs, builtins).Ok? <==> QueryCallsAre(q, Known(defs, builtins))
    ensures ExpandQuery(q, defs, builtins).Ok? ==> QueryCallsAre(ExpandQuery(q, defs, builtins).value, IsBuiltin(builtins))
    decreases q
  {
    ExpandProjectorsMeaning(q.projectors, defs, builtins);
    ExpandAllMeaning(q.exprs, defs, builtins);
    ExpandQueriesMeaning(q.inputs, defs, builtins);
  }

  lemma {:induction false} ExpandQueriesMeaning(qs: seq<Query>, defs: Definitions, builtins: set<string>)
    requires Stored(defs, builtins)
    ensures var r := ExpandQueries(qs, defs, builtins);
            && (r.Ok? <==> forall i | 0 <= i < |qs| :: QueryCallsAre(qs[i], Known(defs, builtins)))
            && (r.Ok? ==> forall i | 0 <= i < |qs| :: QueryCallsAre(r.value[i], IsBuiltin(builtins)))
    decreases qs
  {
    if qs != [] {
      ExpandQueriesMeaning(qs[..|qs| - 1], defs, builtins);
      ExpandQueryMeaning(qs[|qs| - 1], defs, builtins);
    }
  }

  // --- definitions ---

  function FirstDuplicate(names: seq<string>): (r: Option<string>)
    ensures r.None? <==> DistinctNames(names)
  {
    if names == [] then None
    else
      var before := FirstDuplicate(names[..|names| - 1]);
      if before.Some? then before
      else if names[|names| - 1] in names[..|names| - 1] then Some(names[|names| - 1])
      else
        assert names == names[..|names| - 1] + [names[|names| - 1]];
        None
  }

  function OrElse<T>(a: Option<T>, b: Option<T>): Option<T> {
    if a.Some? then a else b
  }

  /** The first identifier outside subqueries that is no parameter. */
  function FirstUnknown(e: Expr, parameters: seq<string>): (r: Option<string>)
    ensures r.None? <==> BodyOk(e, parameters)
    decreases e
  {
    match e
    case Identifier(name) => if name in parameters then None else Some(name)
    case Literal(_) => None
    case In(x, _) => FirstUnknown(x, parameters)
    case Like(x, _) => FirstUnknown(x, parameters)
    case Call(_, args) => FirstUnknownIn(args, parameters)
    case Binary(_, l, r) => OrElse(FirstUnknown(l, parameters), FirstUnknown(r, parameters))
    case Unary(_, x) => FirstUnknown(x, parameters)
  }

  function FirstUnknownIn(es: seq<Expr>, parameters: seq<string>): (r: Option<string>)
    ensures r.None? <==> forall i | 0 <= i < |es| :: BodyOk(es[i], parameters)
    decreases es
  {
    if es == [] then None
    else OrElse(FirstUnknownIn(es[..|es| - 1], parameters), FirstUnknown(es[|es| - 1], parameters))
  }

  /** Checks a definition, expands its body under the definitions so far, and adds it. */
  function Define(defs: Definitions, name: string, m: Macro, builtins: set<string>): Result<Definitions, Error> {
    if name in builtins || name == "count" then Err(ConflictsWithBuiltin(name))
    else if name in defs then Err(DuplicateMacro(name))
    else if FirstDuplicate(m.parameters).Some? then Err(DuplicateParameter(FirstDuplicate(m.parameters).value))
    else if FirstUnknown(m.body, m.parameters).Some? then Err(UnknownParameter(FirstUnknown(m.body, m.parameters).value))
    else
      var body := Expand(m.body, defs, builtins);
      if body.Err? then Err(body.error) else Ok(defs[name := Macro(m.parameters, body.value)])
  }

  ghost predicate ArgumentBodiesOk(arguments: map<string, Expr>, parameters: seq<string>) {
    forall name | name in arguments :: BodyOk(arguments[name], parameters)
  }

  lemma {:induction false} SubstituteBodyOk(e: Expr, inner: seq<string>, arguments: map<string, Expr>, parameters: seq<string>)
    requires BodyOk(e, inner) && (forall name | name in inner :: name in arguments) && ArgumentBodiesOk(arguments, parameters)
    ensures BodyOk(Substitute(e, arguments), parameters)
    decreases e
  {
    match e {
      case Identifier(_) =>
      case Literal(_) =>
      case In(x, _) => SubstituteBodyOk(x, inner, arguments, parameters);
      case Like(x, _) => SubstituteBodyOk(x, inner, arguments, parameters);
      case Call(_, args) =>
        forall i | 0 <= i < |args| ensures BodyOk(SubstituteAll(args, arguments)[i], parameters) {
          SubstituteBodyOk(args[i], inner, arguments, parameters);
        }
      case Binary(_, l, r) =>
        SubstituteBodyOk(l, inner, arguments, parameters);
        SubstituteBodyOk(r, inner, arguments, parameters);
      case Unary(_, x) => SubstituteBodyOk(x, inner, arguments, parameters);
    }
  }

  lemma BoundBodiesOk(parameters: seq<string>, args: seq<Expr>, outer: seq<string>)
    requires |parameters| == |args| && DistinctNames(parameters)
    requires forall i | 0 <= i < |args| :: BodyOk(args[i], outer)
    ensures ArgumentBodiesOk(Bind(parameters, args), outer)
  {
    var m := Bind(parameters, args);
    forall name | name in m ensures BodyOk(m[name], outer) {
      var i :| 0 <= i < |parameters| && parameters[i] == name;
      assert m[parameters[i]] == args[i];
    }
  }

  /** Expanding a body brings in no identifier that is not a parameter. */
  lemma {:induction false} ExpandBodyOk(e: Expr, defs: Definitions, builtins: set<string>, parameters: seq<string>)
    requires Stored(defs, builtins) && BodyOk(e, parameters) && Expand(e, defs, builtins).Ok?
    ensures BodyOk(Expand(e, defs, builtins).value, parameters)
    decreases e
  {
    match e {
      case Identifier(_) =>
      case Literal(_) =>
      case In(x, _) => ExpandBodyOk(x, defs, builtins, parameters);
      case Like(x, _) => ExpandBodyOk(x, defs, builtins, parameters);
      case Call(func, args) =>
        ExpandAllMeaning(args, defs, builtins);
        var args' := ExpandAll(args, defs, builtins).value;
        forall i | 0 <= i < |args| ensures BodyOk(args'[i], parameters) {
          assert Expand(args[i], defs, builtins) == Ok(args'[i]);
          ExpandBodyOk(args[i], defs, builtins, parameters);
        }
        if func in defs {
          var m := defs[func];
          BoundBodiesOk(m.parameters, args', parameters);
          SubstituteBodyOk(m.body, m.parameters, Bind(m.parameters, args'), parameters);
        }
      case Binary(_, l, r) =>
        ExpandBodyOk(l, defs, builtins, parameters);
        ExpandBodyOk(r, defs, builtins, parameters);
      case Unary(_, x) => ExpandBodyOk(x, defs, builtins, parameters);
    }
  }

  /**
   * A definition is accepted exactly when its name is new, its parameters are distinct, its body mentions
   * only them, and it calls only built-in functions and earlier macros; itself it cannot call.
   */
  lemma DefineMeaning(defs: Definitions, name: string, m: Macro, builtins: set<string>)
    requires Stored(defs, builtins)
    ensures Define(defs, name, m, builtins).Ok? <==>
            && name !in builtins && name != "count" && name !in defs
            && DistinctNames(m.parameters) && BodyOk(m.body, m.parameters)
            && CallsAre(m.body, Known(defs, builtins))
    ensures Define(defs, name, m, builtins).Ok? ==> Stored(Define(defs, name, m, builtins).value, builtins)
  {
    ExpandMeaning(m.body, defs, builtins);
    if Define(defs, name, m, builtins).Ok? {
      ExpandBodyOk(m.body, defs, builtins, m.parameters);
    }
  }

  // --- what an expanded expression means ---

  /** The value of literals, operators and built-in functions. */
  datatype Interp = Interp(
    literal: string -> Value,
    call: (string, seq<Value>) -> Value,
    binary: (string, Value, Value) -> Value,
    unary: (string, Value) -> Value,
    like: (Value, string) -> Value
  )

  type Definition = (string, Macro)

  predicate QueryFree(e: Expr)
    decreases e
  {
    match e
    case Identifier(_) => true
    case Literal(_) => true
    case In(_, _) => false
    case Like(x, _) => QueryFree(x)
    case Call(_, args) => forall i | 0 <= i < |args| :: QueryFree(args[i])
    case Binary(_, l, r) => QueryFree(l) && QueryFree(r)
    case Unary(_, x) => QueryFree(x)
  }

  function Find(ds: seq<Definition>, name: string): (r: Option<nat>)
    ensures r.Some? ==> r.value < |ds| && ds[r.value].0 == name
    ensures r.None? ==> forall i | 0 <= i < |ds| :: ds[i].0 != name
  {
    if ds == [] then None
    else if ds[|ds| - 1].0 == name then Some(|ds| - 1)
    else Find(ds[..|ds| - 1], name)
  }

  /**
   * The meaning of an expression with macros as functions: a call evaluates the body as it was written,
   * under the definitions before it, with each parameter bound to the value of its argument.
   */
  function Meaning(interp: Interp, ds: seq<Definition>, vars: map<string, Value>, e: Expr): Value
    requires QueryFree(e) && forall d | d in ds :: QueryFree(d.1.body)
    decreases |ds|, e
  {
    match e
    case Identifier(name) => if name in vars then vars[name] else Null
    case Literal(text) => interp.literal(text)
    case Like(x, regex) => interp.like(Meaning(interp, ds, vars, x), regex)
    case Call(func, args) =>
      var values := seq(|args|, i requires 0 <= i < |args| => Meaning(interp, ds, vars, args[i]));
      var found := Find(ds, func);
      if found.None? then interp.call(func, values)
      else
        var m := ds[found.value].1;
        assert ds[found.value] in ds;
        if |m.parameters| != |values| then Null
        else Meaning(interp, ds[..found.value], Bind(m.parameters, values), m.body)
    case Binary(op, l, r) => interp.binary(op, Meaning(interp, ds, vars, l), Meaning(interp, ds, vars, r))
    case Unary(op, x) => interp.unary(op, Meaning(interp, ds, vars, x))
  }

  /** The value of an expression without macros. */
  function ValueOf(interp: Interp, vars: map<string, Value>, e: Expr): Value
    requires QueryFree(e)
  {
    Meaning(interp, [], vars, e)
  }

  ghost predicate Evaluates(interp: Interp, vars: map<string, Value>, arguments: map<string, Expr>, values: map<string, Value>) {
    && arguments.Keys == values.Keys
    && forall name | name in arguments :: QueryFree(arguments[name]) && values[name] == ValueOf(interp, vars, arguments[name])
  }

  /** Substituting arguments for parameters, all at once, evaluates the body with the arguments' values. */
  lemma {:induction false} SubstituteMeaning(interp: Interp, vars: map<string, Value>, e: Expr, parameters: seq<string>,
                                             arguments: map<string, Expr>, values: map<string, Value>)
    requires QueryFree(e) && BodyOk(e, parameters) && (forall name | name in parameters :: name in arguments)
    requires Evaluates(interp, vars, arguments, values)
    ensures QueryFree(Substitute(e, arguments))
    ensures ValueOf(interp, vars, Substitute(e, arguments)) == ValueOf(interp, values, e)
    decreases e
  {
    match e {
      case Identifier(_) =>
      case Literal(_) =>
      case Like(x, _) => SubstituteMeaning(interp, vars, x, parameters, arguments, values);
      case Call(_, args) =>
        var qs := SubstituteAll(args, arguments);
        forall i | 0 <= i < |args|
          ensures QueryFree(qs[i]) && ValueOf(interp, vars, qs[i]) == ValueOf(interp, values, args[i])
        {
          SubstituteMeaning(interp, vars, args[i], parameters, arguments, values);
        }
        assert seq(|qs|, i requires 0 <= i < |qs| => Meaning(interp, [], vars, qs[i])) ==
               seq(|args|, i requires 0 <= i < |args| => Meaning(interp, [], values, args[i]));
      case Binary(_, l, r) =>
        SubstituteMeaning(interp, vars, l, parameters, arguments, values);
        SubstituteMeaning(interp, vars, r, parameters, arguments, values);
      case Unary(_, x) => SubstituteMeaning(interp, vars, x, parameters, arguments, values);
    }
  }

  /** The stored definitions after a list of macro definitions, or the first error. */
  function DefineAll(ds: seq<Definition>, builtins: set<string>): Result<Definitions, Error> {
    if ds == [] then Ok(map[])
    else
      var before := DefineAll(ds[..|ds| - 1], builtins);
      if before.Err? then before
      else Define(before.value, ds[|ds| - 1].0, ds[|ds| - 1].1, builtins)
  }

  lemma {:induction false} AllStored(ds: seq<Definition>, builtins: set<string>)
    requires DefineAll(ds, builtins).Ok?
    ensures Stored(DefineAll(ds, builtins).value, builtins)
    decreases |ds|
  {
    hide Define;
    if ds != [] {
      hide Stored;
      AllStored(ds[..|ds| - 1], builtins);
      var last := ds[|ds| - 1];
      DefineMeaning(DefineAll(ds[..|ds| - 1], builtins).value, last.0, last.1, builtins);
    }
  }

  lemma {:induction false} NotFound(ds: seq<Definition>, builtins: set<string>, name: string)
    requires DefineAll(ds, builtins).Ok? && name !in DefineAll(ds, builtins).value
    ensures Find(ds, name).None?
    decreases |ds|
  {
    hide Expand;
    if ds != [] {
      NotFound(ds[..|ds| - 1], builtins, name);
    }
  }

  /** A stored body is the written one, expanded under the definitions before it. */
  lemma {:induction false} StoredBody(ds: seq<Definition>, builtins: set<string>, name: string)
    requires DefineAll(ds, builtins).Ok? && name in DefineAll(ds, builtins).value
    ensures Find(ds, name).Some?
    ensures var i := Find(ds, name).value;
            && DefineAll(ds[..i], builtins).Ok?
            && Expand(ds[i].1.body, DefineAll(ds[..i], builtins).value, builtins) == Ok(DefineAll(ds, builtins).value[name].body)
            && DefineAll(ds, builtins).value[name].parameters == ds[i].1.parameters
    decreases |ds|
  {
    hide Expand;
    var before, last := ds[..|ds| - 1], ds[|ds| - 1];
    if last.0 != name {
      StoredBody(before, builtins, name);
      var i := Find(before, name).value;
      assert before[..i] == ds[..i];
    }
  }

  lemma {:induction false} ExpandQueryFree(e: Expr, defs: Definitions, builtins: set<string>)
    requires Stored(defs, builtins) && QueryFree(e) && Expand(e, defs, builtins).Ok?
    requires forall name | name in defs :: QueryFree(defs[name].body)
    ensures QueryFree(Expand(e, defs, builtins).value)
    decreases e
  {
    match e {
      case Identifier(_) =>
      case Literal(_) =>
      case Like(x, _) => ExpandQueryFree(x, defs, builtins);
      case Call(func, args) =>
        ExpandAllMeaning(args, defs, builtins);
        var args' := ExpandAll(args, defs, builtins).value;
        forall i | 0 <= i < |args| ensures QueryFree(args'[i]) {
          assert Expand(args[i], defs, builtins) == Ok(args'[i]);
          ExpandQueryFree(args[i], defs, builtins);
        }
        if func in defs {
          SubstituteQueryFree(defs[func].body, defs[func].parameters, args');
        }
      case Binary(_, l, r) => ExpandQueryFree(l, defs, builtins); ExpandQueryFree(r, defs, builtins);
      case Unary(_, x) => ExpandQueryFree(x, defs, builtins);
    }
  }

  lemma SubstituteQueryFree(body: Expr, parameters: seq<string>, args: seq<Expr>)
    requires |parameters| == |args| && DistinctNames(parameters) && QueryFree(body)
    requires forall i | 0 <= i < |args| :: QueryFree(args[i])
    ensures QueryFree(Substitute(body, Bind(parameters, args)))
  {
    var m := Bind(parameters, args);
    forall name | name in m ensures QueryFree(m[name]) {
      var i :| 0 <= i < |parameters| && parameters[i] == name;
      assert m[parameters[i]] == args[i];
    }
    QueryFreeSubstituted(body, m);
  }

  lemma {:induction false} QueryFreeSubstituted(e: Expr, arguments: map<string, Expr>)
    requires QueryFree(e) && forall name | name in arguments :: QueryFree(arguments[name])
    ensures QueryFree(Substitute(e, arguments))
    decreases e
  {
    match e {
      case Identifier(_) =>
      case Literal(_) =>
      case Like(x, _) => QueryFreeSubstituted(x, arguments);
      case Call(_, args) =>
        forall i | 0 <= i < |args| ensures QueryFree(SubstituteAll(args, arguments)[i]) {
          QueryFreeSubstituted(args[i], arguments);
        }
      case Binary(_, l, r) => QueryFreeSubstituted(l, arguments); QueryFreeSubstituted(r, arguments);
      case Unary(_, x) => QueryFreeSubstituted(x, arguments);
    }
  }

  lemma {:induction false} BodiesQueryFree(ds: seq<Definition>, builtins: set<string>)
    requires DefineAll(ds, builtins).Ok? && forall d | d in ds :: QueryFree(d.1.body)
    ensures forall name | name in DefineAll(ds, builtins).value :: QueryFree(DefineAll(ds, builtins).value[name].body)
    decreases |ds|
  {
    if ds != [] {
      var before, last := ds[..|ds| - 1], ds[|ds| - 1];
      assert last in ds;
      BodiesQueryFree(before, builtins);
      AllStored(before, builtins);
      ExpandQueryFree(last.1.body, DefineAll(before, builtins).value, builtins);
    }
  }

  lemma BoundEvaluates(interp: Interp, vars: map<string, Value>, parameters: seq<string>, args: seq<Expr>, values: seq<Value>)
    requires |parameters| == |args| == |values| && DistinctNames(parameters)
    requires forall i | 0 <= i < |args| :: QueryFree(args[i]) && values[i] == ValueOf(interp, vars, args[i])
    ensures Evaluates(interp, vars, Bind(parameters, args), Bind(parameters, values))
  {
    var m, w := Bind(parameters, args), Bind(parameters, values);
    forall name | name in m ensures QueryFree(m[name]) && w[name] == ValueOf(interp, vars, m[name]) {
      var i :| 0 <= i < |parameters| && parameters[i] == name;
      assert m[parameters[i]] == args[i] && w[parameters[i]] == values[i];
    }
  }

  function ArgumentValues(interp: Interp, ds: seq<Definition>, vars: map<string, Value>, es: seq<Expr>): (vs: seq<Value>)
    requires forall i | 0 <= i < |es| :: QueryFree(es[i])
    requires forall d | d in ds :: QueryFree(d.1.body)
    ensures |vs| == |es| && forall i | 0 <= i < |es| :: vs[i] == Meaning(interp, ds, vars, es[i])
  {
    seq(|es|, i requires 0 <= i < |es| => Meaning(interp, ds, vars, es[i]))
  }

  lemma ArgumentsQueryFree(e: Expr)
    requires e.Call? && QueryFree(e)
    ensures forall i | 0 <= i < |e.args| :: QueryFree(e.args[i])
  {
  }

  lemma MeaningOfCall(interp: Interp, ds: seq<Definition>, vars: map<string, Value>, func: string, args: seq<Expr>)
    requires forall i | 0 <= i < |args| :: QueryFree(args[i])
    requires forall d | d in ds :: QueryFree(d.1.body)
    ensures QueryFree(Call(func, args))
    ensures var values, found := ArgumentValues(interp, ds, vars, args), Find(ds, func);
            && (found.None? ==> Meaning(interp, ds, vars, Call(func, args)) == interp.call(func, values))
            && (found.Some? ==> ds[found.value] in ds)
            && (found.Some? && |ds[found.value].1.parameters| == |values| ==>
                  Meaning(interp, ds, vars, Call(func, args)) ==
                  Meaning(interp, ds[..found.value], Bind(ds[found.value].1.parameters, values), ds[found.value].1.body))
  {
    var found := Find(ds, func);
    assert found.Some? ==> ds[found.value] in ds;
    assert ArgumentValues(interp, ds, vars, args) == seq(|args|, i requires 0 <= i < |args| => Meaning(interp, ds, vars, args[i]));
  }

  lemma ExpandedCall(func: string, args: seq<Expr>, defs: Definitions, builtins: set<string>)
    requires Stored(defs, builtins) && Expand(Call(func, args), defs, builtins).Ok?
    ensures var args' := ExpandAll(args, defs, builtins);
            && args'.Ok?
            && (forall i | 0 <= i < |args| :: Expand(args[i], defs, builtins) == Ok(args'.value[i]))
            && (func in defs ==>
                  && |defs[func].parameters| == |args|
                  && Expand(Call(func, args), defs, builtins).value ==
                     Substitute(defs[func].body, Bind(defs[func].parameters, args'.value)))
            && (func !in defs ==> Expand(Call(func, args), defs, builtins).value == Call(func, args'.value))
  {
    ExpandAllMeaning(args, defs, builtins);
  }

  /** Expansion keeps the meaning: an expanded expression evaluates like the original with macros as functions. */
  lemma {:induction false} ExpansionKeepsMeaning(interp: Interp, ds: seq<Definition>, builtins: set<string>, vars: map<string, Value>, e: Expr)
    requires DefineAll(ds, builtins).Ok? && Expand(e, DefineAll(ds, builtins).value, builtins).Ok?
    requires QueryFree(e) && forall d | d in ds :: QueryFree(d.1.body)
    ensures QueryFree(Expand(e, DefineAll(ds, builtins).value, builtins).value)
    ensures ValueOf(interp, vars, Expand(e, DefineAll(ds, builtins).value, builtins).value) == Meaning(interp, ds, vars, e)
    decreases |ds|, 1, e, 1
  {
    hide Meaning, Expand, DefineAll, Stored;
    AllStored(ds, builtins);
    BodiesQueryFree(ds, builtins);
    ExpandQueryFree(e, DefineAll(ds, builtins).value, builtins);
    if e.Call? {
      CallExpansion(interp, ds, builtins, vars, e.func, e.args);
    } else {
      OtherExpansion(interp, ds, builtins, vars, e);
    }
  }

  lemma {:induction false} OtherExpansion(interp: Interp, ds: seq<Definition>, builtins: set<string>, vars: map<string, Value>, e: Expr)
    requires DefineAll(ds, builtins).Ok? && Expand(e, DefineAll(ds, builtins).value, builtins).Ok?
    requires QueryFree(e) && !e.Call? && forall d | d in ds :: QueryFree(d.1.body)
    ensures QueryFree(Expand(e, DefineAll(ds, builtins).value, builtins).value)
    ensures ValueOf(interp, vars, Expand(e, DefineAll(ds, builtins).value, builtins).value) == Meaning(interp, ds, vars, e)
    decreases |ds|, 1, e, 0
  {
    hide DefineAll;
    match e {
      case Identifier(_) =>
      case Literal(_) =>
      case Like(x, _) => ExpansionKeepsMeaning(interp, ds, builtins, vars, x);
      case Binary(_, l, r) =>
        ExpansionKeepsMeaning(interp, ds, builtins, vars, l);
        ExpansionKeepsMeaning(interp, ds, builtins, vars, r);
      case Unary(_, x) => ExpansionKeepsMeaning(interp, ds, builtins, vars, x);
    }
  }

  lemma {:induction false} CallExpansion(interp: Interp, ds: seq<Definition>, builtins: set<string>, vars: map<string, Value>,
                                         func: string, args: seq<Expr>)
    requires DefineAll(ds, builtins).Ok? && Expand(Call(func, args), DefineAll(ds, builtins).value, builtins).Ok?
    requires QueryFree(Call(func, args)) && forall d | d in ds :: QueryFree(d.1.body)
    ensures QueryFree(Expand(Call(func, args), DefineAll(ds, builtins).value, builtins).value)
    ensures ValueOf(interp, vars, Expand(Call(func, args), DefineAll(ds, builtins).value, builtins).value) ==
            Meaning(interp, ds, vars, Call(func, args))
    decreases |ds|, 1, Call(func, args), 0
  {
    hide Meaning, Expand, Substitute, DefineAll, Stored, QueryFree;
    var defs := DefineAll(ds, builtins).value;
    AllStored(ds, builtins);
    BodiesQueryFree(ds, builtins);
    ExpandQueryFree(Call(func, args), defs, builtins);
    ArgumentsQueryFree(Call(func, args));
    ExpandedCall(func, args, defs, builtins);
    var args' := ExpandAll(args, defs, builtins).value;
    var values := ArgumentValues(interp, ds, vars, args);
    forall i | 0 <= i < |args| ensures QueryFree(args'[i]) && values[i] == ValueOf(interp, vars, args'[i]) {
      ExpansionKeepsMeaning(interp, ds, builtins, vars, args[i]);
    }
    MeaningOfCall(interp, ds, vars, func, args);
    if func in defs {
      CallKeepsMeaning(interp, ds, builtins, vars, func, args', values);
    } else {
      NotFound(ds, builtins, func);
      MeaningOfCall(interp, [], vars, func, args');
      assert values == ArgumentValues(interp, [], vars, args');
    }
  }

  lemma {:induction false} CallKeepsMeaning(interp: Interp, ds: seq<Definition>, builtins: set<string>, vars: map<string, Value>,
                                            func: string, args: seq<Expr>, values: seq<Value>)
    requires DefineAll(ds, builtins).Ok? && func in DefineAll(ds, builtins).value
    requires forall d | d in ds :: QueryFree(d.1.body)
    requires |args| == |values| == |DefineAll(ds, builtins).value[func].parameters|
    requires forall i | 0 <= i < |args| :: QueryFree(args[i]) && values[i] == ValueOf(interp, vars, args[i])
    ensures var m := DefineAll(ds, builtins).value[func];
            var i := Find(ds, func);
            && i.Some? && |ds[i.value].1.parameters| == |args|
            && ds[i.value] in ds
            && QueryFree(Substitute(m.body, Bind(m.parameters, args)))
            && ValueOf(interp, vars, Substitute(m.body, Bind(m.parameters, args))) ==
               Meaning(interp, ds[..i.value], Bind(ds[i.value].1.parameters, values), ds[i.value].1.body)
    decreases |ds|, 0
  {
    var defs := DefineAll(ds, builtins).value;
    var m := defs[func];
    AllStored(ds, builtins);
    BodiesQueryFree(ds, builtins);
    StoredBody(ds, builtins, func);
    var i := Find(ds, func).value;
    assert ds[i] in ds;
    BoundEvaluates(interp, vars, m.parameters, args, values);
    SubstituteMeaning(interp, vars, m.body, m.parameters, Bind(m.parameters, args), Bind(m.parameters, values));
    ExpansionKeepsMeaning(interp, ds[..i], builtins, Bind(m.parameters, values), ds[i].1.body);
  }

  // --- programs ---

  datatype Statement = MacroStatement(name: string, macro: Macro) | QueryStatement(query: Query)

  /** The definitions of a program, in order. */
  function DefinitionsOf(program: seq<Statement>): seq<Definition> {
    if program == [] then []
    else
      var before, last := DefinitionsOf(program[..|program| - 1]), program[|program| - 1];
      if last.MacroStatement? then before + [(last.name, last.macro)] else before
  }

  /** Definitions are taken out, and every query is expanded under the definitions before it. */
  function ExpandProgram(program: seq<Statement>, builtins: set<string>): Result<(seq<Query>, Definitions), Error> {
    if program == [] then Ok(([], map[]))
    else
      var before := ExpandProgram(program[..|program| - 1], builtins);
      if before.Err? then before else
      match program[|program| - 1]
      case MacroStatement(name, macro) =>
        var defs := Define(before.value.1, name, macro, builtins);
        if defs.Err? then Err(defs.error) else Ok((before.value.0, defs.value))
      case QueryStatement(query) =>
        var expanded := ExpandQuery(query, before.value.1, builtins);
        if expanded.Err? then Err(expanded.error) else Ok((before.value.0 + [expanded.value], before.value.1))
  }

  /** An expanded program calls built-in functions only. */
  lemma {:induction false} ProgramMeaning(program: seq<Statement>, builtins: set<string>)
    requires ExpandProgram(program, builtins).Ok?
    ensures var (queries, defs) := ExpandProgram(program, builtins).value;
            && DefineAll(DefinitionsOf(program), builtins) == Ok(defs)
            && Stored(defs, builtins)
            && forall i | 0 <= i < |queries| :: QueryCallsAre(queries[i], IsBuiltin(builtins))
    decreases |program|
  {
    hide Expand, ExpandQuery, QueryCallsAre, Stored, Define;
    if program == [] {
      AllStored([], builtins);
    } else {
      var before, last := program[..|program| - 1], program[|program| - 1];
      ProgramMeaning(before, builtins);
      var defs := ExpandProgram(before, builtins).value.1;
      match last {
        case MacroStatement(name, macro) =>
          var ds := DefinitionsOf(before);
          assert DefinitionsOf(program) == ds + [(name, macro)];
          assert (ds + [(name, macro)])[..|ds|] == ds;
          DefineMeaning(defs, name, macro, builtins);
        case QueryStatement(query) =>
          ExpandQueryMeaning(query, defs, builtins);
      }
    }
  }

  /** Expands the statements of a program one by one. */
  class MacroExpander {
    const builtins: set<string>
    var definitions: Definitions

    constructor (names: set<string>)
      ensures builtins == names && definitions == map[]
    {
      builtins, definitions := names, map[];
    }

    method CheckParameters(parameters: seq<string>) returns (duplicate: Option<string>)
      ensures duplicate == FirstDuplicate(parameters)
    {
      var seen: set<string> := {};
      for i := 0 to |parameters|
        invariant seen == (set p | p in parameters[..i]) && FirstDuplicate(parameters[..i]).None?
      {
        assert parameters[..i + 1][..i] == parameters[..i];
        if parameters[i] in seen {
          DuplicateStays(parameters, i + 1);
          return Some(parameters[i]);
        }
        seen := seen + {parameters[i]};
      }
      assert parameters[..|parameters|] == parameters;
      return None;
    }

    method DefineMacro(name: string, m: Macro) returns (r: Option<Error>)
      modifies this
      ensures match r
              case None => Define(old(definitions), name, m, builtins) == Ok(definitions)
              case Some(error) => Define(old(definitions), name, m, builtins) == Err(error) && definitions == old(definitions)
    {
      if name in builtins || name == "count" {
        return Some(ConflictsWithBuiltin(name));
      }
      if name in definitions {
        return Some(DuplicateMacro(name));
      }
      var duplicate := CheckParameters(m.parameters);
      if duplicate.Some? {
        return Some(DuplicateParameter(duplicate.value));
      }
      var unknown := FirstUnknown(m.body, m.parameters);
      if unknown.Some? {
        return Some(UnknownParameter(unknown.value));
      }
      var body := Expand(m.body, definitions, builtins);
      if body.Err? {
        return Some(body.error);
      }
      definitions := definitions[name := Macro(m.parameters, body.value)];
      return None;
    }
  }

  lemma {:induction false} DuplicateStays(names: seq<string>, i: nat)
    requires i <= |names| && FirstDuplicate(names[..i]).Some?
    ensures FirstDuplicate(names) == FirstDuplicate(names[..i])
    decreases |names|
  {
    if i < |names| {
      assert names[..|names| - 1][..i] == names[..i];
      DuplicateStays(names[..|names| - 1], i);
    } else {
      assert names[..i] == names;
    }
  }

  lemma {:induction false} ErrorStays(program: seq<Statement>, builtins: set<string>, i: nat)
    requires i <= |program| && ExpandProgram(program[..i], builtins).Err?
    ensures ExpandProgram(program, builtins) == ExpandProgram(program[..i], builtins)
    decreases |program|
  {
    if i < |program| {
      assert program[..|program| - 1][..i] == program[..i];
      ErrorStays(program[..|program| - 1], builtins, i);
    } else {
      assert program[..i] == program;
    }
  }

  /** Expands a program, stopping at the first error. */
  method ExpandMacros(program: seq<Statement>, builtins: set<string>) returns (r: Result<seq<Query>, Error>)
    ensures match r
            case Ok(queries) =>
              && ExpandProgram(program, builtins).Ok? && ExpandProgram(program, builtins).value.0 == queries
              && forall i | 0 <= i < |queries| :: QueryCallsAre(queries[i], IsBuiltin(builtins))
            case Err(error) => ExpandProgram(program, builtins) == Err(error)
  {
    hide Define, Expand, ExpandQuery, QueryCallsAre, Stored;
    var expander := new MacroExpander(builtins);
    var queries: seq<Query> := [];
    for i := 0 to |program|
      invariant fresh(expander) && expander.builtins == builtins
      invariant ExpandProgram(program[..i], builtins) == Ok((queries, expander.definitions))
    {
      assert program[..i + 1][..i] == program[..i];
      match program[i] {
        case MacroStatement(name, macro) =>
          var error := expander.DefineMacro(name, macro);
          if error.Some? {
            ErrorStays(program, builtins, i + 1);
            return Err(error.value);
          }
        case QueryStatement(query) =>
          var expanded := ExpandQuery(query, expander.definitions, builtins);
          if expanded.Err? {
            ErrorStays(program, builtins, i + 1);
            return Err(expanded.error);
          }
          queries := queries + [expanded.value];
      }
    }
    assert program[..|program|] == program;
    ProgramMeaning(program, builtins);
    return Ok(queries);
  }
}
