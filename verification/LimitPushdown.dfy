/** Moving row limits towards the leaves. */
module LimitPushdown {
  import opened Values
  import opened Sequences
  import opened Scalars
  import opened Relations
  import S = Sorting

  function LimitNode(source: Relation, limit: nat): Relation {
    Relation(LimitOp(limit), [source], source.schema)
  }

  /** Caps a relation at a limit: an existing limit or top-k is lowered, anything else is wrapped. */
  function EnsureLimited(limit: nat, node: Relation): Relation {
    match node.op
    case LimitOp(n) => if n > limit then node.(op := LimitOp(limit)) else node
    case TopKOp(order, desc, k) => if k > limit then node.(op := TopKOp(order, desc, limit)) else node
    case _ => LimitNode(node, limit)
  }

  function EnsureAllLimited(limit: nat, nodes: seq<Relation>): (rs: seq<Relation>)
    ensures |rs| == |nodes|
  {
    seq(|nodes|, i requires 0 <= i < |nodes| => EnsureLimited(limit, nodes[i]))
  }

  /** One step at a limit node whose source is `src`. */
  function PushLimit(limit: nat, src: Relation, self: Relation): Relation
    requires WellFormed(src)
  {
    match src.op
    case ProjectionOp(ps) => Relation(ProjectionOp(ps), [LimitNode(src.inputs[0], limit)], self.schema)
    case SortOp(order, desc) => Relation(TopKOp(order, desc, limit), src.inputs, self.schema)
    case LimitOp(n) => Relation(LimitOp(Min(limit, n)), src.inputs, self.schema)
    case TopKOp(order, desc, k) => Relation(TopKOp(order, desc, Min(limit, k)), src.inputs, self.schema)
    case UnionAllOp => self.(inputs := [src.(inputs := EnsureAllLimited(limit, src.inputs))])
    case MergeOp(_, _) => self.(inputs := [src.(inputs := EnsureAllLimited(limit, src.inputs))])
    case _ => self
  }

  /** The pass: inputs first, then the node itself when it is a limit. */
  function Pushdown(r: Relation): (q: Relation)
    requires WellFormed(r)
    ensures WellFormed(q) && q.schema == r.schema
    decreases r, 1
  {
    var p := PushdownInputs(r);
    if p.op.LimitOp? then
      PushLimitOk(p);
      PushLimit(p.op.limit, p.inputs[0], p)
    else p
  }

  function PushdownInputs(r: Relation): (q: Relation)
    requires WellFormed(r)
    ensures WellFormed(q) && q.schema == r.schema && q.op == r.op && |q.inputs| == |r.inputs|
    ensures forall i :: 0 <= i < |r.inputs| ==> q.inputs[i] == Pushdown(r.inputs[i])
    decreases r, 0
  {
    var qs := seq(|r.inputs|, i requires 0 <= i < |r.inputs| => Pushdown(r.inputs[i]));
    InputsKept(r, qs);
    r.(inputs := qs)
  }

  // --- well-formedness ---

  lemma LimitNodeOk(source: Relation, limit: nat)
    requires WellFormed(source)
    ensures WellFormed(LimitNode(source, limit))
  {
    assert Schemas([source]) == [source.schema];
    assert Distinct(source.schema);
  }

  lemma EnsureLimitedOk(limit: nat, node: Relation)
    requires WellFormed(node)
    ensures WellFormed(EnsureLimited(limit, node)) && EnsureLimited(limit, node).schema == node.schema
  {
    LimitNodeOk(node, limit);
  }

  lemma EnsureAllLimitedOk(limit: nat, src: Relation)
    requires WellFormed(src) && (src.op.UnionAllOp? || src.op.MergeOp?)
    ensures WellFormed(src.(inputs := EnsureAllLimited(limit, src.inputs)))
  {
    forall i | 0 <= i < |src.inputs|
      ensures WellFormed(EnsureLimited(limit, src.inputs[i]))
      ensures EnsureLimited(limit, src.inputs[i]).schema == src.inputs[i].schema
    {
      EnsureLimitedOk(limit, src.inputs[i]);
    }
    InputsKept(src, EnsureAllLimited(limit, src.inputs));
  }

  lemma LimitSource(r: Relation)
    requires WellFormed(r) && r.op.LimitOp?
    ensures |r.inputs| == 1 && WellFormed(r.inputs[0]) && r.schema == r.inputs[0].schema
  {
    assert Schemas(r.inputs)[0] == r.inputs[0].schema;
  }

  lemma PushLimitOk(r: Relation)
    requires WellFormed(r) && r.op.LimitOp?
    ensures |r.inputs| == 1 && WellFormed(r.inputs[0])
    ensures WellFormed(PushLimit(r.op.limit, r.inputs[0], r)) && PushLimit(r.op.limit, r.inputs[0], r).schema == r.schema
  {
    LimitSource(r);
    var src, limit := r.inputs[0], r.op.limit;
    match src.op {
      case ProjectionOp(_) =>
        LimitNodeOk(src.inputs[0], limit);
        assert Schemas([LimitNode(src.inputs[0], limit)]) == Schemas(src.inputs);
      case UnionAllOp =>
        EnsureAllLimitedOk(limit, src);
        InputsKept(r, [src.(inputs := EnsureAllLimited(limit, src.inputs))]);
      case MergeOp(_, _) =>
        EnsureAllLimitedOk(limit, src);
        InputsKept(r, [src.(inputs := EnsureAllLimited(limit, src.inputs))]);
      case _ =>
    }
  }

  // --- meaning ---

  lemma DenoteLimit(env: Env, r: Relation)
    requires WellFormed(r) && r.op.LimitOp?
    ensures |r.inputs| == 1
    ensures Denote(env, r) == Take(r.op.limit, Denote(env, r.inputs[0]))
  {
    Unfold(env, r);
  }

  /** The rows of a node with one input, from that input's rows. */
  lemma DenoteUnary(env: Env, r: Relation)
    requires WellFormed(r) && |r.inputs| == 1
    ensures Denote(env, r) == OpRows(env, r.op, r.schema, [r.inputs[0].schema], [Denote(env, r.inputs[0])])
  {
    Unfold(env, r);
    assert Schemas(r.inputs) == [r.inputs[0].schema];
    assert DenoteAll(env, r.inputs) == [Denote(env, r.inputs[0])];
  }

  lemma LowerCap(env: Env, limit: nat, node: Relation)
    requires WellFormed(node) && (node.op.LimitOp? || node.op.TopKOp?)
    ensures WellFormed(EnsureLimited(limit, node))
    ensures Denote(env, EnsureLimited(limit, node)) == Take(limit, Denote(env, node)) ||
            Denote(env, EnsureLimited(limit, node)) == Denote(env, node)
    ensures Take(limit, Denote(env, EnsureLimited(limit, node))) == Take(limit, Denote(env, node))
  {
    EnsureLimitedOk(limit, node);
    var q := EnsureLimited(limit, node);
    DenoteUnary(env, node);
    DenoteUnary(env, q);
    if node.op.TopKOp? {
      TakeTake(limit, node.op.topCount,
               S.Sort(KeyFn(env, node.inputs[0].schema, node.op.order), node.op.desc, Denote(env, node.inputs[0])));
    } else {
      TakeTake(limit, node.op.limit, Denote(env, node.inputs[0]));
    }
    TakeTake(limit, limit, Denote(env, node));
  }

  /** A capped relation is a prefix of the original that agrees with it up to the limit. */
  lemma EnsureLimitedMeaning(env: Env, limit: nat, node: Relation)
    requires Sound(env, node)
    ensures Sound(env, EnsureLimited(limit, node))
    ensures Denote(env, EnsureLimited(limit, node)) <= Denote(env, node)
    ensures Take(limit, Denote(env, EnsureLimited(limit, node))) == Take(limit, Denote(env, node))
  {
    EnsureLimitedOk(limit, node);
    var q := EnsureLimited(limit, node);
    if node.op.LimitOp? || node.op.TopKOp? {
      LowerCap(env, limit, node);
    } else {
      DenoteLimit(env, q);
      TakeTake(limit, limit, Denote(env, node));
    }
    SoundNode(env, q);
  }

  lemma PrefixSorted(key: Row -> Key, desc: bool, a: seq<Row>, b: seq<Row>)
    requires a <= b && S.Sorted(key, desc, b)
    ensures S.Sorted(key, desc, a)
  {
  }

  /** Under a limit, a union or a merge needs only the first rows of each input. */
  lemma OpLimited(env: Env, op: Op, s: Schema, ss: seq<Schema>, ins: seq<seq<Row>>, outs: seq<seq<Row>>, n: nat)
    requires op.UnionAllOp? || op.MergeOp?
    requires |ss| == |ins| == |outs| && ArityIs(op, |ins|)
    requires MergeInputsSorted(env, op, ss, ins)
    requires forall i :: 0 <= i < |ins| ==> outs[i] <= ins[i] && Take(n, outs[i]) == Take(n, ins[i])
    ensures MergeInputsSorted(env, op, ss, outs)
    ensures Take(n, OpRows(env, op, s, ss, outs)) == Take(n, OpRows(env, op, s, ss, ins))
  {
    match op {
      case UnionAllOp => TakeFlatten(n, outs, ins);
      case MergeOp(order, desc) =>
        var key := KeyFn(env, ss[0], order);
        S.TakeMerge(n, key, desc, outs[0], outs[1], ins[0], ins[1]);
        PrefixSorted(key, desc, outs[0], ins[0]);
        PrefixSorted(key, desc, outs[1], ins[1]);
    }
  }

  lemma LimitedMeaning(env: Env, src: Relation, limit: nat)
    requires Sound(env, src) && (src.op.UnionAllOp? || src.op.MergeOp?)
    ensures var q := src.(inputs := EnsureAllLimited(limit, src.inputs));
            && Sound(env, q)
            && Take(limit, Denote(env, q)) == Take(limit, Denote(env, src))
  {
    EnsureAllLimitedOk(limit, src);
    var qs := EnsureAllLimited(limit, src.inputs);
    var q := src.(inputs := qs);
    forall i | 0 <= i < |qs|
      ensures Sound(env, qs[i]) && qs[i].schema == src.inputs[i].schema
      ensures Denote(env, qs[i]) <= Denote(env, src.inputs[i])
      ensures Take(limit, Denote(env, qs[i])) == Take(limit, Denote(env, src.inputs[i]))
    {
      EnsureLimitedMeaning(env, limit, src.inputs[i]);
      EnsureLimitedOk(limit, src.inputs[i]);
    }
    assert Schemas(qs) == Schemas(src.inputs);
    Unfold(env, src);
    Unfold(env, q);
    OpLimited(env, src.op, src.schema, Schemas(src.inputs), DenoteAll(env, src.inputs), DenoteAll(env, qs), limit);
  }

  lemma TakeMap(f: Row -> Row, n: nat, rows: seq<Row>)
    ensures Take(n, Map(f, rows)) == Map(f, Take(n, rows))
  {
  }

  lemma PushProjection(env: Env, r: Relation)
    requires Sound(env, r) && r.op.LimitOp? && |r.inputs| == 1 && r.inputs[0].op.ProjectionOp?
    ensures Replaces(env, PushLimit(r.op.limit, r.inputs[0], r), r)
  {
    PushLimitOk(r);
    var src, q := r.inputs[0], PushLimit(r.op.limit, r.inputs[0], r);
    LimitSource(r);
    DenoteLimit(env, r);
    DenoteUnary(env, src);
    DenoteUnary(env, q);
    DenoteLimit(env, q.inputs[0]);
    SoundNode(env, q.inputs[0]);
    SoundNode(env, q);
    TakeMap(ProjectFn(env, src.inputs[0].schema, src.op.projectors), r.op.limit, Denote(env, src.inputs[0]));
  }

  /** Limit over sort, limit or top-k: one node over the same input. */
  lemma PushUnary(env: Env, r: Relation)
    requires Sound(env, r) && r.op.LimitOp? && |r.inputs| == 1
    requires r.inputs[0].op.SortOp? || r.inputs[0].op.LimitOp? || r.inputs[0].op.TopKOp?
    ensures Replaces(env, PushLimit(r.op.limit, r.inputs[0], r), r)
  {
    PushLimitOk(r);
    var src, q := r.inputs[0], PushLimit(r.op.limit, r.inputs[0], r);
    LimitSource(r);
    DenoteLimit(env, r);
    DenoteUnary(env, src);
    DenoteUnary(env, q);
    SoundNode(env, q);
    var rows := Denote(env, src.inputs[0]);
    match src.op {
      case SortOp(_, _) =>
      case LimitOp(n) => TakeTake(r.op.limit, n, rows);
      case TopKOp(order, desc, k) =>
        TakeTake(r.op.limit, k, S.Sort(KeyFn(env, src.inputs[0].schema, order), desc, rows));
    }
  }

  lemma PushNary(env: Env, r: Relation)
    requires Sound(env, r) && r.op.LimitOp? && |r.inputs| == 1
    requires r.inputs[0].op.UnionAllOp? || r.inputs[0].op.MergeOp?
    ensures Replaces(env, PushLimit(r.op.limit, r.inputs[0], r), r)
  {
    PushLimitOk(r);
    var q := PushLimit(r.op.limit, r.inputs[0], r);
    LimitedMeaning(env, r.inputs[0], r.op.limit);
    DenoteLimit(env, r);
    DenoteLimit(env, q);
    SoundNode(env, q);
  }

  /** The pass preserves meaning for every sound tree: same columns, same rows, same order. */
  lemma {:induction false} PushdownMeaning(env: Env, r: Relation)
    requires Sound(env, r)
    ensures Replaces(env, Pushdown(r), r)
    decreases r
  {
    forall i | 0 <= i < |r.inputs| ensures Replaces(env, Pushdown(r.inputs[i]), r.inputs[i]) {
      PushdownMeaning(env, r.inputs[i]);
    }
    var p := PushdownInputs(r);
    Congruence(env, r, p.inputs);
    assert Replaces(env, p, r);
    if p.op.LimitOp? {
      LimitSource(p);
      var src := p.inputs[0].op;
      if src.ProjectionOp? {
        PushProjection(env, p);
      } else if src.SortOp? || src.LimitOp? || src.TopKOp? {
        PushUnary(env, p);
      } else if src.UnionAllOp? || src.MergeOp? {
        PushNary(env, p);
      }
    }
  }
}
