/** Planning a program: relations become operations, and references to a named relation share its operation. */
module Lowering {
  import opened Values
  import opened Sequences
  import opened Wrappers
  import opened Scalars
  import opened Relations
  import opened Plans
  import opened Pruning
  import EmptyPrune

  // --- plans only grow ---

  lemma {:induction false} FullStable(env: Env, nodes: seq<Node>, more: seq<Node>, i: nat)
    requires PlanOk(nodes) && PlanOk(more) && nodes <= more && i < |nodes|
    ensures Full(env, more, i) == Full(env, nodes, i)
    decreases i
  {
    assert NodeOk(nodes, i) && NodeOk(more, i);
    forall k | 0 <= k < |nodes[i].inputs|
      ensures FullInputs(env, more, i)[k] == FullInputs(env, nodes, i)[k]
    {
      FullStable(env, nodes, more, nodes[i].inputs[k]);
    }
    assert InSchemas(nodes, i) == InSchemas(more, i);
    assert FullInputs(env, more, i) == FullInputs(env, nodes, i);
  }

  lemma {:induction false} FullFits(env: Env, nodes: seq<Node>, i: nat)
    requires PlanOk(nodes) && i < |nodes|
    ensures RowsFit(Full(env, nodes, i), |nodes[i].schema|)
    decreases i
  {
    assert NodeOk(nodes, i);
    forall k | 0 <= k < |nodes[i].inputs|
      ensures RowsFit(FullInputs(env, nodes, i)[k], |InSchemas(nodes, i)[k]|)
    {
      FullFits(env, nodes, nodes[i].inputs[k]);
    }
    OpRowsFit(env, nodes[i].op, nodes[i].schema, InSchemas(nodes, i), FullInputs(env, nodes, i));
  }

  /** Appending an operation whose inputs stand for a node's input relations. */
  lemma AppendNode(env: Env, nodes: seq<Node>, r: Relation, ins: seq<nat>)
    requires PlanOk(nodes) && WellFormed(r) && !r.op.NamedOp? && |ins| == |r.inputs|
    requires forall k :: 0 <= k < |ins| ==>
      ins[k] < |nodes| && nodes[ins[k]].schema == r.inputs[k].schema && Full(env, nodes, ins[k]) == Denote(env, r.inputs[k])
    ensures var more := nodes + [Node(r.op, ins, r.schema)];
            PlanOk(more) && Full(env, more, |nodes|) == Denote(env, r)
  {
    var more, n := nodes + [Node(r.op, ins, r.schema)], |nodes|;
    forall i | 0 <= i < |more| ensures NodeOk(more, i) {
      if i < n {
        assert NodeOk(nodes, i);
        assert InSchemas(more, i) == InSchemas(nodes, i);
      } else {
        assert InSchemas(more, n) == Schemas(r.inputs);
      }
    }
    assert NodeOk(more, n);
    forall k | 0 <= k < |ins| ensures FullInputs(env, more, n)[k] == DenoteAll(env, r.inputs)[k] {
      FullStable(env, nodes, more, ins[k]);
    }
    assert FullInputs(env, more, n) == DenoteAll(env, r.inputs);
    Unfold(env, r);
  }

  // --- relations ---

  type Names = map<string, nat>

  /** Every name stands for an operation of the plan with the rows the environment gives it. */
  ghost predicate NamesOk(env: Env, nodes: seq<Node>, named: Names)
    requires PlanOk(nodes)
  {
    forall n :: n in named ==> named[n] < |nodes| && Full(env, nodes, named[n]) == env.named(n)
  }

  /** The schema of a resolved reference is the schema of the relation it refers to. */
  predicate RefsFit(nodes: seq<Node>, named: Names, r: Relation) {
    && (r.op.NamedOp? && r.op.name in named && named[r.op.name] < |nodes| ==> nodes[named[r.op.name]].schema == r.schema)
    && forall k :: 0 <= k < |r.inputs| ==> RefsFit(nodes, named, r.inputs[k])
  }

  predicate Resolved(names: set<string>, r: Relation) {
    && (r.op.NamedOp? ==> r.op.name in names)
    && forall k :: 0 <= k < |r.inputs| ==> Resolved(names, r.inputs[k])
  }

  lemma NamesGrow(env: Env, nodes: seq<Node>, more: seq<Node>, named: Names)
    requires PlanOk(nodes) && PlanOk(more) && nodes <= more && NamesOk(env, nodes, named)
    ensures NamesOk(env, more, named)
  {
    forall n | n in named ensures named[n] < |more| && Full(env, more, named[n]) == env.named(n) {
      FullStable(env, nodes, more, named[n]);
    }
  }

  lemma {:induction false} RefsGrow(nodes: seq<Node>, more: seq<Node>, named: Names, r: Relation)
    requires nodes <= more && RefsFit(nodes, named, r)
    requires forall n :: n in named ==> named[n] < |nodes|
    ensures RefsFit(more, named, r)
  {
    forall k | 0 <= k < |r.inputs| ensures RefsFit(more, named, r.inputs[k]) {
      RefsGrow(nodes, more, named, r.inputs[k]);
    }
  }

  lemma DenoteReference(env: Env, r: Relation)
    requires WellFormed(r) && r.op.NamedOp?
    ensures Denote(env, r) == Map(PadFn(|r.schema|), env.named(r.op.name))
  {
    Unfold(env, r);
  }

  lemma PadIdentity(rows: seq<Row>, n: nat)
    requires RowsFit(rows, n)
    ensures Map(PadFn(n), rows) == rows
  {
    forall i | 0 <= i < |rows| ensures Pad(rows[i], n) == rows[i] {
    }
  }

  /** A reference has the rows of the operation it names. */
  lemma ReferenceMeaning(env: Env, nodes: seq<Node>, named: Names, r: Relation)
    requires PlanOk(nodes) && NamesOk(env, nodes, named) && WellFormed(r) && r.op.NamedOp? && r.op.name in named
    requires RefsFit(nodes, named, r)
    ensures named[r.op.name] < |nodes| && nodes[named[r.op.name]].schema == r.schema
    ensures Full(env, nodes, named[r.op.name]) == Denote(env, r)
  {
    hide OpOk, OpRows, PlanOk, Full, Denote;
    FullFits(env, nodes, named[r.op.name]);
    DenoteReference(env, r);
    PadIdentity(env.named(r.op.name), |r.schema|);
  }

  /** What planning one relation achieves: an operation with its columns and its rows, in a larger plan. */
  ghost predicate Planned(env: Env, nodes: seq<Node>, more: seq<Node>, i: nat, r: Relation)
    requires WellFormed(r)
  {
    && nodes <= more && PlanOk(more) && i < |more|
    && more[i].schema == r.schema && Full(env, more, i) == Denote(env, r)
  }

  class PlanBuilder {
    var nodes: seq<Node>
    var named: Names

    constructor ()
      ensures nodes == [] && named == map[]
    {
      nodes, named := [], map[];
    }

    ghost predicate Valid(env: Env)
      reads this
    {
      PlanOk(nodes) && NamesOk(env, nodes, named)
    }

    /** Plans a relation; it fails exactly when some reference is unknown. */
    method PlanRelation(r: Relation, ghost env: Env) returns (res: Option<nat>)
      requires Valid(env) && WellFormed(r) && RefsFit(nodes, named, r)
      modifies `nodes
      ensures Valid(env) && old(nodes) <= nodes
      ensures res.Some? <==> Resolved(named.Keys, r)
      ensures res.Some? ==> Planned(env, old(nodes), nodes, res.value, r)
      ensures CountsPositive(old(nodes)) && EmptyPrune.NoZeroCount(r) ==> CountsPositive(nodes)
      decreases r, 1
    {
      if r.op.NamedOp? {
        assert r.inputs == [];
        if r.op.name !in named {
          return None;
        }
        ReferenceMeaning(env, nodes, named, r);
        return Some(named[r.op.name]);
      }
      var ins := PlanInputs(r, env);
      if ins.None? {
        return None;
      }
      ghost var before := nodes;
      AppendNode(env, nodes, r, ins.value);
      nodes := nodes + [Node(r.op, ins.value, r.schema)];
      NamesGrow(env, before, nodes, named);
      res := Some(|nodes| - 1);
    }

    /** Plans the inputs of a node, first to last. */
    method PlanInputs(r: Relation, ghost env: Env) returns (res: Option<seq<nat>>)
      requires Valid(env) && WellFormed(r) && RefsFit(nodes, named, r)
      modifies `nodes
      ensures Valid(env) && old(nodes) <= nodes
      ensures res.Some? <==> forall k :: 0 <= k < |r.inputs| ==> Resolved(named.Keys, r.inputs[k])
      ensures res.Some? ==> |res.value| == |r.inputs| && InputsPlanned(env, old(nodes), nodes, res.value, r)
      ensures CountsPositive(old(nodes)) && EmptyPrune.NoZeroCount(r) ==> CountsPositive(nodes)
      decreases r, 0
    {
      hide CountsPositive, EmptyPrune.NoZeroCount, PlanOk, Planned;
      var ins: seq<nat> := [];
      while |ins| < |r.inputs|
        invariant |ins| <= |r.inputs|
        invariant Valid(env) && old(nodes) <= nodes && RefsFit(nodes, named, r)
        invariant forall k :: 0 <= k < |ins| ==> Resolved(named.Keys, r.inputs[k])
        invariant InputsPlanned(env, old(nodes), nodes, ins, r)
        invariant CountsPositive(old(nodes)) && EmptyPrune.NoZeroCount(r) ==> CountsPositive(nodes)
      {
        ghost var before := nodes;
        InputFacts(nodes, named, r, |ins|);
        hide WellFormed, PlanOk, InputsPlanned, Planned, RefsFit, Resolved;
        var i := PlanRelation(r.inputs[|ins|], env);
        if i.None? {
          return None;
        }
        InputsPlannedStep(env, old(nodes), before, nodes, ins, i.value, r);
        RefsGrow(before, nodes, named, r);
        ins := ins + [i.value];
      }
      res := Some(ins);
    }
  }

  /** The first inputs of a node have been planned. */
  ghost predicate InputsPlanned(env: Env, nodes: seq<Node>, more: seq<Node>, ins: seq<nat>, r: Relation)
    requires WellFormed(r)
  {
    |ins| <= |r.inputs| && forall k :: 0 <= k < |ins| ==> Planned(env, nodes, more, ins[k], r.inputs[k])
  }

  lemma InputFacts(nodes: seq<Node>, named: Names, r: Relation, k: nat)
    requires WellFormed(r) && RefsFit(nodes, named, r) && k < |r.inputs|
    ensures WellFormed(r.inputs[k]) && RefsFit(nodes, named, r.inputs[k])
    ensures EmptyPrune.NoZeroCount(r) ==> EmptyPrune.NoZeroCount(r.inputs[k])
  {
  }

  lemma InputsPlannedStep(env: Env, nodes: seq<Node>, more: seq<Node>, most: seq<Node>, ins: seq<nat>, i: nat, r: Relation)
    requires WellFormed(r) && |ins| < |r.inputs| && InputsPlanned(env, nodes, more, ins, r)
    requires nodes <= more && WellFormed(r.inputs[|ins|]) && Planned(env, more, most, i, r.inputs[|ins|])
    ensures InputsPlanned(env, nodes, most, ins + [i], r)
  {
    hide OpOk, OpRows, Full, Denote;
    forall k | 0 <= k < |ins| ensures Planned(env, nodes, most, ins[k], r.inputs[k]) {
      assert Planned(env, nodes, more, ins[k], r.inputs[k]);
      FullStable(env, more, most, ins[k]);
    }
  }
}
