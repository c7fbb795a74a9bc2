/** Planning: recording, for every operation and phase, the columns its readers need. */
module Planning {
  import opened Scalars
  import opened Relations
  import opened Plans

  class Requirements {
    const nodes: seq<Node>
    var required: Required
    ghost var roots: set<nat>

    ghost predicate Valid()
      reads this
    {
      && PlanOk(nodes) && |required| == |nodes|
      && Permitted(nodes, required)
      && Justified(nodes, required, roots)
    }

    constructor (plan: seq<Node>)
      requires PlanOk(plan)
      ensures Valid() && Closed(nodes, required) && nodes == plan
      ensures required == seq(|plan|, i => map[]) && roots == {}
    {
      nodes := plan;
      roots := {};
      required := seq(|plan|, i => map[]);
    }

    /** Merges fields into what is required of one operation in one phase. */
    method Merge(i: nat, phase: nat, fields: set<FieldId>)
      requires Valid() && i < |nodes| && MayAsk(nodes, i, phase, fields) && Needed(nodes, required, roots, i, phase)
      modifies `required
      ensures Valid() && Grows(old(required), required) && Recorded(required, i, phase, fields)
      ensures phase in required[i] && required == old(required)[i := Set(old(required)[i], phase, required[i][phase])]
      ensures required[i][phase] == fields + (if phase in old(required)[i] then old(required)[i][phase] else {})
    {
      hide OpOk, MinPhase, Needed, Justified, Permitted, Grows, MayAsk;
      var merged := fields + (if phase in required[i] then required[i][phase] else {});
      MergedMayAsk(nodes, required, i, phase, fields, merged);
      SetGrows(nodes, required, i, phase, merged);
      required := required[i := Set(required[i], phase, merged)];
      JustifiedSet(nodes, old(required), required, roots, roots, i, phase);
    }

    /** Asks an operation for fields in a phase, and its inputs for what it needs to deliver them. */
    method RequestOutput(i: nat, phase: nat, fields: set<FieldId>)
      requires Valid() && i < |nodes|
      requires MayAsk(nodes, i, phase, fields) && Needed(nodes, required, roots, i, phase)
      requires forall j :: 0 <= j <= i ==> ClosedNode(nodes, required, j)
      modifies `required
      ensures Valid() && Grows(old(required), required)
      ensures Recorded(required, i, phase, fields)
      ensures forall j :: 0 <= j <= i ==> ClosedNode(nodes, required, j)
      ensures forall j :: i < j < |nodes| ==> required[j] == old(required)[j]
      decreases i, 1
    {
      Merge(i, phase, fields);
      ghost var merged := required;
      forall j, p | 0 <= j <= i && p in required[j] && (j < i || p != phase)
        ensures ClosedAt(nodes, required, j, p)
      {
        assert ClosedNode(nodes, old(required), j);
        ClosedGrows(nodes, old(required), required, j, p);
      }
      Init(i, phase);
      GrowsTransitive(old(required), merged, required);
      assert Recorded(merged, i, phase, fields);
    }

    /** Asks every input of an operation for what one phase of it needs. */
    method Init(i: nat, phase: nat)
      requires Valid() && i < |nodes| && phase in required[i]
      requires forall j, p :: 0 <= j <= i && p in required[j] && (j < i || p != phase) ==> ClosedAt(nodes, required, j, p)
      modifies `required
      ensures Valid() && Grows(old(required), required)
      ensures forall j :: 0 <= j <= i ==> ClosedNode(nodes, required, j)
      ensures forall j :: i <= j < |nodes| ==> required[j] == old(required)[j]
      decreases i, 0
    {
      var fields := required[i][phase];
      assert NodeOk(nodes, i) && MayAsk(nodes, i, phase, fields);
      var k := 0;
      while k < |nodes[i].inputs|
        invariant 0 <= k <= |nodes[i].inputs|
        invariant Valid() && Grows(old(required), required)
        invariant forall j :: i <= j < |nodes| ==> required[j] == old(required)[j]
        invariant Progress(nodes, required, i, phase, fields, k)
      {
        hide OpOk, Permitted, AskedFields, InputPhase, MinPhase, MayAsk, Grows;
        ghost var before := required;
        AskInput(nodes, i, phase, fields, k);
        assert AskedBy(nodes, required, nodes[i].inputs[k], InputPhase(nodes, i, phase, k), i, phase, k);
        RequestOutput(nodes[i].inputs[k], InputPhase(nodes, i, phase, k), AskedFields(nodes, i, fields, k));
        GrowsTransitive(old(required), before, required);
        ProgressStep(nodes, before, required, i, phase, fields, k);
        k := k + 1;
      }
      ProgressDone(nodes, old(required), required, i, phase);
    }

    /** A query reads every column of its relation in the first phase that relation may run in. */
    method Query(i: nat)
      requires Valid() && i < |nodes| && Closed(nodes, required)
      modifies this
      ensures Valid() && Grows(old(required), required) && Closed(nodes, required)
      ensures Recorded(required, i, MinPhase(nodes, i), FieldSet(nodes[i].schema)) && roots == old(roots) + {i}
    {
      var phase := MinPhase(nodes, i);
      assert phase in required[i] ==> MayAsk(nodes, i, phase, required[i][phase]);
      SetGrows(nodes, required, i, phase, FieldSet(nodes[i].schema));
      roots := roots + {i};
      required := required[i := Set(required[i], phase, FieldSet(nodes[i].schema))];
      ghost var merged := required;
      JustifiedSet(nodes, old(required), required, old(roots), roots, i, phase);
      forall j, p | 0 <= j <= i && p in required[j] && (j < i || p != phase)
        ensures ClosedAt(nodes, required, j, p)
      {
        assert ClosedNode(nodes, old(required), j);
        ClosedGrows(nodes, old(required), required, j, p);
      }
      Init(i, phase);
      GrowsTransitive(old(required), merged, required);
      forall j | i < j < |nodes| ensures ClosedNode(nodes, required, j) {
        ClosedNodeGrows(nodes, old(required), required, j);
      }
      assert Recorded(merged, i, phase, FieldSet(nodes[i].schema));
    }

    /** Plans all queries of a program, in order. */
    method Queries(tops: seq<nat>)
      requires Valid() && Closed(nodes, required) && forall t :: 0 <= t < |tops| ==> tops[t] < |nodes|
      modifies this
      ensures Valid() && Closed(nodes, required) && roots == old(roots) + Members(tops)
      ensures TopsRecorded(nodes, required, tops)
    {
      hide OpOk, Permitted, MinPhase, Closed, Justified, Grows, Recorded;
      var t := 0;
      while t < |tops|
        invariant 0 <= t <= |tops|
        invariant Valid() && Closed(nodes, required)
        invariant roots == old(roots) + Members(tops[..t])
        invariant TopsRecorded(nodes, required, tops[..t])
      {
        ghost var before := required;
        Query(tops[t]);
        forall u | 0 <= u < t
          ensures Recorded(required, tops[u], MinPhase(nodes, tops[u]), FieldSet(nodes[tops[u]].schema))
        {
          RecordedGrows(before, required, tops[u], MinPhase(nodes, tops[u]), FieldSet(nodes[tops[u]].schema));
        }
        t := t + 1;
      }
      assert tops[..t] == tops;
    }
  }
}
