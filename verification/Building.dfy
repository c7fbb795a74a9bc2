/** Building the physical operations of a plan, and how they are connected. */
module Building {
  import opened Relations
  import opened Plans

  /**
   * How built operations are connected: rows stream between operations of one phase, fill a state
   * (a hash table, the rows of a materialized relation, an aggregate), or are read from a state.
   */
  datatype Link =
    | Streams(source: nat, reader: nat, phase: nat)
    | Fills(source: nat, phase: nat, state: nat)
    | Reads(state: nat, phase: nat)

  /** Input `k` fills a state of the operation instead of streaming into it. */
  predicate FillsState(op: Op, k: nat) {
    op.AggregateOp? || op.MaterializeOp? || IsBuildSide(op, k)
  }

  predicate HasState(op: Op) {
    op.AggregateOp? || op.MaterializeOp? || op.LeftJoinOp? || op.SemiJoinOp? || op.MarkJoinOp?
  }

  /** The operation built for this phase reads the state: joins always, collectors only in later phases. */
  predicate ReadsState(nodes: seq<Node>, i: nat, phase: nat)
    requires PlanOk(nodes) && i < |nodes|
  {
    && HasState(nodes[i].op)
    && (nodes[i].op.AggregateOp? || nodes[i].op.MaterializeOp? ==> phase != MinPhase(nodes, i))
  }

  /** A link is one the plan asks for. */
  ghost predicate LinkOk(nodes: seq<Node>, r: Required, l: Link)
    requires PlanOk(nodes) && |r| == |nodes|
  {
    match l
    case Streams(source, reader, phase) => source < |nodes| && reader < |nodes| && phase in r[source] && phase in r[reader]
    case Fills(source, phase, state) =>
      && source < |nodes| && state < |nodes| && phase in r[source]
      && exists k :: 0 <= k < |nodes[state].inputs| && nodes[state].inputs[k] == source &&
           FillsState(nodes[state].op, k) && phase == InputPhase(nodes, state, phase, k)
    case Reads(state, phase) => state < |nodes| && phase in r[state] && ReadsState(nodes, state, phase)
  }

  lemma InputBuilt(nodes: seq<Node>, r: Required, i: nat, phase: nat, k: nat)
    requires PlanOk(nodes) && |r| == |nodes| && Closed(nodes, r) && i < |nodes| && phase in r[i] && k < |nodes[i].inputs|
    ensures nodes[i].inputs[k] < i && InputPhase(nodes, i, phase, k) in r[nodes[i].inputs[k]]
  {
    assert NodeOk(nodes, i);
    assert ClosedNode(nodes, r, i);
    assert Asked(nodes, r, i, phase, r[i][phase], k);
  }

  /** Every state of the operation is filled by the input it comes from. */
  ghost predicate AllFilled(nodes: seq<Node>, r: Required, links: seq<Link>, i: nat)
    requires PlanOk(nodes) && |r| == |nodes| && i < |nodes|
  {
    forall k, p :: 0 <= k < |nodes[i].inputs| && FillsState(nodes[i].op, k) && p in r[i] ==>
      Fills(nodes[i].inputs[k], InputPhase(nodes, i, p, k), i) in links
  }

  /** In every phase of the operation its other inputs stream into it. */
  ghost predicate AllStreamed(nodes: seq<Node>, r: Required, links: seq<Link>, i: nat, phases: set<nat>)
    requires PlanOk(nodes) && |r| == |nodes| && i < |nodes|
  {
    forall k, p :: 0 <= k < |nodes[i].inputs| && !FillsState(nodes[i].op, k) && p in phases ==>
      Streams(nodes[i].inputs[k], i, p) in links
  }

  /** In every phase of the operation that reads its state, it is known to. */
  ghost predicate AllRead(nodes: seq<Node>, r: Required, links: seq<Link>, i: nat, phases: set<nat>)
    requires PlanOk(nodes) && |r| == |nodes| && i < |nodes|
  {
    forall p :: p in phases && ReadsState(nodes, i, p) ==> Reads(i, p) in links
  }

  ghost predicate Connected(nodes: seq<Node>, r: Required, links: seq<Link>, i: nat)
    requires PlanOk(nodes) && |r| == |nodes| && i < |nodes|
  {
    && AllFilled(nodes, r, links, i)
    && AllStreamed(nodes, r, links, i, r[i].Keys)
    && AllRead(nodes, r, links, i, r[i].Keys)
  }

  lemma ConnectedGrows(nodes: seq<Node>, r: Required, links: seq<Link>, more: seq<Link>, i: nat)
    requires PlanOk(nodes) && |r| == |nodes| && i < |nodes| && links <= more
    ensures AllFilled(nodes, r, links, i) ==> AllFilled(nodes, r, more, i)
    ensures Connected(nodes, r, links, i) ==> Connected(nodes, r, more, i)
    ensures forall ps: set<nat> :: AllStreamed(nodes, r, links, i, ps) ==> AllStreamed(nodes, r, more, i, ps)
    ensures forall ps: set<nat> :: AllRead(nodes, r, links, i, ps) ==> AllRead(nodes, r, more, i, ps)
  {
    hide InputPhase, ReadsState, PlanOk;
    forall l: Link | l in links ensures l in more {
    }
  }

  lemma AllStreamedNone(nodes: seq<Node>, r: Required, links: seq<Link>, i: nat)
    requires PlanOk(nodes) && |r| == |nodes| && i < |nodes|
    ensures AllStreamed(nodes, r, links, i, {}) && AllRead(nodes, r, links, i, {})
  {
  }

  lemma ReadIs(nodes: seq<Node>, r: Required, links: seq<Link>, i: nat, phase: nat)
    requires PlanOk(nodes) && |r| == |nodes| && i < |nodes| && (ReadsState(nodes, i, phase) ==> Reads(i, phase) in links)
    ensures AllRead(nodes, r, links, i, {phase})
  {
  }

  lemma PhaseStreamed(nodes: seq<Node>, r: Required, links: seq<Link>, i: nat, phases: set<nat>, phase: nat)
    requires PlanOk(nodes) && |r| == |nodes| && i < |nodes|
    requires AllStreamed(nodes, r, links, i, phases) && AllStreamed(nodes, r, links, i, {phase})
    requires AllRead(nodes, r, links, i, phases) && AllRead(nodes, r, links, i, {phase})
    ensures AllStreamed(nodes, r, links, i, phases + {phase}) && AllRead(nodes, r, links, i, phases + {phase})
  {
    hide ReadsState, PlanOk;
  }

  lemma ReadsOk(nodes: seq<Node>, r: Required, i: nat, phase: nat)
    requires PlanOk(nodes) && |r| == |nodes| && i < |nodes| && phase in r[i] && ReadsState(nodes, i, phase)
    ensures LinkOk(nodes, r, Reads(i, phase))
  {
  }

  lemma StreamsOk(nodes: seq<Node>, r: Required, i: nat, phase: nat, k: nat)
    requires PlanOk(nodes) && |r| == |nodes| && Closed(nodes, r) && i < |nodes| && phase in r[i]
    requires k < |nodes[i].inputs| && !FillsState(nodes[i].op, k)
    ensures nodes[i].inputs[k] < |nodes| && phase in r[nodes[i].inputs[k]]
    ensures LinkOk(nodes, r, Streams(nodes[i].inputs[k], i, phase))
  {
    hide Closed;
    InputBuilt(nodes, r, i, phase, k);
    assert InputPhase(nodes, i, phase, k) == phase;
  }

  lemma FillsOk(nodes: seq<Node>, r: Required, i: nat, phase: nat, k: nat)
    requires PlanOk(nodes) && |r| == |nodes| && Closed(nodes, r) && i < |nodes| && phase in r[i]
    requires k < |nodes[i].inputs| && FillsState(nodes[i].op, k)
    ensures nodes[i].inputs[k] < |nodes| && InputPhase(nodes, i, phase, k) in r[nodes[i].inputs[k]]
    ensures LinkOk(nodes, r, Fills(nodes[i].inputs[k], InputPhase(nodes, i, phase, k), i))
    ensures forall p :: InputPhase(nodes, i, p, k) == InputPhase(nodes, i, phase, k)
  {
    hide Closed;
    InputBuilt(nodes, r, i, phase, k);
  }

  ghost predicate LinksOk(nodes: seq<Node>, r: Required, links: seq<Link>)
    requires PlanOk(nodes) && |r| == |nodes|
  {
    forall n :: 0 <= n < |links| ==> LinkOk(nodes, r, links[n])
  }

  /** Everything built is connected, and so are its inputs. */
  ghost predicate AllConnected(nodes: seq<Node>, r: Required, links: seq<Link>, built: set<nat>)
    requires PlanOk(nodes) && |r| == |nodes|
  {
    && (forall j :: j in built ==> j < |nodes| && Connected(nodes, r, links, j))
    && (forall j, k :: j in built && 0 <= k < |nodes[j].inputs| ==> nodes[j].inputs[k] in built)
  }

  lemma LinkAdded(nodes: seq<Node>, r: Required, links: seq<Link>, built: set<nat>, l: Link)
    requires PlanOk(nodes) && |r| == |nodes| && LinksOk(nodes, r, links) && LinkOk(nodes, r, l)
    requires AllConnected(nodes, r, links, built)
    ensures LinksOk(nodes, r, links + [l]) && AllConnected(nodes, r, links + [l], built)
  {
    hide PlanOk, Connected, LinkOk;
    forall j | j in built ensures Connected(nodes, r, links + [l], j) {
      ConnectedGrows(nodes, r, links, links + [l], j);
    }
  }

  lemma OpConnected(nodes: seq<Node>, r: Required, links: seq<Link>, built: set<nat>, i: nat)
    requires PlanOk(nodes) && |r| == |nodes| && i < |nodes| && AllConnected(nodes, r, links, built)
    requires AllFilled(nodes, r, links, i)
    requires AllStreamed(nodes, r, links, i, r[i].Keys) && AllRead(nodes, r, links, i, r[i].Keys)
    requires forall k :: 0 <= k < |nodes[i].inputs| ==> nodes[i].inputs[k] in built
    ensures AllConnected(nodes, r, links, built + {i})
  {
    hide PlanOk, AllFilled, AllStreamed, AllRead;
  }

  class Builder {
    const nodes: seq<Node>
    const required: Required
    var built: set<nat>
    var ops: set<(nat, nat)>
    var links: seq<Link>

    /** The operation `i` has been built for the phases in `done` only; those in `built` for all of theirs. */
    ghost predicate Partial(i: nat, done: set<nat>)
      reads this
    {
      && PlanOk(nodes) && |required| == |nodes| && Closed(nodes, required)
      && i !in built
      && LinksOk(nodes, required, links) && AllConnected(nodes, required, links, built)
      && (forall j :: j in built ==> j < |nodes|)
      && (forall j, p :: (j, p) in ops <==> (j in built && p in required[j]) || (j == i && p in done))
    }

    ghost predicate Valid()
      reads this
    {
      && PlanOk(nodes) && |required| == |nodes| && Closed(nodes, required)
      && LinksOk(nodes, required, links) && AllConnected(nodes, required, links, built)
      && (forall j :: j in built ==> j < |nodes|)
      && (forall j, p :: (j, p) in ops <==> j in built && p in required[j])
    }

    constructor (nodes': seq<Node>, required': Required)
      requires PlanOk(nodes') && |required'| == |nodes'| && Closed(nodes', required')
      ensures Valid() && nodes == nodes' && required == required' && built == {} && links == []
    {
      nodes, required := nodes', required';
      built, ops, links := {}, {}, [];
    }

    /**
     * Records one link of the operation being built. Subscribing to an operation that was not built for
     * that phase is an error.
     */
    method Note(i: nat, l: Link, ghost done: set<nat>)
      requires Partial(i, done) && LinkOk(nodes, required, l)
      requires !l.Reads? ==> (l.source, l.phase) in ops
      modifies `links
      ensures Partial(i, done) && links == old(links) + [l]
    {
      LinkAdded(nodes, required, links, built, l);
      links := links + [l];
    }

    /** Registers an operation for a phase; doing so twice is an error. */
    method Insert(i: nat, phase: nat)
      requires (i, phase) !in ops
      modifies `ops
      ensures ops == old(ops) + {(i, phase)}
    {
      ops := ops + {(i, phase)};
    }

    /** Builds an operation for every phase it runs in, after its inputs. */
    method Build(i: nat)
      requires Valid() && i < |nodes| && required[i] != map[]
      modifies this
      ensures Valid() && i in built && old(built) <= built && old(links) <= links
      ensures forall j :: j in built && j !in old(built) ==> j <= i
      decreases i
    {
      hide OpOk, Closed, LinksOk, AllConnected, InputPhase, MinPhase, AllFilled, AllStreamed, AllRead;
      assert NodeOk(nodes, i);
      if i in built {
        return;
      }
      var k := 0;
      while k < |nodes[i].inputs|
        invariant 0 <= k <= |nodes[i].inputs|
        invariant Valid() && old(built) <= built && old(links) <= links
        invariant forall j :: j in built && j !in old(built) ==> j < i
        invariant forall n :: 0 <= n < k ==> nodes[i].inputs[n] in built
      {
        var phase :| phase in required[i];
        InputBuilt(nodes, required, i, phase, k);
        Build(nodes[i].inputs[k]);
        k := k + 1;
      }
      FillStates(i);
      ghost var filled := links;
      BuildPhases(i);
      ConnectedGrows(nodes, required, filled, links, i);
      OpConnected(nodes, required, links, built, i);
      built := built + {i};
    }

    /** Subscribes the states of an operation to the inputs that fill them. */
    method FillStates(i: nat)
      requires Partial(i, {}) && i < |nodes| && required[i] != map[]
      requires forall k :: 0 <= k < |nodes[i].inputs| ==> nodes[i].inputs[k] in built
      modifies `links
      ensures Partial(i, {}) && old(links) <= links
      ensures AllFilled(nodes, required, links, i)
    {
      hide OpOk, Closed, LinkOk, LinksOk, AllConnected, InputPhase, MinPhase, PlanOk, FillsState;
      var phase :| phase in required[i];
      var k := 0;
      while k < |nodes[i].inputs|
        invariant 0 <= k <= |nodes[i].inputs|
        invariant Partial(i, {}) && old(links) <= links
        invariant forall n, p :: 0 <= n < k && FillsState(nodes[i].op, n) && p in required[i] ==>
          Fills(nodes[i].inputs[n], InputPhase(nodes, i, p, n), i) in links
      {
        if FillsState(nodes[i].op, k) {
          FillsOk(nodes, required, i, phase, k);
          var child, p := nodes[i].inputs[k], InputPhase(nodes, i, phase, k);
          assert (child, p) in ops;
          Note(i, Fills(child, p, i), {});
        }
        k := k + 1;
      }
    }

    /** Builds the operation for each of its phases and connects it to its inputs there. */
    method BuildPhases(i: nat)
      requires Partial(i, {}) && i < |nodes|
      requires forall k :: 0 <= k < |nodes[i].inputs| ==> nodes[i].inputs[k] in built
      modifies `links, `ops
      ensures Partial(i, required[i].Keys) && old(links) <= links
      ensures AllStreamed(nodes, required, links, i, required[i].Keys) && AllRead(nodes, required, links, i, required[i].Keys)
    {
      hide OpOk, Closed, LinkOk, LinksOk, AllConnected, InputPhase, Connected, PlanOk, ReadsState, AllStreamed, AllRead;
      AllStreamedNone(nodes, required, links, i);
      var todo := required[i].Keys;
      assert required[i].Keys - todo == {};
      while todo != {}
        invariant todo <= required[i].Keys
        invariant Partial(i, required[i].Keys - todo) && old(links) <= links
        invariant AllStreamed(nodes, required, links, i, required[i].Keys - todo)
        invariant AllRead(nodes, required, links, i, required[i].Keys - todo)
        decreases todo
      {
        var phase :| phase in todo;
        ghost var done, before := required[i].Keys - todo, links;
        StreamInputs(i, phase, done);
        ghost var streamed := links;
        if ReadsState(nodes, i, phase) {
          ReadsOk(nodes, required, i, phase);
          Note(i, Reads(i, phase), done);
        }
        ReadIs(nodes, required, links, i, phase);
        ConnectedGrows(nodes, required, streamed, links, i);
        ConnectedGrows(nodes, required, before, links, i);
        PhaseStreamed(nodes, required, links, i, done, phase);
        Insert(i, phase);
        assert required[i].Keys - (todo - {phase}) == done + {phase};
        todo := todo - {phase};
      }
      assert required[i].Keys - todo == required[i].Keys;
    }

    method StreamInputs(i: nat, phase: nat, ghost done: set<nat>)
      requires Partial(i, done) && i < |nodes| && phase in required[i]
      requires forall k :: 0 <= k < |nodes[i].inputs| ==> nodes[i].inputs[k] in built
      modifies `links
      ensures Partial(i, done) && old(links) <= links && AllStreamed(nodes, required, links, i, {phase})
    {
      hide OpOk, Closed, LinkOk, LinksOk, AllConnected, InputPhase, MinPhase, PlanOk, FillsState;
      var k := 0;
      while k < |nodes[i].inputs|
        invariant 0 <= k <= |nodes[i].inputs|
        invariant Partial(i, done) && old(links) <= links
        invariant forall n :: 0 <= n < k && !FillsState(nodes[i].op, n) ==> Streams(nodes[i].inputs[n], i, phase) in links
      {
        if !FillsState(nodes[i].op, k) {
          StreamsOk(nodes, required, i, phase, k);
          assert (nodes[i].inputs[k], phase) in ops;
          Note(i, Streams(nodes[i].inputs[k], i, phase), done);
        }
        k := k + 1;
      }
    }
  }

  /** The phase a state is filled in lies strictly before every phase it is read in. */
  lemma StateReadAfterFilled(nodes: seq<Node>, r: Required, fill: Link, read: Link)
    requires PlanOk(nodes) && |r| == |nodes| && Permitted(nodes, r)
    requires fill.Fills? && read.Reads? && fill.state == read.state
    requires LinkOk(nodes, r, fill) && LinkOk(nodes, r, read)
    ensures fill.phase < read.phase
  {
    var i := read.state;
    assert MayAsk(nodes, i, read.phase, r[i][read.phase]);
    var k :| 0 <= k < |nodes[i].inputs| && nodes[i].inputs[k] == fill.source &&
      FillsState(nodes[i].op, k) && fill.phase == InputPhase(nodes, i, fill.phase, k);
    MinPhaseBounds(nodes, i, k);
  }

  /** A join runs in no phase before its build side, asked for in that side's own phase, is complete. */
  lemma JoinRunsAfterBuild(nodes: seq<Node>, r: Required, i: nat, phase: nat)
    requires PlanOk(nodes) && |r| == |nodes| && Closed(nodes, r) && Permitted(nodes, r)
    requires i < |nodes| && phase in r[i]
    requires nodes[i].op.LeftJoinOp? || nodes[i].op.SemiJoinOp? || nodes[i].op.MarkJoinOp?
    ensures |nodes[i].inputs| == 2
    ensures var build := nodes[i].inputs[1];
            && build < i
            && MinPhase(nodes, build) in r[build]
            && MinPhase(nodes, build) < MinPhase(nodes, i) <= phase
  {
    assert NodeOk(nodes, i);
    assert MayAsk(nodes, i, phase, r[i][phase]);
    InputBuilt(nodes, r, i, phase, 1);
    MinPhaseBounds(nodes, i, 1);
  }

  // --- all queries ---

  /** Building all queries of a plan: every lookup finds its operation and nothing is built twice. */
  method BuildAll(nodes: seq<Node>, required: Required, tops: seq<nat>) returns (b: Builder)
    requires PlanOk(nodes) && |required| == |nodes| && Closed(nodes, required)
    requires TopsRecorded(nodes, required, tops)
    ensures fresh(b) && b.Valid() && b.nodes == nodes && b.required == required
    ensures forall t :: 0 <= t < |tops| ==> tops[t] in b.built && (tops[t], MinPhase(nodes, tops[t])) in b.ops
  {
    hide OpOk, Closed, LinksOk, AllConnected, MinPhase;
    b := new Builder(nodes, required);
    var t := 0;
    while t < |tops|
      invariant 0 <= t <= |tops|
      invariant b.Valid() && b.nodes == nodes && b.required == required && fresh(b)
      invariant forall u :: 0 <= u < t ==> tops[u] in b.built
    {
      b.Build(tops[t]);
      t := t + 1;
    }
  }

  /** Building the queries builds everything the planner recorded. */
  lemma {:induction false} AllBuilt(b: Builder, roots: set<nat>, i: nat)
    requires b.Valid() && Justified(b.nodes, b.required, roots) && roots <= b.built
    requires i < |b.nodes| && b.required[i] != map[]
    ensures i in b.built
    decreases |b.nodes| - i
  {
    hide OpOk, Closed, LinkOk, Connected, MinPhase, InputPhase;
    var nodes, r := b.nodes, b.required;
    var phase :| phase in r[i];
    assert Needed(nodes, r, roots, i, phase);
    if i !in roots {
      var j: nat, q: nat, k: nat :| AskedBy(nodes, r, i, phase, j, q, k);
      assert NodeOk(nodes, j);
      AllBuilt(b, roots, j);
    }
  }
}
