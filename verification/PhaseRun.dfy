/** Running built operations phase by phase: what fills the states, and what is read from them. */
module PhaseRun {
  import opened Values
  import opened Wrappers
  import opened Scalars
  import opened Relations
  import opened Plans
  import opened Pruning
  import opened Arrivals
  import opened Building

  // --- collecting ---

  /** The receiving end of a link that fills a state: linked until it declines a record or sees the end. */
  datatype Collector = Collector(collected: seq<Row>, linked: bool, finished: bool)

  /** One call. A collector that does not keep its link is dropped at the first row; the end finishes the state. */
  function Feed(keeps: bool, c: Collector, record: Option<Row>): Collector {
    if !c.linked then c
    else match record
      case Some(row) => Collector(c.collected + [row], keeps, false)
      case None => Collector(c.collected, false, true)
  }

  function FeedRows(keeps: bool, rows: seq<Row>): Collector {
    if rows == [] then Collector([], true, false)
    else Feed(keeps, FeedRows(keeps, rows[..|rows| - 1]), Some(rows[|rows| - 1]))
  }

  /** A whole stream: its rows, then the end. */
  function FeedAll(keeps: bool, rows: seq<Row>): Collector {
    Feed(keeps, FeedRows(keeps, rows), None)
  }

  lemma {:induction false} FeedRowsIs(keeps: bool, rows: seq<Row>)
    ensures var c := FeedRows(keeps, rows);
            !c.finished && (c.linked <==> keeps || rows == []) && (c.linked ==> c.collected == rows)
  {
    if rows != [] {
      FeedRowsIs(keeps, rows[..|rows| - 1]);
    }
  }

  /** A collector sees the end, with every row collected, exactly when it keeps its link or there is no row. */
  lemma FeedAllIs(keeps: bool, rows: seq<Row>)
    ensures FeedAll(keeps, rows).finished <==> keeps || rows == []
    ensures FeedAll(keeps, rows).finished ==> FeedAll(keeps, rows).collected == rows
  {
    FeedRowsIs(keeps, rows);
  }

  // --- states ---

  /**
   * The state of an operation: what it holds once the end of its input was seen. It is lost if it was filled by
   * an operation that read a value that was not there.
   */
  datatype Status = Unfinished | Finished(rows: seq<Row>) | Lost

  type States = seq<Status>

  /** Somebody subscribed to the operation as built for this phase: another operation, a state, or a query's sink. */
  predicate Subscribed(nodes: seq<Node>, links: seq<Link>, roots: set<nat>, i: nat, phase: nat)
    requires PlanOk(nodes) && i < |nodes|
  {
    || (i in roots && phase == MinPhase(nodes, i))
    || exists n :: 0 <= n < |links| && !links[n].Reads? && links[n].source == i && links[n].phase == phase
  }

  /** A collector of an aggregate keeps its link while somebody is subscribed; every other collector until the end. */
  predicate KeepsLink(nodes: seq<Node>, links: seq<Link>, roots: set<nat>, i: nat)
    requires PlanOk(nodes) && i < |nodes|
  {
    nodes[i].op.AggregateOp? ==> Subscribed(nodes, links, roots, i, MinPhase(nodes, i))
  }

  /** What a finished state holds: rows, or the values of the aggregates over them. */
  function Held(env: Env, nodes: seq<Node>, i: nat, rows: seq<Row>): seq<Row>
    requires PlanOk(nodes) && i < |nodes|
  {
    assert NodeOk(nodes, i);
    if nodes[i].op.AggregateOp? then [AggregateRow(env, InSchemas(nodes, i)[0], rows, nodes[i].op.aggregates)] else rows
  }

  /** A link that fills the state of `i` in this phase. */
  function FillOf(links: seq<Link>, i: nat, phase: nat): (l: Option<Link>)
    ensures l.Some? ==> l.value in links && l.value.Fills? && l.value.state == i && l.value.phase == phase
    ensures l.None? ==> forall n :: 0 <= n < |links| ==> !(links[n].Fills? && links[n].state == i && links[n].phase == phase)
  {
    if links == [] then None
    else
      var last := links[|links| - 1];
      if last.Fills? && last.state == i && last.phase == phase then Some(last)
      else FillOf(links[..|links| - 1], i, phase)
  }

  // --- emitting ---

  /** What an operation does in a phase: it emits rows, or reads a missing value, or an unfinished state. */
  datatype Emission = Emits(rows: seq<Row>) | MissingValue | NotFinished

  /** A state is handed on if it is finished. One that never was is an aggregate without values, or an error. */
  function FromState(op: Op, required: set<FieldId>, status: Status): Emission {
    match status
    case Finished(rows) => Emits(rows)
    case Lost => MissingValue
    case Unfinished => if op.AggregateOp? then ToEmission(WithoutValues(op.aggregates, required)) else NotFinished
  }

  function ToEmission(rows: Option<seq<Row>>): Emission {
    match rows
    case Some(rows) => Emits(rows)
    case None => MissingValue
  }

  /** Collectors in later phases than their own are replaced by emitters of their state. */
  predicate IsEmitter(nodes: seq<Node>, i: nat, phase: nat)
    requires PlanOk(nodes) && i < |nodes|
  {
    (nodes[i].op.AggregateOp? || nodes[i].op.MaterializeOp?) && phase != MinPhase(nodes, i)
  }

  /**
   * What the operation built for a phase emits in that phase, given the states finished in earlier phases. It
   * gets nowhere if it would read an unfinished hash table or an unfinished materialization.
   */
  function Emitted(nodes: seq<Node>, r: Required, arrival: Arrival, states: States, i: nat, phase: nat): Emission
    requires PlanOk(nodes) && |r| == |nodes| == |states| && Closed(nodes, r) && i < |nodes| && phase in r[i]
    decreases i, 1
  {
    assert NodeOk(nodes, i);
    if IsEmitter(nodes, i, phase) then FromState(nodes[i].op, r[i][phase], states[i])
    else
      var ins := EmittedInputs(nodes, r, arrival, states, i, phase);
      if AllEmit(ins) then Emits(arrival(TurnOf(nodes, r, i, phase, EmittedRows(ins))))
      else if NotFinished in ins then NotFinished
      else MissingValue
  }

  predicate AllEmit(ins: seq<Emission>) {
    forall k :: 0 <= k < |ins| ==> ins[k].Emits?
  }

  function EmittedRows(ins: seq<Emission>): (rows: seq<seq<Row>>)
    requires AllEmit(ins)
    ensures |rows| == |ins| && forall k :: 0 <= k < |ins| ==> rows[k] == ins[k].rows
  {
    seq(|ins|, k requires 0 <= k < |ins| => ins[k].rows)
  }

  /** A join probes its hash table; every other input streams in. */
  function EmittedInputs(nodes: seq<Node>, r: Required, arrival: Arrival, states: States, i: nat, phase: nat): (ins: seq<Emission>)
    requires PlanOk(nodes) && |r| == |nodes| == |states| && Closed(nodes, r) && i < |nodes| && phase in r[i]
    requires !IsEmitter(nodes, i, phase)
    ensures |ins| == |nodes[i].inputs|
    decreases i, 0
  {
    InputsBuilt(nodes, r, i, phase);
    seq(|nodes[i].inputs|, k requires 0 <= k < |nodes[i].inputs| =>
      if IsBuildSide(nodes[i].op, k) then FromState(nodes[i].op, r[i][phase], states[i])
      else Emitted(nodes, r, arrival, states, nodes[i].inputs[k], phase))
  }

  // --- running ---

  /** A plan whose recorded operations were all built and connected; queries read the operations in `roots`. */
  ghost predicate ProgramBuilt(nodes: seq<Node>, r: Required, links: seq<Link>, roots: set<nat>) {
    && PlanOk(nodes) && |r| == |nodes|
    && Closed(nodes, r) && Permitted(nodes, r) && Justified(nodes, r, roots)
    && LinksOk(nodes, r, links)
    && (forall i :: 0 <= i < |nodes| && r[i] != map[] ==> Connected(nodes, r, links, i))
    && (forall t :: t in roots ==> t < |nodes| && MinPhase(nodes, t) in r[t])
  }

  /** Building the queries of a justified plan builds such a program. */
  lemma BuilderBuilt(b: Builder, tops: seq<nat>)
    requires b.Valid() && Permitted(b.nodes, b.required) && Justified(b.nodes, b.required, Members(tops))
    requires TopsRecorded(b.nodes, b.required, tops) && forall t :: 0 <= t < |tops| ==> tops[t] in b.built
    ensures ProgramBuilt(b.nodes, b.required, b.links, Members(tops))
  {
    hide OpOk, PlanOk, Closed, LinksOk, Connected, MinPhase, Permitted, Justified;
    forall i | 0 <= i < |b.nodes| && b.required[i] != map[] ensures Connected(b.nodes, b.required, b.links, i) {
      AllBuilt(b, Members(tops), i);
    }
  }

  /** What one phase makes of a state: a link of this phase that fills it is exhausted. */
  function After(env: Env, nodes: seq<Node>, r: Required, arrival: Arrival, links: seq<Link>, roots: set<nat>, states: States,
                 i: nat, phase: nat): Status
    requires PlanOk(nodes) && |r| == |nodes| == |states| && Closed(nodes, r) && LinksOk(nodes, r, links) && i < |nodes|
  {
    var fill := FillOf(links, i, phase);
    if fill.None? then states[i]
    else
      assert LinkOk(nodes, r, fill.value);
      match Emitted(nodes, r, arrival, states, fill.value.source, phase)
      case NotFinished => states[i]
      case MissingValue => Lost
      case Emits(rows) =>
        var c := FeedAll(KeepsLink(nodes, links, roots, i), rows);
        if c.finished then Finished(Held(env, nodes, i, c.collected)) else Unfinished
  }

  /** One phase: all its links are exhausted before the next phase begins. */
  function RunPhase(env: Env, nodes: seq<Node>, r: Required, arrival: Arrival, links: seq<Link>, roots: set<nat>, states: States,
                    phase: nat): (after: States)
    requires PlanOk(nodes) && |r| == |nodes| == |states| && Closed(nodes, r) && LinksOk(nodes, r, links)
    ensures |after| == |nodes|
  {
    seq(|nodes|, i requires 0 <= i < |nodes| => After(env, nodes, r, arrival, links, roots, states, i, phase))
  }

  /** The states when a phase begins. */
  function RunTo(env: Env, nodes: seq<Node>, r: Required, arrival: Arrival, links: seq<Link>, roots: set<nat>, phase: nat): (states: States)
    requires PlanOk(nodes) && |r| == |nodes| && Closed(nodes, r) && LinksOk(nodes, r, links)
    ensures |states| == |nodes|
  {
    if phase == 0 then seq(|nodes|, _ => Unfinished)
    else RunPhase(env, nodes, r, arrival, links, roots, RunTo(env, nodes, r, arrival, links, roots, phase - 1), phase - 1)
  }

  // --- subscriptions ---

  /** An operation was built for exactly the phases somebody subscribed to it in. */
  lemma SubscribedExactly(nodes: seq<Node>, r: Required, links: seq<Link>, roots: set<nat>, i: nat, phase: nat)
    requires ProgramBuilt(nodes, r, links, roots) && i < |nodes|
    ensures Subscribed(nodes, links, roots, i, phase) <==> phase in r[i]
  {
    hide OpOk, PlanOk, Closed, MinPhase, InputPhase, Permitted;
    if phase in r[i] {
      assert Needed(nodes, r, roots, i, phase);
      if !(i in roots && phase == MinPhase(nodes, i)) {
        var j: nat, q: nat, k: nat :| AskedBy(nodes, r, i, phase, j, q, k);
        ReaderLinked(nodes, r, links, j, q, k);
      }
    }
    forall n | 0 <= n < |links| && !links[n].Reads? && links[n].source == i && links[n].phase == phase
      ensures phase in r[i]
    {
      assert LinkOk(nodes, r, links[n]);
    }
  }

  lemma ReaderLinked(nodes: seq<Node>, r: Required, links: seq<Link>, j: nat, q: nat, k: nat)
    requires PlanOk(nodes) && |r| == |nodes| && j < |nodes| && q in r[j] && k < |nodes[j].inputs| && Connected(nodes, r, links, j)
    ensures exists n :: 0 <= n < |links| && !links[n].Reads? && links[n].source == nodes[j].inputs[k] &&
              links[n].phase == InputPhase(nodes, j, q, k)
  {
    hide OpOk, PlanOk, MinPhase;
    var l := if FillsState(nodes[j].op, k) then Fills(nodes[j].inputs[k], InputPhase(nodes, j, q, k), j)
             else Streams(nodes[j].inputs[k], j, q);
    assert l in links;
    var n :| 0 <= n < |links| && links[n] == l;
  }

  // --- the input that fills a state ---

  function FillSlot(op: Op): nat
    requires HasState(op)
  {
    if op.AggregateOp? || op.MaterializeOp? then 0 else 1
  }

  lemma FillSlotIs(nodes: seq<Node>, i: nat)
    requires PlanOk(nodes) && i < |nodes|
    ensures forall k :: 0 <= k < |nodes[i].inputs| && FillsState(nodes[i].op, k) ==>
              HasState(nodes[i].op) && k == FillSlot(nodes[i].op)
    ensures HasState(nodes[i].op) ==> FillSlot(nodes[i].op) < |nodes[i].inputs| && FillsState(nodes[i].op, FillSlot(nodes[i].op))
  {
    assert NodeOk(nodes, i);
  }

  /** The operation that fills a state. */
  function FillSource(nodes: seq<Node>, i: nat): (source: nat)
    requires PlanOk(nodes) && i < |nodes| && HasState(nodes[i].op)
    ensures source < i
  {
    FillSlotIs(nodes, i);
    assert NodeOk(nodes, i);
    nodes[i].inputs[FillSlot(nodes[i].op)]
  }

  /** The phase a state is filled in. */
  function FillPhase(nodes: seq<Node>, i: nat): nat
    requires PlanOk(nodes) && i < |nodes| && HasState(nodes[i].op)
  {
    if nodes[i].op.AggregateOp? || nodes[i].op.MaterializeOp? then MinPhase(nodes, i) else MinPhase(nodes, FillSource(nodes, i))
  }

  lemma FillPhaseAsked(nodes: seq<Node>, i: nat, phase: nat)
    requires PlanOk(nodes) && i < |nodes| && HasState(nodes[i].op)
    ensures FillSlot(nodes[i].op) < |nodes[i].inputs| && InputPhase(nodes, i, phase, FillSlot(nodes[i].op)) == FillPhase(nodes, i)
  {
    hide MinPhase;
    FillSlotIs(nodes, i);
    assert NodeOk(nodes, i);
  }

  /** What fills a built state was built for the phase it fills the state in. */
  lemma FillBuilt(nodes: seq<Node>, r: Required, i: nat)
    requires PlanOk(nodes) && |r| == |nodes| && Closed(nodes, r) && i < |nodes| && HasState(nodes[i].op) && r[i] != map[]
    ensures FillPhase(nodes, i) in r[FillSource(nodes, i)]
  {
    hide OpOk, PlanOk, Closed, MinPhase;
    var phase :| phase in r[i];
    FillPhaseAsked(nodes, i, phase);
    InputsBuilt(nodes, r, i, phase);
  }

  /** Links that fill a state come from that operation, in that phase. */
  lemma FillOfIs(nodes: seq<Node>, r: Required, links: seq<Link>, i: nat, phase: nat)
    requires PlanOk(nodes) && |r| == |nodes| && LinksOk(nodes, r, links) && i < |nodes| && HasState(nodes[i].op)
    requires r[i] != map[] && Connected(nodes, r, links, i)
    ensures FillOf(links, i, phase) ==
            if phase == FillPhase(nodes, i) then Some(Fills(FillSource(nodes, i), phase, i)) else None
  {
    hide OpOk, PlanOk, MinPhase;
    FillSlotIs(nodes, i);
    FillPhaseAsked(nodes, i, phase);
    var p :| p in r[i];
    FillPhaseAsked(nodes, i, p);
    assert Fills(FillSource(nodes, i), FillPhase(nodes, i), i) in links;
    var l := FillOf(links, i, phase);
    if l.Some? {
      assert LinkOk(nodes, r, l.value);
      var k :| 0 <= k < |nodes[i].inputs| && nodes[i].inputs[k] == l.value.source &&
        FillsState(nodes[i].op, k) && phase == InputPhase(nodes, i, phase, k);
    }
  }

  // --- the run is right ---

  /** The rows a state is filled from. */
  function FillRows(nodes: seq<Node>, r: Required, arrival: Arrival, i: nat): Option<seq<Row>>
    requires PlanOk(nodes) && |r| == |nodes| && Closed(nodes, r) && i < |nodes| && HasState(nodes[i].op) && r[i] != map[]
  {
    FillBuilt(nodes, r, i);
    Pruned(nodes, r, arrival, FillSource(nodes, i), FillPhase(nodes, i))
  }

  /** A state is finished, unless it is an aggregate's that is not read in its own phase and has rows to stop at. */
  predicate Finishes(nodes: seq<Node>, r: Required, i: nat, rows: seq<Row>)
    requires PlanOk(nodes) && |r| == |nodes| && i < |nodes|
  {
    nodes[i].op.AggregateOp? ==> MinPhase(nodes, i) in r[i] || rows == []
  }

  /** What a state is once the phase that fills it is over. */
  function FilledState(env: Env, nodes: seq<Node>, r: Required, arrival: Arrival, i: nat): Status
    requires PlanOk(nodes) && |r| == |nodes| && Closed(nodes, r) && i < |nodes| && HasState(nodes[i].op) && r[i] != map[]
  {
    match FillRows(nodes, r, arrival, i)
    case None => Lost
    case Some(rows) => if Finishes(nodes, r, i, rows) then Finished(Held(env, nodes, i, rows)) else Unfinished
  }

  /** When a phase begins, exactly the states filled in earlier phases are filled, with what they hold. */
  ghost predicate StateRight(env: Env, nodes: seq<Node>, r: Required, arrival: Arrival, states: States, i: nat, phase: nat)
    requires PlanOk(nodes) && |r| == |nodes| == |states| && Closed(nodes, r) && i < |nodes|
  {
    HasState(nodes[i].op) && r[i] != map[] ==>
      states[i] == if FillPhase(nodes, i) < phase then FilledState(env, nodes, r, arrival, i) else Unfinished
  }

  ghost predicate StatesRight(env: Env, nodes: seq<Node>, r: Required, arrival: Arrival, states: States, phase: nat)
    requires PlanOk(nodes) && |r| == |nodes| == |states| && Closed(nodes, r)
  {
    forall i :: 0 <= i < |nodes| ==> StateRight(env, nodes, r, arrival, states, i, phase)
  }

  lemma MayRun(nodes: seq<Node>, r: Required, i: nat, phase: nat)
    requires PlanOk(nodes) && |r| == |nodes| && Permitted(nodes, r) && i < |nodes| && phase in r[i]
    ensures MinPhase(nodes, i) <= phase
  {
    assert MayAsk(nodes, i, phase, r[i][phase]);
  }

  /** A collector hands on what it holds in its own phase too. */
  lemma HeldIs(env: Env, nodes: seq<Node>, r: Required, arrival: Arrival, i: nat, phase: nat, rows: seq<Row>)
    requires PlanOk(nodes) && |r| == |nodes| && i < |nodes| && phase in r[i] && Honest(env, arrival)
    requires nodes[i].op.AggregateOp? || nodes[i].op.MaterializeOp?
    ensures arrival(TurnOf(nodes, r, i, phase, [rows])) == Held(env, nodes, i, rows)
  {
    assert NodeOk(nodes, i);
    var t := TurnOf(nodes, r, i, phase, [rows]);
    assert TurnOk(t);
    assert MayEmit(env, t, arrival(t));
  }

  /** An emitter hands on what the pruned plan says. */
  lemma EmitterRight(env: Env, nodes: seq<Node>, r: Required, arrival: Arrival, states: States, i: nat, phase: nat)
    requires PlanOk(nodes) && |r| == |nodes| == |states| && Closed(nodes, r) && Permitted(nodes, r) && Honest(env, arrival)
    requires i < |nodes| && phase in r[i] && IsEmitter(nodes, i, phase) && StateRight(env, nodes, r, arrival, states, i, phase)
    ensures FromState(nodes[i].op, r[i][phase], states[i]) == ToEmission(Pruned(nodes, r, arrival, i, phase))
  {
    hide OpOk, PlanOk, Closed, MinPhase, Held, InputPhase, Permitted, Honest, WithoutValues, Pruned, FillRows;
    MayRun(nodes, r, i, phase);
    CollectorRows(nodes, r, arrival, i, phase);
    var rows := FillRows(nodes, r, arrival, i);
    if rows.Some? {
      HeldIs(env, nodes, r, arrival, i, phase, rows.value);
    }
  }

  /** What the pruned plan says of a collector. */
  lemma CollectorRows(nodes: seq<Node>, r: Required, arrival: Arrival, i: nat, phase: nat)
    requires PlanOk(nodes) && |r| == |nodes| && Closed(nodes, r) && i < |nodes| && phase in r[i]
    requires nodes[i].op.AggregateOp? || nodes[i].op.MaterializeOp?
    ensures FillPhase(nodes, i) == MinPhase(nodes, i)
    ensures Pruned(nodes, r, arrival, i, phase) ==
            match FillRows(nodes, r, arrival, i)
            case None => None
            case Some(rows) =>
              if Finishes(nodes, r, i, rows) then Some(arrival(TurnOf(nodes, r, i, phase, [rows])))
              else WithoutValues(nodes[i].op.aggregates, r[i][phase])
  {
    hide OpOk, PlanOk, Closed, MinPhase, InputPhase, WithoutValues;
    FillPhaseAsked(nodes, i, phase);
    var rows, ins := FillRows(nodes, r, arrival, i), PrunedInputs(nodes, r, arrival, i, phase);
    assert NodeOk(nodes, i) && |ins| == 1 by {
      OneInput(nodes, i);
    }
    assert ins == [rows];
    if rows.Some? {
      assert RowsOf(ins) == [rows.value];
    }
  }

  lemma OneInput(nodes: seq<Node>, i: nat)
    requires PlanOk(nodes) && i < |nodes| && (nodes[i].op.AggregateOp? || nodes[i].op.MaterializeOp?)
    ensures NodeOk(nodes, i) && |nodes[i].inputs| == 1
  {
    assert NodeOk(nodes, i);
  }

  /** A join finds its hash table finished. */
  lemma BuildSideRight(env: Env, nodes: seq<Node>, r: Required, arrival: Arrival, states: States, i: nat, phase: nat)
    requires PlanOk(nodes) && |r| == |nodes| == |states| && Closed(nodes, r) && Permitted(nodes, r)
    requires i < |nodes| && phase in r[i] && |nodes[i].inputs| > 1 && IsBuildSide(nodes[i].op, 1)
    requires StateRight(env, nodes, r, arrival, states, i, phase)
    ensures FromState(nodes[i].op, r[i][phase], states[i]) == ToEmission(PrunedInputs(nodes, r, arrival, i, phase)[1])
  {
    hide OpOk, PlanOk, Closed, MinPhase, Permitted;
    MayRun(nodes, r, i, phase);
    FillPhaseAsked(nodes, i, phase);
    MinPhaseBounds(nodes, i, 1);
  }

  /** In every phase every operation built for it emits the rows of the pruned plan, and finds the states it reads. */
  lemma {:induction false} EmittedRight(env: Env, nodes: seq<Node>, r: Required, arrival: Arrival, states: States, i: nat, phase: nat)
    requires PlanOk(nodes) && |r| == |nodes| == |states| && Closed(nodes, r) && Permitted(nodes, r) && Honest(env, arrival)
    requires StatesRight(env, nodes, r, arrival, states, phase) && i < |nodes| && phase in r[i]
    ensures Emitted(nodes, r, arrival, states, i, phase) == ToEmission(Pruned(nodes, r, arrival, i, phase))
    decreases i
  {
    hide OpOk, Closed, MinPhase, FromState, StateRight, Permitted, Honest, WithoutValues;
    assert NodeOk(nodes, i);
    assert StateRight(env, nodes, r, arrival, states, i, phase);
    if IsEmitter(nodes, i, phase) {
      EmitterRight(env, nodes, r, arrival, states, i, phase);
    } else {
      InputsBuilt(nodes, r, i, phase);
      var ins, pruned := EmittedInputs(nodes, r, arrival, states, i, phase), PrunedInputs(nodes, r, arrival, i, phase);
      forall k | 0 <= k < |ins| ensures ins[k] == ToEmission(pruned[k]) {
        if IsBuildSide(nodes[i].op, k) {
          BuildSideRight(env, nodes, r, arrival, states, i, phase);
        } else {
          EmittedRight(env, nodes, r, arrival, states, nodes[i].inputs[k], phase);
        }
      }
      InputsKnown(ins, pruned);
      RunsInTime(nodes, r, i, phase);
    }
  }

  /** What is known of the inputs is what they emit. */
  lemma InputsKnown(ins: seq<Emission>, pruned: seq<Option<seq<Row>>>)
    requires |ins| == |pruned| && forall k :: 0 <= k < |ins| ==> ins[k] == ToEmission(pruned[k])
    ensures NotFinished !in ins && (AllEmit(ins) <==> AllKnown(pruned))
    ensures AllKnown(pruned) ==> EmittedRows(ins) == RowsOf(pruned)
  {
  }

  /** An operation that is no emitter runs in its own phase if it is an aggregate. */
  lemma RunsInTime(nodes: seq<Node>, r: Required, i: nat, phase: nat)
    requires PlanOk(nodes) && |r| == |nodes| && i < |nodes| && phase in r[i] && !IsEmitter(nodes, i, phase)
    ensures nodes[i].op.AggregateOp? ==> MinPhase(nodes, i) in r[i]
  {
  }

  lemma AfterRight(env: Env, nodes: seq<Node>, r: Required, arrival: Arrival, links: seq<Link>, roots: set<nat>, states: States,
                   i: nat, phase: nat)
    requires ProgramBuilt(nodes, r, links, roots) && Honest(env, arrival) && |states| == |nodes| && i < |nodes|
    requires StatesRight(env, nodes, r, arrival, states, phase)
    ensures StateRight(env, nodes, r, arrival, RunPhase(env, nodes, r, arrival, links, roots, states, phase), i, phase + 1)
  {
    hide OpOk, PlanOk, Closed, MinPhase, Emitted, Pruned, Permitted, LinksOk, Connected, Justified, Honest;
    assert StateRight(env, nodes, r, arrival, states, i, phase);
    if HasState(nodes[i].op) && r[i] != map[] {
      FillOfIs(nodes, r, links, i, phase);
      if phase == FillPhase(nodes, i) {
        FillBuilt(nodes, r, i);
        EmittedRight(env, nodes, r, arrival, states, FillSource(nodes, i), phase);
        SubscribedExactly(nodes, r, links, roots, i, MinPhase(nodes, i));
        var rows := FillRows(nodes, r, arrival, i);
        if rows.Some? {
          FeedAllIs(KeepsLink(nodes, links, roots, i), rows.value);
        }
      }
    }
  }

  /** Running the phases in order keeps every state right. */
  lemma {:induction false} RunRight(env: Env, nodes: seq<Node>, r: Required, arrival: Arrival, links: seq<Link>, roots: set<nat>,
                                    phase: nat)
    requires ProgramBuilt(nodes, r, links, roots) && Honest(env, arrival)
    ensures StatesRight(env, nodes, r, arrival, RunTo(env, nodes, r, arrival, links, roots, phase), phase)
    decreases phase
  {
    hide PlanOk, Closed, Permitted, LinksOk, Justified, Connected, RunPhase, StateRight, Honest;
    if phase > 0 {
      RunRight(env, nodes, r, arrival, links, roots, phase - 1);
      forall i | 0 <= i < |nodes|
        ensures StateRight(env, nodes, r, arrival, RunTo(env, nodes, r, arrival, links, roots, phase), i, phase)
      {
        AfterRight(env, nodes, r, arrival, links, roots, RunTo(env, nodes, r, arrival, links, roots, phase - 1), i, phase - 1);
      }
    } else {
      NothingFinished(env, nodes, r, arrival);
    }
  }

  lemma NothingFinished(env: Env, nodes: seq<Node>, r: Required, arrival: Arrival)
    requires PlanOk(nodes) && |r| == |nodes| && Closed(nodes, r)
    ensures StatesRight(env, nodes, r, arrival, seq(|nodes|, _ => Unfinished), 0)
  {
    hide PlanOk, Closed, FillPhase, FilledState;
  }

  /**
   * Whenever an operation reads a state, its phase finds the state filled, with all rows that were emitted to it;
   * the only states left unfinished are those of aggregates that nobody reads in their own phase and that have an
   * input row to stop at.
   */
  lemma ReadsFinishedState(env: Env, nodes: seq<Node>, r: Required, arrival: Arrival, links: seq<Link>, roots: set<nat>, read: Link)
    requires ProgramBuilt(nodes, r, links, roots) && Honest(env, arrival) && read in links && read.Reads?
    ensures read.state < |nodes| && HasState(nodes[read.state].op) && r[read.state] != map[]
    ensures RunTo(env, nodes, r, arrival, links, roots, read.phase)[read.state] == FilledState(env, nodes, r, arrival, read.state)
  {
    hide PlanOk, Closed, Permitted, Justified, Connected, FilledState, RunTo, MinPhase, Honest;
    var i := read.state;
    assert LinkOk(nodes, r, read);
    RunRight(env, nodes, r, arrival, links, roots, read.phase);
    assert StateRight(env, nodes, r, arrival, RunTo(env, nodes, r, arrival, links, roots, read.phase), i, read.phase);
    ReadAfterFill(nodes, r, i, read.phase);
  }

  /** A state is filled in an earlier phase than any it is read in. */
  lemma ReadAfterFill(nodes: seq<Node>, r: Required, i: nat, phase: nat)
    requires PlanOk(nodes) && |r| == |nodes| && Permitted(nodes, r) && i < |nodes| && phase in r[i] && ReadsState(nodes, i, phase)
    ensures FillPhase(nodes, i) < phase
  {
    hide OpOk, MinPhase;
    assert MayAsk(nodes, i, phase, r[i][phase]);
    FillSlotIs(nodes, i);
    MinPhaseBounds(nodes, i, FillSlot(nodes[i].op));
  }

  // --- a whole run ---

  function FirstPhases(nodes: seq<Node>, tops: seq<nat>): (ps: seq<nat>)
    requires PlanOk(nodes) && forall t :: 0 <= t < |tops| ==> tops[t] < |nodes|
    ensures |ps| == |tops| && forall t :: 0 <= t < |tops| ==> ps[t] == MinPhase(nodes, tops[t])
  {
    seq(|tops|, t requires 0 <= t < |tops| => MinPhase(nodes, tops[t]))
  }

  /**
   * Runs the phases one after another; the sink of each query receives what its operation emits in its phase. No
   * operation finds a state unfinished.
   */
  method Run(env: Env, nodes: seq<Node>, r: Required, arrival: Arrival, links: seq<Link>, tops: seq<nat>)
    returns (outputs: seq<Emission>)
    requires ProgramBuilt(nodes, r, links, Members(tops)) && TopsRecorded(nodes, r, tops) && Honest(env, arrival)
    ensures |outputs| == |tops|
    ensures forall t :: 0 <= t < |tops| ==>
      outputs[t] == ToEmission(Pruned(nodes, r, arrival, tops[t], MinPhase(nodes, tops[t])))
  {
    hide PlanOk, Closed, Permitted, LinksOk, Justified, Connected, StateRight, Emitted, Pruned, MinPhase, RunPhase, Honest, ToEmission;
    var firsts, roots := FirstPhases(nodes, tops), Members(tops);
    var last := Greatest(firsts);
    var states: States := seq(|nodes|, _ => Unfinished);
    outputs := seq(|tops|, _ => NotFinished);
    for phase := 0 to last + 1
      invariant |outputs| == |tops| && states == RunTo(env, nodes, r, arrival, links, roots, phase)
      invariant forall t :: 0 <= t < |tops| && firsts[t] < phase ==>
        outputs[t] == ToEmission(Pruned(nodes, r, arrival, tops[t], firsts[t]))
    {
      RunRight(env, nodes, r, arrival, links, roots, phase);
      for t := 0 to |tops|
        invariant |outputs| == |tops|
        invariant forall u :: 0 <= u < |tops| && (firsts[u] < phase || (u < t && firsts[u] == phase)) ==>
          outputs[u] == ToEmission(Pruned(nodes, r, arrival, tops[u], firsts[u]))
      {
        if firsts[t] == phase {
          EmittedRight(env, nodes, r, arrival, states, tops[t], phase);
          outputs := outputs[t := Emitted(nodes, r, arrival, states, tops[t], phase)];
        }
      }
      states := RunPhase(env, nodes, r, arrival, links, roots, states, phase);
    }
  }
}
