/** Output of concurrent queries: chained sinks that print their buffers in query order. */
module Sinks {
  import opened Wrappers

  datatype State = ConsumingWaiting | ConsumingReady | DoneWaiting | DoneComplete

  datatype Sink = Sink(state: State, buf: string)

  /** All sinks in query order, and what was written to the shared stream. */
  datatype World = World(sinks: seq<Sink>, out: string)

  /** What sinks do under the shared lock, one event at a time. */
  datatype Event = Pushed(sink: nat, line: string) | Finished(sink: nat)

  function Initial(n: nat, keepOrder: bool): World {
    World(seq(n, i => Sink(if keepOrder && i > 0 then ConsumingWaiting else ConsumingReady, "")), "")
  }

  function Become(w: World, i: nat, s: State): World
    requires i < |w.sinks|
  {
    w.(sinks := w.sinks[i := w.sinks[i].(state := s)])
  }

  function Flush(w: World, i: nat): World
    requires i < |w.sinks|
  {
    World(w.sinks[i := Sink(DoneComplete, "")], w.out + Block(w.sinks[i].buf))
  }

  lemma FlushBecome(w: World, i: nat)
    requires i < |w.sinks|
    ensures Flush(Become(w, i, DoneComplete), i) == Flush(w, i)
  {
  }

  function Block(buf: string): string {
    buf + "\n"
  }

  /** Sink `i` learns that the one before it is complete. */
  function PrevComplete(w: World, i: nat): (r: World)
    ensures |r.sinks| == |w.sinks|
    decreases |w.sinks| - i
  {
    if i >= |w.sinks| then w
    else match w.sinks[i].state
      case ConsumingWaiting => Become(w, i, ConsumingReady)
      case DoneWaiting => PrevComplete(Flush(w, i), i + 1)
      case _ => w
  }

  function Push(w: World, i: nat, line: string): World
    requires i < |w.sinks|
  {
    w.(sinks := w.sinks[i := w.sinks[i].(buf := w.sinks[i].buf + line + "\n")])
  }

  /** `None` is the panic on a sink that is already done. */
  function Done(w: World, i: nat): Option<World>
    requires i < |w.sinks|
  {
    match w.sinks[i].state
    case ConsumingWaiting => Some(Become(w, i, DoneWaiting))
    case ConsumingReady => Some(PrevComplete(Flush(w, i), i + 1))
    case _ => None
  }

  function Step(w: World, e: Event): Option<World> {
    if e.sink >= |w.sinks| then None
    else match e
      case Pushed(i, line) => Some(Push(w, i, line))
      case Finished(i) => Done(w, i)
  }

  function Run(n: nat, keepOrder: bool, events: seq<Event>): Option<World> {
    if events == [] then Some(Initial(n, keepOrder))
    else
      var before := Run(n, keepOrder, events[..|events| - 1]);
      if before.None? then None else Step(before.value, events[|events| - 1])
  }

  /** Every event is of one of `n` sinks, and a sink does nothing after it finished. */
  predicate Schedule(n: nat, events: seq<Event>) {
    events == [] ||
    (var before, e := events[..|events| - 1], events[|events| - 1];
     Schedule(n, before) && e.sink < n && Finished(e.sink) !in before)
  }

  /** What each sink was given so far. */
  function Texts(n: nat, events: seq<Event>): (texts: seq<string>)
    ensures |texts| == n
  {
    if events == [] then seq(n, i => "")
    else
      var texts := Texts(n, events[..|events| - 1]);
      match events[|events| - 1]
      case Pushed(i, line) => if i < n then texts[i := texts[i] + line + "\n"] else texts
      case Finished(_) => texts
  }

  function DoneOrder(events: seq<Event>): seq<nat> {
    if events == [] then []
    else
      var before := DoneOrder(events[..|events| - 1]);
      match events[|events| - 1]
      case Pushed(_, _) => before
      case Finished(i) => before + [i]
  }

  function Blocks(texts: seq<string>): string {
    if texts == [] then "" else Blocks(texts[..|texts| - 1]) + Block(texts[|texts| - 1])
  }

  // --- in query order ---

  /** Complete sinks first, then one that is ready, then only waiting ones; the stream holds the complete blocks. */
  ghost predicate Ordered(w: World, complete: nat, texts: seq<string>) {
    && complete <= |w.sinks| == |texts|
    && (forall i | 0 <= i < complete :: w.sinks[i].state == DoneComplete)
    && (complete < |w.sinks| ==> w.sinks[complete].state == ConsumingReady)
    && (forall i | complete < i < |w.sinks| :: w.sinks[i].state in {ConsumingWaiting, DoneWaiting})
    && (forall i | complete <= i < |w.sinks| :: w.sinks[i].buf == texts[i])
    && w.out == Blocks(texts[..complete])
  }

  /** The same, while the ready sink is about to be found. */
  ghost predicate AlmostOrdered(w: World, complete: nat, texts: seq<string>) {
    && complete <= |w.sinks| == |texts|
    && (forall i | 0 <= i < complete :: w.sinks[i].state == DoneComplete)
    && (forall i | complete <= i < |w.sinks| :: w.sinks[i].state in {ConsumingWaiting, DoneWaiting})
    && (forall i | complete <= i < |w.sinks| :: w.sinks[i].buf == texts[i])
    && w.out == Blocks(texts[..complete])
  }

  ghost predicate FinishedAre(w: World, events: seq<Event>) {
    forall i | 0 <= i < |w.sinks| :: w.sinks[i].state in {DoneWaiting, DoneComplete} <==> Finished(i) in events
  }

  lemma FlushOrdered(w: World, i: nat, texts: seq<string>)
    requires i < |w.sinks| == |texts|
    requires forall k | 0 <= k < i :: w.sinks[k].state == DoneComplete
    requires forall k | i < k < |w.sinks| :: w.sinks[k].state in {ConsumingWaiting, DoneWaiting}
    requires forall k | i <= k < |w.sinks| :: w.sinks[k].buf == texts[k]
    requires w.out == Blocks(texts[..i])
    ensures AlmostOrdered(Flush(w, i), i + 1, texts)
  {
    assert texts[..i + 1][..i] == texts[..i];
  }

  /** Notifying the next sink flushes a run of finished ones, up to one that still consumes. */
  lemma {:induction false} NotifyOrdered(w: World, i: nat, texts: seq<string>) returns (complete: nat)
    requires AlmostOrdered(w, i, texts)
    ensures Ordered(PrevComplete(w, i), complete, texts)
    ensures forall k | 0 <= k < |w.sinks| ::
              var after := PrevComplete(w, i).sinks[k].state;
              after in {DoneWaiting, DoneComplete} <==> w.sinks[k].state in {DoneWaiting, DoneComplete}
    decreases |w.sinks| - i
  {
    complete := i;
    if i < |w.sinks| && w.sinks[i].state == DoneWaiting {
      FlushOrdered(w, i, texts);
      complete := NotifyOrdered(Flush(w, i), i + 1, texts);
    }
  }

  lemma PushOrdered(w: World, complete: nat, texts: seq<string>, i: nat, line: string)
    requires Ordered(w, complete, texts) && complete <= i < |w.sinks|
    ensures Ordered(Push(w, i, line), complete, texts[i := texts[i] + line + "\n"])
  {
    assert texts[i := texts[i] + line + "\n"][..complete] == texts[..complete];
  }

  lemma FinishOrdered(w: World, complete: nat, texts: seq<string>, i: nat) returns (after: nat)
    requires Ordered(w, complete, texts) && complete <= i < |w.sinks|
    requires w.sinks[i].state in {ConsumingWaiting, ConsumingReady}
    ensures Done(w, i).Some? && |Done(w, i).value.sinks| == |w.sinks| && Ordered(Done(w, i).value, after, texts)
    ensures forall k | 0 <= k < |w.sinks| ::
              var now := Done(w, i).value.sinks[k].state;
              now in {DoneWaiting, DoneComplete} <==> k == i || w.sinks[k].state in {DoneWaiting, DoneComplete}
  {
    after := complete;
    if i == complete {
      FlushOrdered(w, i, texts);
      after := NotifyOrdered(Flush(w, i), i + 1, texts);
    }
  }

  /** One event of a schedule, from an ordered world: no panic, and ordered again. */
  lemma StepOrdered(w: World, complete: nat, texts: seq<string>, events: seq<Event>, e: Event) returns (after: nat)
    requires Ordered(w, complete, texts) && FinishedAre(w, events)
    requires texts == Texts(|w.sinks|, events) && e.sink < |w.sinks| && Finished(e.sink) !in events
    ensures var r := Step(w, e);
            && r.Some?
            && |r.value.sinks| == |w.sinks|
            && Ordered(r.value, after, Texts(|w.sinks|, events + [e]))
            && FinishedAre(r.value, events + [e])
  {
    hide Blocks, PrevComplete, Ordered;
    after := complete;
    assert (events + [e])[..|events|] == events;
    NotComplete(w, complete, texts, events, e.sink);
    match e {
      case Pushed(i, line) => PushOrdered(w, complete, texts, i, line);
      case Finished(i) => after := FinishOrdered(w, complete, texts, i);
    }
  }

  lemma NotComplete(w: World, complete: nat, texts: seq<string>, events: seq<Event>, i: nat)
    requires Ordered(w, complete, texts) && FinishedAre(w, events)
    requires i < |w.sinks| && Finished(i) !in events
    ensures complete <= i && w.sinks[i].state in {ConsumingWaiting, ConsumingReady}
  {
    assert w.sinks[i].state !in {DoneWaiting, DoneComplete};
  }

  /** The ready sink has not finished. */
  lemma ReadyUnfinished(w: World, complete: nat, texts: seq<string>, events: seq<Event>)
    requires Ordered(w, complete, texts) && FinishedAre(w, events)
    ensures complete < |w.sinks| ==> Finished(complete) !in events
  {
    assert complete < |w.sinks| ==> w.sinks[complete].state == ConsumingReady;
  }

  /** In every run in keep-order mode the sinks stay ordered. */
  lemma {:induction false} RunOrdered(n: nat, events: seq<Event>) returns (complete: nat)
    requires Schedule(n, events)
    ensures var r := Run(n, true, events);
            r.Some? && |r.value.sinks| == n && Ordered(r.value, complete, Texts(n, events)) && FinishedAre(r.value, events)
    decreases |events|
  {
    if events == [] {
      complete := 0;
    } else {
      var before, e := events[..|events| - 1], events[|events| - 1];
      complete := RunOrdered(n, before);
      assert before + [e] == events;
      complete := StepOrdered(Run(n, true, before).value, complete, Texts(n, before), before, e);
    }
  }

  /** When all have finished, in whatever order, the stream holds every block once, in query order. */
  lemma AllInQueryOrder(n: nat, events: seq<Event>)
    requires Schedule(n, events) && forall i: nat | i < n :: Finished(i) in events
    ensures Run(n, true, events).Some? && Run(n, true, events).value.out == Blocks(Texts(n, events))
  {
    var complete := RunOrdered(n, events);
    var w := Run(n, true, events).value;
    ReadyUnfinished(w, complete, Texts(n, events), events);
    assert complete == n;
    assert Texts(n, events)[..n] == Texts(n, events);
  }

  // --- without keeping order ---

  ghost predicate Unordered(w: World, events: seq<Event>, texts: seq<string>) {
    && |w.sinks| == |texts|
    && (forall i | 0 <= i < |w.sinks| ::
          w.sinks[i].state == if Finished(i) in events then DoneComplete else ConsumingReady)
    && (forall i | 0 <= i < |w.sinks| && Finished(i) !in events :: w.sinks[i].buf == texts[i])
    && (forall i | i in DoneOrder(events) :: i < |texts| && Finished(i) in events)
    && w.out == Blocks(Chosen(texts, DoneOrder(events)))
  }

  function Chosen(texts: seq<string>, order: seq<nat>): (r: seq<string>)
    requires forall i | i in order :: i < |texts|
    ensures |r| == |order| && forall k | 0 <= k < |r| :: order[k] in order && r[k] == texts[order[k]]
  {
    seq(|order|, k requires 0 <= k < |order| => assert order[k] in order; texts[order[k]])
  }

  lemma PushUnordered(w: World, texts: seq<string>, events: seq<Event>, i: nat, line: string)
    requires Unordered(w, events, texts) && i < |w.sinks| && Finished(i) !in events
    ensures Unordered(Push(w, i, line), events + [Pushed(i, line)], texts[i := texts[i] + line + "\n"])
  {
    var order, texts' := DoneOrder(events), texts[i := texts[i] + line + "\n"];
    assert (events + [Pushed(i, line)])[..|events|] == events;
    forall k | 0 <= k < |order| ensures order[k] != i && order[k] < |texts| {
      assert order[k] in order;
    }
    assert Chosen(texts', order) == Chosen(texts, order);
  }

  lemma DoneUnordered(w: World, texts: seq<string>, events: seq<Event>, i: nat)
    requires Unordered(w, events, texts) && i < |w.sinks| && Finished(i) !in events
    ensures Done(w, i) == Some(PrevComplete(Flush(w, i), i + 1))
    ensures Unordered(Flush(w, i), events + [Finished(i)], texts)
  {
    hide PrevComplete;
    var order := DoneOrder(events);
    assert (events + [Finished(i)])[..|events|] == events;
    assert DoneOrder(events + [Finished(i)]) == order + [i];
    var chosen := Chosen(texts, order + [i]);
    assert chosen[..|order|] == Chosen(texts, order) && chosen[|order|] == texts[i];
  }

  /** No sink waits when order is not kept, so completing one wakes nobody. */
  lemma NobodyWaits(w: World, texts: seq<string>, events: seq<Event>, i: nat)
    requires Unordered(w, events, texts)
    ensures PrevComplete(w, i) == w
  {
  }

  lemma StepUnordered(w: World, texts: seq<string>, events: seq<Event>, e: Event)
    requires Unordered(w, events, texts)
    requires texts == Texts(|w.sinks|, events) && e.sink < |w.sinks| && Finished(e.sink) !in events
    ensures var r := Step(w, e);
            && r.Some?
            && |r.value.sinks| == |w.sinks|
            && Unordered(r.value, events + [e], Texts(|w.sinks|, events + [e]))
  {
    hide Unordered, PrevComplete;
    assert (events + [e])[..|events|] == events;
    SameCount(w, texts, events);
    match e {
      case Pushed(i, line) => PushUnordered(w, texts, events, i, line);
      case Finished(i) =>
        DoneUnordered(w, texts, events, i);
        NobodyWaits(Flush(w, i), texts, events + [e], i + 1);
    }
  }

  lemma SameCount(w: World, texts: seq<string>, events: seq<Event>)
    requires Unordered(w, events, texts)
    ensures |w.sinks| == |texts|
  {
  }

  /** Without keep-order the stream holds the blocks in the order the sinks finished. */
  lemma {:induction false} AllInDoneOrder(n: nat, events: seq<Event>)
    requires Schedule(n, events)
    ensures var r := Run(n, false, events);
            r.Some? && |r.value.sinks| == n && Unordered(r.value, events, Texts(n, events))
    decreases |events|
  {
    if events != [] {
      var before, e := events[..|events| - 1], events[|events| - 1];
      AllInDoneOrder(n, before);
      assert before + [e] == events;
      StepUnordered(Run(n, false, before).value, Texts(n, before), before, e);
    }
  }

  // --- every schedule runs to its end ---

  lemma {:induction false} SchedulePrefix(n: nat, events: seq<Event>, k: nat)
    requires Schedule(n, events) && k <= |events|
    ensures Schedule(n, events[..k])
    decreases |events|
  {
    if k < |events| {
      SchedulePrefix(n, events[..|events| - 1], k);
      assert events[..|events| - 1][..k] == events[..k];
    } else {
      assert events[..k] == events;
    }
  }

  lemma NoPanic(n: nat, keepOrder: bool, events: seq<Event>)
    requires Schedule(n, events)
    ensures Run(n, keepOrder, events).Some?
  {
    if keepOrder {
      var _ := RunOrdered(n, events);
    } else {
      AllInDoneOrder(n, events);
    }
  }
}
