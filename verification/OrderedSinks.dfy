/** The linked sinks of the output, which refine the world of `Sinks`. */
module OrderedSinks {
  import opened Wrappers
  import S = Sinks

  /** The stream that all sinks share. */
  class Stream {
    var text: string

    constructor ()
      ensures text == ""
    {
      text := "";
    }
  }

  /** Each sink is linked to the one of the next query. */
  ghost predicate Chained(chain: seq<OrderedSink>, os: Stream)
    reads chain
  {
    && (forall i, j | 0 <= i < j < |chain| :: chain[i] != chain[j])
    && (forall i | 0 <= i < |chain| :: chain[i].os == os)
    && (forall i | 0 <= i < |chain| :: chain[i].next == Following(chain, i))
  }

  function Following(chain: seq<OrderedSink>, i: nat): OrderedSink? {
    if i + 1 < |chain| then chain[i + 1] else null
  }

  ghost function WorldOf(chain: seq<OrderedSink>, os: Stream): (w: S.World)
    reads chain, os
    ensures |w.sinks| == |chain| && w.out == os.text
    ensures forall i | 0 <= i < |chain| :: w.sinks[i] == S.Sink(chain[i].state, chain[i].buf)
  {
    S.World(seq(|chain|, i requires 0 <= i < |chain| reads chain => S.Sink(chain[i].state, chain[i].buf)), os.text)
  }

  class OrderedSink {
    const os: Stream
    var next: OrderedSink?
    var buf: string
    var state: S.State

    constructor (stream: Stream, shouldWait: bool)
      ensures os == stream && next == null && buf == ""
      ensures state == if shouldWait then S.ConsumingWaiting else S.ConsumingReady
    {
      os := stream;
      next := null;
      buf := "";
      state := if shouldWait then S.ConsumingWaiting else S.ConsumingReady;
    }

    method SetNext(sink: OrderedSink)
      modifies this`next
      ensures next == sink
    {
      next := sink;
    }

    method Push(s: string, ghost chain: seq<OrderedSink>, ghost i: nat)
      requires Chained(chain, os) && i < |chain| && chain[i] == this
      modifies this`buf
      ensures Chained(chain, os)
      ensures WorldOf(chain, os) == S.Push(old(WorldOf(chain, os)), i, s)
    {
      buf := buf + s + "\n";
    }

    /** The sink moves to another state. */
    method Become(s: S.State, ghost chain: seq<OrderedSink>, ghost i: nat)
      requires Chained(chain, os) && i < |chain| && chain[i] == this
      modifies this`state
      ensures Chained(chain, os) && state == s
      ensures WorldOf(chain, os) == S.Become(old(WorldOf(chain, os)), i, s)
    {
      state := s;
    }

    /** A sink that is already done panics: `ok` is false and nothing changes. */
    method Done(ghost chain: seq<OrderedSink>, ghost i: nat) returns (ok: bool)
      requires Chained(chain, os) && i < |chain| && chain[i] == this
      modifies chain, os
      ensures Chained(chain, os)
      ensures ok <==> S.Done(old(WorldOf(chain, os)), i).Some?
      ensures ok ==> WorldOf(chain, os) == S.Done(old(WorldOf(chain, os)), i).value
      ensures !ok ==> WorldOf(chain, os) == old(WorldOf(chain, os))
    {
      hide Chained, S.PrevComplete, WorldOf;
      match state {
        case ConsumingWaiting =>
          Become(S.DoneWaiting, chain, i);
          return true;
        case ConsumingReady =>
          S.FlushBecome(WorldOf(chain, os), i);
          Become(S.DoneComplete, chain, i);
          Flush(chain, i);
          NotifyNext(chain, i);
          return true;
        case _ =>
          return false;
      }
    }

    method Flush(ghost chain: seq<OrderedSink>, ghost i: nat)
      requires Chained(chain, os) && i < |chain| && chain[i] == this && state == S.DoneComplete
      modifies this`buf, os
      ensures Chained(chain, os)
      ensures WorldOf(chain, os) == S.Flush(old(WorldOf(chain, os)), i)
    {
      os.text := os.text + (buf + "\n");
      buf := "";
    }

    method NotifyNext(ghost chain: seq<OrderedSink>, ghost i: nat)
      requires Chained(chain, os) && i < |chain| && chain[i] == this
      modifies chain, os
      ensures Chained(chain, os)
      ensures WorldOf(chain, os) == S.PrevComplete(old(WorldOf(chain, os)), i + 1)
      decreases |chain| - i, 0
    {
      hide WorldOf;
      assert next == Following(chain, i);
      if next != null {
        assert chain[i + 1].os == os;
        next.PrevComplete(chain, i + 1);
      }
    }

    method PrevComplete(ghost chain: seq<OrderedSink>, ghost i: nat)
      requires Chained(chain, os) && i < |chain| && chain[i] == this
      modifies chain, os
      ensures Chained(chain, os)
      ensures WorldOf(chain, os) == S.PrevComplete(old(WorldOf(chain, os)), i)
      decreases |chain| - i, 1
    {
      hide Chained, WorldOf;
      match state {
        case ConsumingWaiting =>
          Become(S.ConsumingReady, chain, i);
        case DoneWaiting =>
          S.FlushBecome(WorldOf(chain, os), i);
          Become(S.DoneComplete, chain, i);
          Flush(chain, i);
          NotifyNext(chain, i);
        case _ =>
      }
    }
  }

  /** Links one more sink at the end: it waits in keep-order mode unless it is the first. */
  method AddSink(sinks: seq<OrderedSink>, stream: Stream, keepOrder: bool) returns (sink: OrderedSink)
    requires Chained(sinks, stream)
    modifies if sinks == [] then {} else {sinks[|sinks| - 1]}
    ensures fresh(sink) && Chained(sinks + [sink], stream)
    ensures WorldOf(sinks, stream) == old(WorldOf(sinks, stream))
    ensures sink.buf == "" && sink.state == if keepOrder && sinks != [] then S.ConsumingWaiting else S.ConsumingReady
  {
    sink := new OrderedSink(stream, keepOrder && sinks != []);
    if sinks != [] {
      sinks[|sinks| - 1].SetNext(sink);
    }
    ExtendedChain(sinks, sink, stream);
  }

  /** Linked up to the last, which is linked to one more. */
  lemma ExtendedChain(sinks: seq<OrderedSink>, sink: OrderedSink, stream: Stream)
    requires (forall i, j | 0 <= i < j < |sinks| :: sinks[i] != sinks[j]) && sink !in sinks
    requires sink.os == stream && sink.next == null && forall i | 0 <= i < |sinks| :: sinks[i].os == stream
    requires forall i | 0 <= i < |sinks| - 1 :: sinks[i].next == Following(sinks, i)
    requires sinks != [] ==> sinks[|sinks| - 1].next == sink
    ensures Chained(sinks + [sink], stream)
  {
    var chain := sinks + [sink];
    forall i | 0 <= i < |chain| ensures chain[i].next == Following(chain, i) {
      if i < |sinks| - 1 {
        assert chain[i] == sinks[i] && chain[i + 1] == sinks[i + 1];
      }
    }
  }

  method AddSinks(n: nat, stream: Stream, keepOrder: bool) returns (sinks: seq<OrderedSink>)
    requires stream.text == ""
    ensures fresh(sinks) && Chained(sinks, stream)
    ensures WorldOf(sinks, stream) == S.Initial(n, keepOrder)
  {
    sinks := [];
    while |sinks| < n
      invariant |sinks| <= n && fresh(sinks) && Chained(sinks, stream)
      invariant WorldOf(sinks, stream) == S.Initial(|sinks|, keepOrder)
    {
      hide Chained;
      var sink := AddSink(sinks, stream, keepOrder);
      assert WorldOf(sinks + [sink], stream) == S.World(WorldOf(sinks, stream).sinks + [S.Sink(sink.state, sink.buf)], "");
      assert S.Initial(|sinks| + 1, keepOrder).sinks == S.Initial(|sinks|, keepOrder).sinks + [S.Sink(sink.state, sink.buf)];
      sinks := sinks + [sink];
    }
  }

  method Apply(e: S.Event, sinks: seq<OrderedSink>, stream: Stream)
    requires Chained(sinks, stream) && S.Step(WorldOf(sinks, stream), e).Some?
    modifies sinks, stream
    ensures Chained(sinks, stream)
    ensures WorldOf(sinks, stream) == S.Step(old(WorldOf(sinks, stream)), e).value
  {
    match e {
      case Pushed(i, line) => sinks[i].Push(line, sinks, i);
      case Finished(i) => var _ := sinks[i].Done(sinks, i);
    }
  }

  /** Plays a schedule of events on linked sinks. */
  method Play(events: seq<S.Event>, n: nat, keepOrder: bool) returns (text: string)
    requires S.Schedule(n, events)
    ensures S.Run(n, keepOrder, events).Some? && text == S.Run(n, keepOrder, events).value.out
  {
    hide Chained, S.Step, S.Schedule;
    var stream := new Stream();
    var sinks := AddSinks(n, stream, keepOrder);
    for k := 0 to |events|
      invariant Chained(sinks, stream) && fresh(sinks) && fresh(stream)
      invariant S.Run(n, keepOrder, events[..k]) == Some(WorldOf(sinks, stream))
    {
      S.SchedulePrefix(n, events, k + 1);
      assert events[..k + 1][..k] == events[..k];
      S.NoPanic(n, keepOrder, events[..k + 1]);
      Apply(events[k], sinks, stream);
    }
    assert events[..|events|] == events;
    text := stream.text;
  }
}
