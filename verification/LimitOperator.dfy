/** The limit operator, alone and on top of a sorted merge. */
module LimitOperator {
  import opened Values
  import opened Sequences
  import opened MergeSpec
  import S = Sorting

  // --- subscribers ---

  /** What a subscriber has received, and whether it is still subscribed: it leaves when it declines a call. */
  datatype Sub = Sub(received: seq<Out>, active: bool)

  function Deliver(wants: Accepts, sub: Sub, o: Out): Sub {
    if sub.active then Sub(sub.received + [o], wants(sub.received + [o])) else sub
  }

  /** What a subscriber makes of a whole stream. */
  function Heard(wants: Accepts, stream: seq<Out>): (sub: Sub)
    ensures sub.received <= stream && (sub.active ==> sub.received == stream)
  {
    if stream == [] then Sub([], true)
    else Deliver(wants, Heard(wants, stream[..|stream| - 1]), stream[|stream| - 1])
  }

  /** Nobody stays subscribed after the end of stream. */
  ghost predicate LeavesAtEnd(wants: Accepts) {
    forall h: seq<Out> :: !wants(h + [EndOfStream])
  }

  /** An output writer takes every row and leaves at the end of stream. */
  function Writer(): Accepts {
    (h: seq<Out>) => h == [] || h[|h| - 1] != EndOfStream
  }

  // --- the limit ---

  /** A limit: the countdown, and its subscribers. */
  datatype LimitState = LimitState(remaining: nat, subs: seq<Sub>)
  {
    predicate Active() { exists k :: 0 <= k < |subs| && subs[k].active }
  }

  /** A call to every subscriber that is still there. */
  function Forward(wants: seq<Accepts>, s: LimitState, o: Out): (t: LimitState)
    requires |wants| == |s.subs|
    ensures |t.subs| == |s.subs|
  {
    s.(subs := seq(|s.subs|, k requires 0 <= k < |s.subs| => Deliver(wants[k], s.subs[k], o)))
  }

  function LimitStep(wants: seq<Accepts>, s: LimitState, o: Out): (t: LimitState)
    requires |wants| == |s.subs|
    ensures |t.subs| == |s.subs|
  {
    if o == EndOfStream || s.remaining == 0 then Forward(wants, s, EndOfStream)
    else
      var s' := Forward(wants, s.(remaining := s.remaining - 1), o);
      if s'.Active() && s'.remaining == 0 then Forward(wants, s', EndOfStream) else s'
  }

  function LimitRun(wants: seq<Accepts>, limit: nat, history: seq<Out>): (s: LimitState)
    ensures |s.subs| == |wants|
  {
    if history == [] then LimitState(limit, seq(|wants|, _ => Sub([], true)))
    else LimitStep(wants, LimitRun(wants, limit, history[..|history| - 1]), history[|history| - 1])
  }

  /** The answer of the limit to the source that has emitted this history. */
  function LimitAccepts(wants: seq<Accepts>, limit: nat): Accepts {
    (history: seq<Out>) => LimitRun(wants, limit, history).Active()
  }

  class Limit {
    const wants: seq<Accepts>
    var currLimit: nat
    var subs: seq<Sub>

    predicate Valid()
      reads this
    {
      |wants| == |subs|
    }

    constructor (limit: nat, wants': seq<Accepts>)
      ensures Valid() && wants == wants' && Value() == LimitRun(wants, limit, [])
    {
      wants := wants';
      currLimit, subs := limit, seq(|wants'|, _ => Sub([], true));
    }

    function Value(): LimitState
      reads this
    {
      LimitState(currLimit, subs)
    }

    /** Calls every subscriber and drops those that decline; says whether one is left. */
    method Emit(o: Out) returns (more: bool)
      requires Valid()
      modifies `subs
      ensures Valid() && Value() == Forward(wants, old(Value()), o) && more == Value().Active()
    {
      var i := 0;
      more := false;
      while i < |subs|
        invariant 0 <= i <= |subs| == |old(subs)|
        invariant forall k :: 0 <= k < i ==> subs[k] == Deliver(wants[k], old(subs)[k], o)
        invariant forall k :: i <= k < |subs| ==> subs[k] == old(subs)[k]
        invariant more <==> exists k :: 0 <= k < i && subs[k].active
      {
        if subs[i].active {
          var received := subs[i].received + [o];
          subs := subs[i := Sub(received, wants[i](received))];
        }
        more := more || subs[i].active;
        i := i + 1;
      }
    }

    method Consume(o: Out) returns (more: bool)
      requires Valid()
      modifies this
      ensures Valid() && Value() == LimitStep(wants, old(Value()), o) && more == Value().Active()
    {
      if o == EndOfStream {
        more := Emit(EndOfStream);
        return;
      }
      if currLimit == 0 {
        more := Emit(EndOfStream);
        return;
      }
      currLimit := currLimit - 1;
      more := Emit(o);
      if !more {
        return;
      }
      if currLimit == 0 {
        more := Emit(EndOfStream);
        return;
      }
      more := Value().Active();
    }
  }

  // --- what subscribers receive ---

  /** What a limit passes on of some rows: as soon as there were enough, the first of them and the end. */
  function Limited(limit: nat, rows: seq<Out>): seq<Out> {
    if rows == [] || |rows| < limit then rows else Take(limit, rows) + [EndOfStream]
  }

  /** After the end of stream, or once it has left, nothing reaches a subscriber. */
  lemma HeardNoMore(wants: Accepts, stream: seq<Out>, o: Out)
    requires !Heard(wants, stream).active
    ensures Heard(wants, stream + [o]) == Heard(wants, stream)
  {
    assert (stream + [o])[..|stream|] == stream;
  }

  lemma HeardNext(wants: Accepts, stream: seq<Out>, o: Out)
    ensures Heard(wants, stream + [o]) == Deliver(wants, Heard(wants, stream), o)
  {
    assert (stream + [o])[..|stream|] == stream;
  }

  lemma HeardEnd(wants: Accepts, stream: seq<Out>)
    requires LeavesAtEnd(wants)
    ensures !Heard(wants, stream + [EndOfStream]).active
  {
    HeardNext(wants, stream, EndOfStream);
  }

  ghost predicate AllLeave(wants: seq<Accepts>) {
    forall k :: 0 <= k < |wants| ==> LeavesAtEnd(wants[k])
  }

  /** Each subscriber has heard this stream. */
  ghost predicate AllHeard(wants: seq<Accepts>, subs: seq<Sub>, stream: seq<Out>) {
    |subs| == |wants| && forall k :: 0 <= k < |wants| ==> subs[k] == Heard(wants[k], stream)
  }

  lemma ForwardHeard(wants: seq<Accepts>, s: LimitState, stream: seq<Out>, o: Out)
    requires AllHeard(wants, s.subs, stream)
    ensures AllHeard(wants, Forward(wants, s, o).subs, stream + [o])
  {
    hide Heard;
    forall k | 0 <= k < |wants| ensures Forward(wants, s, o).subs[k] == Heard(wants[k], stream + [o]) {
      HeardNext(wants[k], stream, o);
    }
  }

  /** When everybody has left, more of the stream makes no difference. */
  lemma NobodyHears(wants: seq<Accepts>, s: LimitState, stream: seq<Out>, o: Out)
    requires AllHeard(wants, s.subs, stream) && !s.Active()
    ensures AllHeard(wants, s.subs, stream + [o]) && Forward(wants, s, o).subs == s.subs
  {
    hide Heard;
    forall k | 0 <= k < |wants| ensures s.subs[k] == Heard(wants[k], stream + [o]) {
      HeardNoMore(wants[k], stream, o);
    }
  }

  lemma EndedInactive(wants: seq<Accepts>, s: LimitState, stream: seq<Out>)
    requires AllLeave(wants) && AllHeard(wants, s.subs, stream + [EndOfStream])
    ensures !s.Active()
  {
    hide Heard, LeavesAtEnd;
    forall k | 0 <= k < |wants| ensures !s.subs[k].active {
      HeardEnd(wants[k], stream);
    }
  }

  /**
   * After any rows every subscriber has heard, as far as it wanted to listen, the first `limit` of them and,
   * as soon as there were that many (or any row at all under limit 0), one end of stream.
   */
  lemma {:induction false} LimitHeard(wants: seq<Accepts>, limit: nat, rows: seq<Out>)
    requires AllLeave(wants) && EndOfStream !in rows
    ensures var s := LimitRun(wants, limit, rows);
            AllHeard(wants, s.subs, Limited(limit, rows)) && s.remaining == if |rows| < limit then limit - |rows| else 0
  {
    hide AllHeard, AllLeave, Heard, Forward;
    if rows == [] {
      NothingHeard(wants, limit);
    } else {
      var before, o := rows[..|rows| - 1], rows[|rows| - 1];
      LimitHeard(wants, limit, before);
      var s := LimitRun(wants, limit, before);
      assert rows == before + [o];
      if |before| < limit {
        var s' := Forward(wants, s.(remaining := s.remaining - 1), o);
        ForwardHeard(wants, s.(remaining := s.remaining - 1), before, o);
        ForwardRemaining(wants, s.(remaining := s.remaining - 1), o);
        if |rows| == limit {
          assert Take(limit, rows) == rows;
          if s'.Active() {
            ForwardHeard(wants, s', rows, EndOfStream);
            ForwardRemaining(wants, s', EndOfStream);
          } else {
            NobodyHears(wants, s', rows, EndOfStream);
          }
        }
      } else {
        PastLimit(wants, limit, s, before, rows);
      }
    }
  }

  lemma ForwardRemaining(wants: seq<Accepts>, s: LimitState, o: Out)
    requires |wants| == |s.subs|
    ensures Forward(wants, s, o).remaining == s.remaining
  {
  }

  lemma NothingHeard(wants: seq<Accepts>, limit: nat)
    ensures AllHeard(wants, LimitRun(wants, limit, []).subs, [])
  {
  }

  /** A row past the limit: an end of stream to nobody, or the first call of a limit of zero. */
  lemma PastLimit(wants: seq<Accepts>, limit: nat, s: LimitState, before: seq<Out>, rows: seq<Out>)
    requires AllLeave(wants) && |before| >= limit && rows != [] && before == rows[..|rows| - 1]
    requires |s.subs| == |wants| && AllHeard(wants, s.subs, Limited(limit, before)) && s.remaining == 0
    ensures AllHeard(wants, Forward(wants, s, EndOfStream).subs, Limited(limit, rows))
    ensures Forward(wants, s, EndOfStream).remaining == 0
  {
    hide AllHeard, AllLeave, Heard;
    ForwardRemaining(wants, s, EndOfStream);
    if before == [] {
      ForwardHeard(wants, s, [], EndOfStream);
      assert Take(0, rows) + [EndOfStream] == [] + [EndOfStream];
    } else {
      assert Take(limit, rows) == Take(limit, before);
      EndedInactive(wants, s, Take(limit, before));
      NobodyHears(wants, s, Limited(limit, before), EndOfStream);
    }
  }

  /** At the end of the input everybody who still listens has heard the first `limit` rows and one end of stream. */
  lemma LimitHeardEnd(wants: seq<Accepts>, limit: nat, rows: seq<Out>)
    requires AllLeave(wants) && EndOfStream !in rows
    ensures AllHeard(wants, LimitRun(wants, limit, rows + [EndOfStream]).subs, Take(limit, rows) + [EndOfStream])
  {
    hide AllHeard, AllLeave, Heard;
    LimitHeard(wants, limit, rows);
    var s := LimitRun(wants, limit, rows);
    assert (rows + [EndOfStream])[..|rows|] == rows;
    if rows == [] || |rows| < limit {
      ForwardHeard(wants, s, rows, EndOfStream);
      assert Take(limit, rows) == rows;
    } else {
      EndedInactive(wants, s, Take(limit, rows));
      NobodyHears(wants, s, Limited(limit, rows), EndOfStream);
    }
  }

  // --- one output writer ---

  function OneWriter(): seq<Accepts> { [Writer()] }

  lemma {:induction false} WriterHears(rows: seq<Out>)
    requires EndOfStream !in rows
    ensures Heard(Writer(), rows) == Sub(rows, true)
    ensures Heard(Writer(), rows + [EndOfStream]) == Sub(rows + [EndOfStream], false)
  {
    if rows != [] {
      WriterHears(rows[..|rows| - 1]);
    }
    HeardNext(Writer(), rows, EndOfStream);
  }

  lemma WriterLeaves()
    ensures AllLeave(OneWriter())
  {
  }

  /**
   * After any rows, a writer has received the first `limit` of them and, as soon as there were
   * that many (or any row at all under limit 0), exactly one end of stream.
   */
  lemma LimitReceives(limit: nat, rows: seq<Out>)
    requires EndOfStream !in rows
    ensures var s := LimitRun(OneWriter(), limit, rows);
            && s.Active() == (rows == [] || |rows| < limit)
            && s.subs[0].received == Take(limit, rows) + (if s.Active() then [] else [EndOfStream])
  {
    hide Heard, LimitRun;
    WriterLeaves();
    LimitHeard(OneWriter(), limit, rows);
    var s := LimitRun(OneWriter(), limit, rows);
    assert s.subs[0] == Heard(Writer(), Limited(limit, rows));
    WriterHears(rows);
    WriterHears(Take(limit, rows));
    assert s.Active() == s.subs[0].active;
    assert rows == [] || |rows| < limit ==> Take(limit, rows) == rows;
  }

  lemma LimitEnd(limit: nat, rows: seq<Out>)
    requires EndOfStream !in rows
    ensures LimitRun(OneWriter(), limit, rows + [EndOfStream]).subs[0].received == Take(limit, rows) + [EndOfStream]
  {
    hide Heard, LimitRun;
    WriterLeaves();
    LimitHeardEnd(OneWriter(), limit, rows);
    assert LimitRun(OneWriter(), limit, rows + [EndOfStream]).subs[0] == Heard(Writer(), Take(limit, rows) + [EndOfStream]);
    WriterHears(Take(limit, rows));
  }

  lemma {:induction false} RowsTake(rows: seq<Out>, n: nat)
    requires EndOfStream !in rows
    ensures |Rows(rows)| == |rows|
    ensures Rows(Take(n, rows)) == Take(n, Rows(rows))
  {
    if rows != [] {
      var before := rows[..|rows| - 1];
      RowsTake(before, n);
      if n <= |before| {
        assert Take(n, rows) == Take(n, before);
      } else {
        assert Take(n, rows) == rows;
        assert Take(n, Rows(rows)) == Rows(rows);
      }
    }
  }

  lemma {:induction false} FromTake(rows: seq<Out>, n: nat, side: Side)
    requires n <= |rows|
    ensures From(rows[..n], side) <= From(rows, side)
  {
    if n == |rows| {
      assert rows[..n] == rows;
    } else {
      FromTake(rows[..|rows| - 1], n, side);
      assert rows[..|rows| - 1][..n] == rows[..n];
    }
  }

  /** When a merge under a limit has been refused, it has emitted exactly as many rows as the limit needs. */
  lemma RefusedAtLimit(limit: nat, out: seq<Out>)
    requires EndOfStream !in out && out != []
    requires Welcome(LimitAccepts(OneWriter(), limit), out) && !LimitAccepts(OneWriter(), limit)(out)
    ensures |out| == if limit == 0 then 1 else limit
  {
    LimitReceives(limit, out);
    if |out| > 1 {
      var before := out[..|out| - 1];
      assert LimitAccepts(OneWriter(), limit)(before);
      LimitReceives(limit, before);
    }
  }

  /** What the writer has received after a whole run, and how long the merge's history got. */
  lemma RunReceives(c: Config, limit: nat, inputs: Inputs, schedule: seq<Side>)
    requires SortedInputs(c, inputs)
    requires var w := Run(c, LimitAccepts(OneWriter(), limit), inputs, schedule); w.doneLeft && w.doneRight
    ensures var w := Run(c, LimitAccepts(OneWriter(), limit), inputs, schedule);
            && LimitRun(OneWriter(), limit, w.out).subs[0].received == Take(limit, Body(w.out)) + [EndOfStream]
            && (Body(w.out) == w.out ==> |w.out| >= limit)
  {
    hide Run, S.Merge, From, Rows, S.Sorted, Map, GoodHistory, LimitRun;
    var ok := LimitAccepts(OneWriter(), limit);
    var w := Run(c, ok, inputs, schedule);
    RunInv(c, ok, inputs, schedule);
    RunBody(c, ok, inputs, schedule);
    EveryFinishedRun(c, ok, inputs, schedule);
    LimitReceives(limit, Body(w.out));
    LimitEnd(limit, Body(w.out));
    if Body(w.out) != w.out {
      assert w.out == Body(w.out) + [EndOfStream];
    } else {
      RefusedAtLimit(limit, w.out);
    }
  }

  /**
   * A whole run of a sorted merge under a limit, for any schedule: the writer receives rows sorted in
   * the requested direction whose keys are the first `limit` keys of the merge, in the order of each
   * input, and then exactly one end of stream.
   */
  lemma LimitedMerge(c: Config, limit: nat, inputs: Inputs, schedule: seq<Side>)
    requires SortedInputs(c, inputs)
    requires var w := Run(c, LimitAccepts(OneWriter(), limit), inputs, schedule); w.doneLeft && w.doneRight
    ensures var received := LimitRun(OneWriter(), limit, Run(c, LimitAccepts(OneWriter(), limit), inputs, schedule).out).subs[0].received;
            && received != [] && received[|received| - 1] == EndOfStream
            && var rows := received[..|received| - 1];
               && EndOfStream !in rows
               && S.Sorted(c.key, c.desc, Rows(rows))
               && Map(c.key, Rows(rows)) == Take(limit, Map(c.key, S.Merge(c.key, c.desc, inputs.left, inputs.right)))
               && From(rows, Left) <= inputs.left && From(rows, Right) <= inputs.right
  {
    hide Run, S.Merge, From, Rows, S.Sorted, LimitRun, LimitAccepts, Map, Body;
    var ok := LimitAccepts(OneWriter(), limit);
    var w := Run(c, ok, inputs, schedule);
    var body := Body(w.out);
    RunReceives(c, limit, inputs, schedule);
    EveryRunIsSorted(c, ok, inputs, schedule);
    EveryFinishedRun(c, ok, inputs, schedule);
    var received := LimitRun(OneWriter(), limit, w.out).subs[0].received;
    assert received[..|received| - 1] == Take(limit, body);
    RowsTake(body, limit);
    FromTake(body, Min(limit, |body|), Left);
    FromTake(body, Min(limit, |body|), Right);
    TakeSorted(c.key, c.desc, limit, Rows(body));
    FirstKeys(c, limit, inputs, w.out);
  }

  /** The first rows of a history that is complete, or long enough, have the first keys of the merge. */
  lemma FirstKeys(c: Config, limit: nat, inputs: Inputs, out: seq<Out>)
    requires var keys := Map(c.key, S.Merge(c.key, c.desc, inputs.left, inputs.right));
             && |Rows(Body(out))| == |Body(out)|
             && Map(c.key, Rows(Body(out))) <= keys
             && (Body(out) == out ==> |out| >= limit)
             && (Body(out) != out ==> Map(c.key, Rows(Body(out))) == keys)
    ensures Map(c.key, Take(limit, Rows(Body(out)))) ==
            Take(limit, Map(c.key, S.Merge(c.key, c.desc, inputs.left, inputs.right)))
  {
    hide S.Merge, Rows, Body;
    var rows, keys := Rows(Body(out)), Map(c.key, S.Merge(c.key, c.desc, inputs.left, inputs.right));
    assert Map(c.key, Take(limit, rows)) == Take(limit, Map(c.key, rows));
    assert Take(limit, Map(c.key, rows)) == Take(limit, keys);
  }

  lemma TakeSorted(key: Row -> Key, desc: bool, n: nat, rows: seq<Row>)
    requires S.Sorted(key, desc, rows)
    ensures S.Sorted(key, desc, Take(n, rows))
  {
  }
}
