/** The union operator: it forwards rows in the order its inputs deliver them, each call under its lock. */
module UnionOperator {
  import opened Values
  import opened Sequences
  import opened TopKOperator
  import opened Arrivals

  type Accepts = seq<Message> -> bool

  /** A subscriber that never leaves. */
  function WantsAll(): Accepts { _ => true }

  datatype State = State(finished: bool, ended: nat, out: seq<Message>)

  const Initial := State(false, 0, [])

  datatype Called = Called(s: State, more: bool)

  /** One call by one of `n` inputs. */
  function Forward(n: nat, ok: Accepts, s: State, m: Message): Called {
    if s.finished then Called(s, false)
    else match m
      case EndOfInput =>
        if s.ended + 1 == n then Called(State(true, s.ended + 1, s.out + [EndOfInput]), false)
        else Called(s.(ended := s.ended + 1), false)
      case Record(_) =>
        var out := s.out + [m];
        if ok(out) then Called(s.(out := out), true) else Called(State(true, s.ended, out), false)
  }

  class UnionAll {
    const inputs: nat
    /** Whether some subscriber is still there after a history of emissions. */
    const accepts: Accepts

    var streamFinished: bool
    var eofCount: nat
    var out: seq<Message>

    function Now(): State
      reads this
    {
      State(streamFinished, eofCount, out)
    }

    constructor (inputs: nat, accepts: Accepts)
      ensures Now() == Initial && this.inputs == inputs && this.accepts == accepts
    {
      this.inputs, this.accepts := inputs, accepts;
      streamFinished, eofCount, out := false, 0, [];
    }

    method Emit(m: Message) returns (more: bool)
      modifies `out
      ensures out == old(out) + [m] && more == accepts(out)
    {
      out := out + [m];
      more := accepts(out);
    }

    method Consume(m: Message) returns (more: bool)
      modifies this
      ensures Called(Now(), more) == Forward(inputs, accepts, old(Now()), m)
    {
      if streamFinished {
        return false;
      }
      if m.EndOfInput? {
        eofCount := eofCount + 1;
        if eofCount == inputs {
          streamFinished := true;
          var _ := Emit(EndOfInput);
        }
        return false;
      }
      more := Emit(m);
      if !more {
        streamFinished := true;
      }
    }
  }

  // --- runs ---

  /** The operator between its inputs: how many calls each has made, and whether it was told to stop. */
  datatype World = World(s: State, at: seq<nat>, done: seq<bool>)

  function Start(n: nat): World { World(Initial, seq(n, _ => 0), seq(n, _ => false)) }

  /** One input makes its next call, unless it was told to stop. */
  function Step(ok: Accepts, inputs: seq<seq<Row>>, w: World, k: nat): (w': World)
    requires |w.at| == |w.done| == |inputs|
    ensures |w'.at| == |w'.done| == |inputs|
  {
    if k >= |inputs| || w.done[k] then w
    else
      var m := if w.at[k] < |inputs[k]| then Record(inputs[k][w.at[k]]) else EndOfInput;
      var r := Forward(|inputs|, ok, w.s, m);
      World(r.s, w.at[k := w.at[k] + 1], w.done[k := !r.more])
  }

  /** The calls happen in the order of the schedule. */
  function Run(ok: Accepts, inputs: seq<seq<Row>>, schedule: seq<nat>): (w: World)
    ensures |w.at| == |w.done| == |inputs|
  {
    if schedule == [] then Start(|inputs|)
    else Step(ok, inputs, Run(ok, inputs, schedule[..|schedule| - 1]), schedule[|schedule| - 1])
  }

  // --- what a run emits ---

  /** The rows delivered so far. */
  function Delivered(inputs: seq<seq<Row>>, at: seq<nat>): (rows: seq<seq<Row>>)
    requires |at| == |inputs|
    ensures |rows| == |inputs| && forall k :: 0 <= k < |rows| ==> rows[k] == Take(at[k], inputs[k])
  {
    seq(|inputs|, k requires 0 <= k < |inputs| => Take(at[k], inputs[k]))
  }

  /** One more row, at the end. */
  lemma {:induction false} InterleavedSnoc(ins: seq<seq<Row>>, k: nat, out: seq<Row>, row: Row)
    requires k < |ins| && Interleaved(ins, out)
    ensures Interleaved(ins[k := ins[k] + [row]], out + [row])
    decreases |out|
  {
    var more := ins[k := ins[k] + [row]];
    if out == [] {
      assert more[k := more[k][1..]] == ins;
      assert (out + [row])[1..] == out;
      InterleavedCons(more, k, out + [row]);
    } else {
      var j :| 0 <= j < |ins| && Goes(ins, j, out[0]) && Interleaved(ins[j := ins[j][1..]], out[1..]);
      InterleavedSnoc(ins[j := ins[j][1..]], k, out[1..], row);
      var rest := ins[j := ins[j][1..]];
      assert more[j][1..] == if j == k then rest[k] + [row] else rest[j];
      assert more[j := more[j][1..]] == rest[k := rest[k] + [row]];
      assert (out + [row])[1..] == out[1..] + [row];
      InterleavedCons(more, j, out + [row]);
    }
  }

  /** How many inputs were told to stop. */
  function Stopped(done: seq<bool>): nat {
    if done == [] then 0 else Stopped(done[..|done| - 1]) + if done[|done| - 1] then 1 else 0
  }

  lemma {:induction false} StoppedStep(done: seq<bool>, k: nat)
    requires k < |done| && !done[k]
    ensures Stopped(done[k := true]) == Stopped(done) + 1
  {
    var last := |done| - 1;
    if k < last {
      StoppedStep(done[..last], k);
      assert done[k := true][..last] == done[..last][k := true];
    } else {
      assert done[k := true][..last] == done[..last];
    }
  }

  lemma {:induction false} StoppedAll(done: seq<bool>)
    ensures Stopped(done) <= |done|
    ensures Stopped(done) == |done| <==> forall k :: 0 <= k < |done| ==> done[k]
  {
    if done != [] {
      StoppedAll(done[..|done| - 1]);
    }
  }

  lemma {:induction false} StoppedNone(n: nat)
    ensures Stopped(seq(n, _ => false)) == 0
  {
    if n > 0 {
      StoppedNone(n - 1);
      assert seq(n, _ => false)[..n - 1] == seq(n - 1, _ => false);
    }
  }

  /** While rows still come: all delivered rows were forwarded, and the inputs that stopped are those that ended. */
  ghost predicate Forwarding(inputs: seq<seq<Row>>, w: World, rows: seq<Row>)
    requires |w.at| == |w.done| == |inputs|
  {
    && !w.s.finished && w.s.out == Records(rows) && Interleaved(Delivered(inputs, w.at), rows)
    && w.s.ended == Stopped(w.done) < |inputs|
    && forall k :: 0 <= k < |inputs| ==> w.at[k] <= |inputs[k]| + 1 && (w.done[k] <==> w.at[k] == |inputs[k]| + 1)
  }

  /** All rows were forwarded, and the end after them; or the last row was refused. */
  ghost predicate Ended(ok: Accepts, inputs: seq<seq<Row>>, s: State, rows: seq<Row>) {
    && s.finished
    && ( || (s.out == Records(rows) + [EndOfInput] && Interleaved(inputs, rows))
         || (s.out == Records(rows) && rows != [] && !ok(s.out)))
  }

  ghost predicate RunOk(ok: Accepts, inputs: seq<seq<Row>>, w: World)
    requires |w.at| == |w.done| == |inputs|
  {
    exists rows :: Forwarding(inputs, w, rows) || Ended(ok, inputs, w.s, rows)
  }

  lemma RecordsSnoc(rows: seq<Row>, row: Row)
    ensures Records(rows + [row]) == Records(rows) + [Record(row)]
  {
  }

  lemma DeliveredMore(inputs: seq<seq<Row>>, at: seq<nat>, k: nat)
    requires |at| == |inputs| && k < |inputs| && at[k] <= |inputs[k]|
    ensures Delivered(inputs, at[k := at[k] + 1]) ==
            if at[k] == |inputs[k]| then Delivered(inputs, at)
            else Delivered(inputs, at)[k := Delivered(inputs, at)[k] + [inputs[k][at[k]]]]
  {
    var before, after := Delivered(inputs, at), Delivered(inputs, at[k := at[k] + 1]);
    assert after[k] == if at[k] == |inputs[k]| then before[k] else before[k] + [inputs[k][at[k]]];
    forall j | 0 <= j < |inputs| && j != k ensures after[j] == before[j] {
    }
  }

  lemma DeliveredAll(inputs: seq<seq<Row>>, at: seq<nat>)
    requires |at| == |inputs| && forall k :: 0 <= k < |inputs| ==> |inputs[k]| <= at[k]
    ensures Delivered(inputs, at) == inputs
  {
    forall k | 0 <= k < |inputs| ensures Delivered(inputs, at)[k] == inputs[k] {
    }
  }

  lemma StepForwarding(ok: Accepts, inputs: seq<seq<Row>>, w: World, rows: seq<Row>, k: nat)
    requires |w.at| == |w.done| == |inputs| && Forwarding(inputs, w, rows) && k < |inputs| && !w.done[k] && w.at[k] < |inputs[k]|
    ensures var w', more := Step(ok, inputs, w, k), rows + [inputs[k][w.at[k]]];
            Forwarding(inputs, w', more) || Ended(ok, inputs, w'.s, more)
  {
    hide Interleaved, Stopped;
    var row := inputs[k][w.at[k]];
    InterleavedSnoc(Delivered(inputs, w.at), k, rows, row);
    RecordsSnoc(rows, row);
    DeliveredMore(inputs, w.at, k);
    assert w.done[k := false] == w.done;
  }

  lemma StepEnds(ok: Accepts, inputs: seq<seq<Row>>, w: World, rows: seq<Row>, k: nat)
    requires |w.at| == |w.done| == |inputs| && Forwarding(inputs, w, rows) && k < |inputs| && !w.done[k] && w.at[k] == |inputs[k]|
    ensures var w' := Step(ok, inputs, w, k); Forwarding(inputs, w', rows) || Ended(ok, inputs, w'.s, rows)
  {
    hide Interleaved, Stopped;
    StoppedStep(w.done, k);
    StoppedAll(w.done[k := true]);
    DeliveredMore(inputs, w.at, k);
    if w.s.ended + 1 == |inputs| {
      forall j | 0 <= j < |inputs| ensures |inputs[j]| <= w.at[j] {
        assert w.done[k := true][j];
      }
      DeliveredAll(inputs, w.at);
    }
  }

  /** Every call keeps the run in order. */
  lemma StepOk(ok: Accepts, inputs: seq<seq<Row>>, w: World, k: nat)
    requires |w.at| == |w.done| == |inputs| && RunOk(ok, inputs, w)
    ensures RunOk(ok, inputs, Step(ok, inputs, w, k))
  {
    hide Interleaved, Stopped, Forwarding;
    var rows :| Forwarding(inputs, w, rows) || Ended(ok, inputs, w.s, rows);
    if k < |inputs| && !w.done[k] && Forwarding(inputs, w, rows) {
      InPlace(inputs, w, rows, k);
      if w.at[k] < |inputs[k]| {
        StepForwarding(ok, inputs, w, rows, k);
      } else {
        StepEnds(ok, inputs, w, rows, k);
      }
    }
  }

  lemma InPlace(inputs: seq<seq<Row>>, w: World, rows: seq<Row>, k: nat)
    requires |w.at| == |w.done| == |inputs| && Forwarding(inputs, w, rows) && k < |inputs| && !w.done[k]
    ensures w.at[k] <= |inputs[k]|
  {
  }

  lemma {:induction false} RunsOk(ok: Accepts, inputs: seq<seq<Row>>, schedule: seq<nat>)
    requires inputs != []
    ensures RunOk(ok, inputs, Run(ok, inputs, schedule))
  {
    if schedule == [] {
      var none := seq(|inputs|, _ => 0);
      StoppedNone(|inputs|);
      assert Interleaved(Delivered(inputs, none), []);
      assert Forwarding(inputs, Start(|inputs|), []);
    } else {
      hide RunOk;
      RunsOk(ok, inputs, schedule[..|schedule| - 1]);
      StepOk(ok, inputs, Run(ok, inputs, schedule[..|schedule| - 1]), schedule[|schedule| - 1]);
    }
  }

  /**
   * In every run, whatever the schedule, that told all inputs to stop, either an interleaving of all rows went out and
   * exactly one end after it, or the last row was refused and nothing followed.
   */
  lemma EveryUnion(ok: Accepts, inputs: seq<seq<Row>>, schedule: seq<nat>) returns (rows: seq<Row>)
    requires inputs != [] && forall k :: 0 <= k < |inputs| ==> Run(ok, inputs, schedule).done[k]
    ensures Ended(ok, inputs, Run(ok, inputs, schedule).s, rows)
  {
    RunsOk(ok, inputs, schedule);
    var w := Run(ok, inputs, schedule);
    StoppedAll(w.done);
    rows :| Forwarding(inputs, w, rows) || Ended(ok, inputs, w.s, rows);
  }

  /** What each input has still to deliver. */
  function Remaining(inputs: seq<seq<Row>>, at: seq<nat>): (rows: seq<seq<Row>>)
    requires |at| == |inputs| && forall k :: 0 <= k < |inputs| ==> at[k] <= |inputs[k]|
    ensures |rows| == |inputs| && forall k :: 0 <= k < |rows| ==> rows[k] == inputs[k][at[k]..]
  {
    seq(|inputs|, k requires 0 <= k < |inputs| => inputs[k][at[k]..])
  }

  /** Rows went out and nobody has ended; the others are still to come in order. */
  ghost predicate Coming(inputs: seq<seq<Row>>, w: World, rows: seq<Row>, i: nat)
    requires |w.at| == |w.done| == |inputs| && i <= |rows|
  {
    && w.s == State(false, 0, Records(rows[..i]))
    && (forall k :: 0 <= k < |inputs| ==> !w.done[k] && w.at[k] <= |inputs[k]|)
    && Interleaved(Remaining(inputs, w.at), rows[i..])
  }

  lemma ComingStep(inputs: seq<seq<Row>>, w: World, rows: seq<Row>, i: nat) returns (k: nat)
    requires |w.at| == |w.done| == |inputs| && i < |rows| && Coming(inputs, w, rows, i)
    ensures Coming(inputs, Step(WantsAll(), inputs, w, k), rows, i + 1)
  {
    var rest, tail := Remaining(inputs, w.at), rows[i..];
    k :| 0 <= k < |rest| && Goes(rest, k, tail[0]) && Interleaved(rest[k := rest[k][1..]], tail[1..]);
    assert tail[1..] == rows[i + 1..];
    assert rows[..i + 1] == rows[..i] + [rows[i]];
    RecordsSnoc(rows[..i], rows[i]);
    assert Remaining(inputs, w.at[k := w.at[k] + 1]) == rest[k := rest[k][1..]];
    assert w.done[k := false] == w.done;
  }

  /** All rows went out, and the first `k` inputs have ended. */
  ghost predicate Ending(inputs: seq<seq<Row>>, w: World, rows: seq<Row>, k: nat)
    requires |w.at| == |w.done| == |inputs| && k <= |inputs|
  {
    && w.s == (if k < |inputs| then State(false, k, Records(rows)) else State(true, k, Records(rows) + [EndOfInput]))
    && forall j :: 0 <= j < |inputs| ==> (w.done[j] <==> j < k) && (j >= k ==> w.at[j] == |inputs[j]|)
  }

  lemma EndingStep(inputs: seq<seq<Row>>, w: World, rows: seq<Row>, k: nat)
    requires |w.at| == |w.done| == |inputs| && k < |inputs| && Ending(inputs, w, rows, k)
    ensures Ending(inputs, Step(WantsAll(), inputs, w, k), rows, k + 1)
  {
  }

  lemma RunSnoc(ok: Accepts, inputs: seq<seq<Row>>, schedule: seq<nat>, k: nat)
    ensures Run(ok, inputs, schedule + [k]) == Step(ok, inputs, Run(ok, inputs, schedule), k)
  {
    assert (schedule + [k])[..|schedule|] == schedule;
  }

  /** All rows can go out in this order. */
  lemma AllComing(inputs: seq<seq<Row>>, rows: seq<Row>) returns (schedule: seq<nat>)
    requires inputs != [] && Interleaved(inputs, rows)
    ensures Coming(inputs, Run(WantsAll(), inputs, schedule), rows, |rows|)
  {
    schedule := [];
    NoneCame(inputs, rows);
    hide Coming;
    for i := 0 to |rows|
      invariant Coming(inputs, Run(WantsAll(), inputs, schedule), rows, i)
    {
      var k := ComingStep(inputs, Run(WantsAll(), inputs, schedule), rows, i);
      RunSnoc(WantsAll(), inputs, schedule, k);
      schedule := schedule + [k];
    }
  }

  lemma NoneCame(inputs: seq<seq<Row>>, rows: seq<Row>)
    requires inputs != [] && Interleaved(inputs, rows)
    ensures Coming(inputs, Run(WantsAll(), inputs, []), rows, 0)
  {
    assert Remaining(inputs, Start(|inputs|).at) == inputs && rows[0..] == rows;
  }

  lemma AllCame(inputs: seq<seq<Row>>, w: World, rows: seq<Row>)
    requires |w.at| == |w.done| == |inputs| && inputs != [] && Coming(inputs, w, rows, |rows|)
    ensures Ending(inputs, w, rows, 0)
  {
    assert rows[|rows|..] == [] && rows[..|rows|] == rows;
    forall k | 0 <= k < |inputs| ensures w.at[k] == |inputs[k]| {
      assert Remaining(inputs, w.at)[k] == [];
    }
  }

  /** Every interleaving of the inputs is what some schedule emits to a subscriber that wants everything. */
  lemma EveryInterleaving(inputs: seq<seq<Row>>, rows: seq<Row>) returns (schedule: seq<nat>)
    requires inputs != [] && Interleaved(inputs, rows)
    ensures var w := Run(WantsAll(), inputs, schedule);
            w.s.out == Records(rows) + [EndOfInput] && forall k :: 0 <= k < |inputs| ==> w.done[k]
  {
    hide Coming, Run;
    schedule := AllComing(inputs, rows);
    AllCame(inputs, Run(WantsAll(), inputs, schedule), rows);
    for k := 0 to |inputs|
      invariant Ending(inputs, Run(WantsAll(), inputs, schedule), rows, k)
    {
      EndingStep(inputs, Run(WantsAll(), inputs, schedule), rows, k);
      RunSnoc(WantsAll(), inputs, schedule, k);
      schedule := schedule + [k];
    }
  }
}
