/**
 * The sorted-merge operator as a state machine.
 *
 * Each call of the operator is one atomic step, made by either input under the operator's lock. What
 * the operator has emitted so far is the history; whether the subscribers still want rows after an
 * emission is a function of that history.
 */
module MergeSpec {
  import opened Values
  import opened Sequences
  import S = Sorting

  datatype Side = Left | Right
  {
    function Other(): Side { if this == Left then Right else Left }
  }

  /** What an input delivers: a record, or the end of its stream. */
  datatype Event = Record(row: Row) | EndOfInput

  /** What the operator emits. The side a row came from is kept for the specification only. */
  datatype Out = Emitted(side: Side, row: Row) | EndOfStream

  datatype Config = Config(key: Row -> Key, desc: bool)
  {
    /** The order in which heads are picked: strict when ascending, and not strict when descending. */
    predicate Less(a: Key, b: Key) {
      desc != (KeyLe(a, b) && a != b)
    }

    /** The left row goes out before the right row. */
    predicate Before(a: Row, b: Row) { Less(key(a), key(b)) }
  }

  type Accepts = seq<Out> -> bool

  datatype State = State(left: seq<Row>, right: seq<Row>, eofLeft: bool, eofRight: bool, delayDone: bool)
  {
    function Buffer(side: Side): seq<Row> { if side == Left then left else right }

    predicate Eof(side: Side) { if side == Left then eofLeft else eofRight }

    function WithBuffer(side: Side, rows: seq<Row>): State {
      if side == Left then this.(left := rows) else this.(right := rows)
    }

    function Push(side: Side, row: Row): State { WithBuffer(side, Buffer(side) + [row]) }

    function WithEof(side: Side): State {
      if side == Left then this.(eofLeft := true) else this.(eofRight := true)
    }

    /** Nothing is buffered for this side, which may still deliver. */
    predicate ShouldWait(side: Side) { !Eof(side) && Buffer(side) == [] }
  }

  const Initial := State([], [], false, false, false)

  datatype Drained = Drained(s: State, out: seq<Out>, stopped: bool)

  /** Emits from one side, whose other side will deliver nothing more, until it is empty or refused. */
  function DrainSide(ok: Accepts, s: State, out: seq<Out>, side: Side): Drained
    decreases |s.Buffer(side)|
  {
    var b := s.Buffer(side);
    if b == [] then Drained(s, out, false)
    else
      var s' := s.WithBuffer(side, b[1..]);
      var out' := out + [Emitted(side, b[0])];
      if ok(out') then DrainSide(ok, s', out', side) else Drained(s', out', true)
  }

  function DrainEnded(ok: Accepts, s: State, out: seq<Out>): Drained {
    if s.eofRight && s.left != [] then DrainSide(ok, s, out, Left)
    else if s.eofLeft && s.right != [] then DrainSide(ok, s, out, Right)
    else Drained(s, out, false)
  }

  /** Emits from the buffers while both have rows, then from the only side left if the other ended. */
  function Drain(c: Config, ok: Accepts, s: State, out: seq<Out>): Drained
    decreases |s.left| + |s.right|
  {
    if s.left == [] || s.right == [] then DrainEnded(ok, s, out)
    else
      var side := if c.Before(s.left[0], s.right[0]) then Left else Right;
      var s' := s.WithBuffer(side, s.Buffer(side)[1..]);
      var out' := out + [Emitted(side, s.Buffer(side)[0])];
      if ok(out') then Drain(c, ok, s', out') else Drained(s', out', true)
  }

  /** Places a record that was not buffered among the buffered rows of the other side. */
  function DrainRecord(c: Config, ok: Accepts, s: State, out: seq<Out>, side: Side, row: Row): Drained
    decreases |s.Buffer(side.Other())|
  {
    var b := s.Buffer(side.Other());
    if b == [] then Drained(s.Push(side, row), out, false)
    else if c.Before(row, b[0]) then
      var out' := out + [Emitted(side, row)];
      Drained(s, out', !ok(out'))
    else
      var s' := s.WithBuffer(side.Other(), b[1..]);
      var out' := out + [Emitted(side.Other(), b[0])];
      if ok(out') then DrainRecord(c, ok, s', out', side, row) else Drained(s', out', true)
  }

  function Terminate(s: State, side: Side): State {
    var s' := s.WithEof(side);
    if s'.eofLeft && s'.eofRight then Initial else s'.(delayDone := true)
  }

  /** The result of one call: the new state, the history, and whether the input should go on. */
  datatype Called = Called(s: State, out: seq<Out>, more: bool)

  function Consume(c: Config, ok: Accepts, s: State, out: seq<Out>, side: Side, event: Event): Called {
    if s.delayDone then Called(Initial, out, false)
    else match event
      case EndOfInput =>
        var d := Drain(c, ok, s.WithEof(side), out);
        if d.stopped then Called(Terminate(d.s, side), d.out, false)
        else if d.s.eofLeft && d.s.eofRight then Called(Initial, d.out + [EndOfStream], false)
        else Called(d.s, d.out, false)
      case Record(row) =>
        if s.ShouldWait(side.Other()) then Called(s.Push(side, row), out, true)
        else
          var d := if s.Buffer(side) != [] then Drain(c, ok, s.Push(side, row), out)
                   else DrainRecord(c, ok, s, out, side, row);
          if d.stopped then Called(Terminate(d.s, side), d.out, false) else Called(d.s, d.out, true)
  }

  // --- runs ---

  /** The operator between its inputs: how much each has delivered, and whether it was told to stop. */
  datatype World = World(s: State, out: seq<Out>, at: At, doneLeft: bool, doneRight: bool)
  {
    predicate Done(side: Side) { if side == Left then doneLeft else doneRight }
  }

  /** How many deliveries each side has made. */
  datatype At = At(left: nat, right: nat)
  {
    function Of(side: Side): nat { if side == Left then left else right }

    function Advance(side: Side): At { if side == Left then At(left + 1, right) else At(left, right + 1) }
  }

  datatype Inputs = Inputs(left: seq<Row>, right: seq<Row>)
  {
    function Rows(side: Side): seq<Row> { if side == Left then left else right }
  }

  const Start := World(Initial, [], At(0, 0), false, false)

  /** One input makes its next call, unless it was told to stop. */
  function Step(c: Config, ok: Accepts, inputs: Inputs, w: World, side: Side): World {
    if w.Done(side) then w
    else
      var rows, pos := inputs.Rows(side), w.at.Of(side);
      var event := if pos < |rows| then Record(rows[pos]) else EndOfInput;
      var r := Consume(c, ok, w.s, w.out, side, event);
      World(r.s, r.out, w.at.Advance(side),
            if side == Left then !r.more else w.doneLeft, if side == Right then !r.more else w.doneRight)
  }

  /** The calls happen in the order of the schedule. */
  function Run(c: Config, ok: Accepts, inputs: Inputs, schedule: seq<Side>): World {
    if schedule == [] then Start
    else Step(c, ok, inputs, Run(c, ok, inputs, schedule[..|schedule| - 1]), schedule[|schedule| - 1])
  }

  // --- histories ---

  /** The emitted rows. */
  function Rows(out: seq<Out>): seq<Row> {
    if out == [] then []
    else
      var last := out[|out| - 1];
      Rows(out[..|out| - 1]) + if last.Emitted? then [last.row] else []
  }

  /** The emitted rows that came from one side. */
  function From(out: seq<Out>, side: Side): seq<Row> {
    if out == [] then []
    else
      var last := out[|out| - 1];
      From(out[..|out| - 1], side) + if last.Emitted? && last.side == side then [last.row] else []
  }

  lemma HistoryEmit(out: seq<Out>, side: Side, row: Row)
    ensures var out' := out + [Emitted(side, row)];
            && Rows(out') == Rows(out) + [row]
            && From(out', side) == From(out, side) + [row]
            && From(out', side.Other()) == From(out, side.Other())
  {
    var out' := out + [Emitted(side, row)];
    assert out'[..|out'| - 1] == out;
  }

  /** Every proper prefix of the history was accepted. */
  ghost predicate Welcome(ok: Accepts, out: seq<Out>) {
    forall n :: 0 < n < |out| ==> ok(out[..n])
  }

  ghost predicate SortedInputs(c: Config, inputs: Inputs) {
    S.Sorted(c.key, c.desc, inputs.left) && S.Sorted(c.key, c.desc, inputs.right)
  }

  /** `row` may follow everything emitted so far. */
  ghost predicate Follows(c: Config, rows: seq<Row>, row: Row) {
    rows != [] ==> InOrder(c.desc, c.key(rows[|rows| - 1]), c.key(row))
  }

  /** What one side has emitted is a prefix of its input, and its next row may follow the history if inputs are sorted. */
  ghost predicate SideGood(c: Config, inputs: Inputs, out: seq<Out>, side: Side) {
    var n := |From(out, side)|;
    && From(out, side) <= inputs.Rows(side)
    && (SortedInputs(c, inputs) && n < |inputs.Rows(side)| ==> Follows(c, Rows(out), inputs.Rows(side)[n]))
  }

  /**
   * The history is an order-preserving interleaving of a prefix of each input; if both inputs are sorted it is
   * sorted too, and nothing emitted belongs behind a row still to come.
   */
  ghost predicate GoodHistory(c: Config, inputs: Inputs, out: seq<Out>) {
    && (SortedInputs(c, inputs) ==> S.Sorted(c.key, c.desc, Rows(out)))
    && SideGood(c, inputs, out, Left) && SideGood(c, inputs, out, Right)
  }

  /** A side may emit its next row when that row goes before the other side's next row, if there is one. */
  ghost predicate MayEmit(c: Config, inputs: Inputs, out: seq<Out>, side: Side) {
    var n, m := |From(out, side)|, |From(out, side.Other())|;
    && n < |inputs.Rows(side)|
    && (SortedInputs(c, inputs) && m < |inputs.Rows(side.Other())| ==>
          InOrder(c.desc, c.key(inputs.Rows(side)[n]), c.key(inputs.Rows(side.Other())[m])))
  }

  /** The side that emits: its next row follows the one it emitted. */
  lemma EmittingSide(c: Config, inputs: Inputs, out: seq<Out>, out': seq<Out>, side: Side, row: Row)
    requires SideGood(c, inputs, out, side)
    requires |From(out, side)| < |inputs.Rows(side)| && row == inputs.Rows(side)[|From(out, side)|]
    requires Rows(out') == Rows(out) + [row] && From(out', side) == From(out, side) + [row]
    ensures SideGood(c, inputs, out', side)
  {
    hide From, Rows;
  }

  /** The other side: its next row follows what may go before it. */
  lemma WaitingSide(c: Config, inputs: Inputs, out: seq<Out>, out': seq<Out>, side: Side, row: Row)
    requires SideGood(c, inputs, out, side)
    requires SortedInputs(c, inputs) && |From(out, side)| < |inputs.Rows(side)| ==>
      InOrder(c.desc, c.key(row), c.key(inputs.Rows(side)[|From(out, side)|]))
    requires Rows(out') == Rows(out) + [row] && From(out', side) == From(out, side)
    ensures SideGood(c, inputs, out', side)
  {
    hide From, Rows;
  }

  lemma MayFollow(c: Config, inputs: Inputs, out: seq<Out>, side: Side, row: Row)
    requires SortedInputs(c, inputs) && SideGood(c, inputs, out, side)
    requires |From(out, side)| < |inputs.Rows(side)| && row == inputs.Rows(side)[|From(out, side)|]
    ensures Rows(out) != [] ==> forall y :: y in [row] ==> InOrder(c.desc, c.key(Rows(out)[|Rows(out)| - 1]), c.key(y))
  {
    hide From, Rows;
  }

  /** Emitting a row that may be emitted keeps the history good. */
  lemma EmitGood(c: Config, inputs: Inputs, out: seq<Out>, side: Side, row: Row)
    requires GoodHistory(c, inputs, out) && MayEmit(c, inputs, out, side)
    requires row == inputs.Rows(side)[|From(out, side)|]
    ensures GoodHistory(c, inputs, out + [Emitted(side, row)])
  {
    hide From, Rows, SideGood, S.Sorted, InOrder;
    var out' := out + [Emitted(side, row)];
    HistoryEmit(out, side, row);
    if SortedInputs(c, inputs) {
      MayFollow(c, inputs, out, side, row);
      SortedOne(c.key, c.desc, row);
      S.SortedAppend(c.key, c.desc, Rows(out), [row]);
    }
    assert SideGood(c, inputs, out, side) && SideGood(c, inputs, out, side.Other());
    EmittingSide(c, inputs, out, out', side, row);
    WaitingSide(c, inputs, out, out', side.Other(), row);
  }

  lemma SortedOne(key: Row -> Key, desc: bool, row: Row)
    ensures S.Sorted(key, desc, [row])
  {
  }

  lemma LessMeans(c: Config, a: Key, b: Key)
    ensures c.Less(a, b) ==> InOrder(c.desc, a, b)
    ensures !c.Less(a, b) ==> InOrder(c.desc, b, a)
  {
    InOrderFacts(c.desc, a, b, b);
  }

  // --- the invariant ---

  /** The rows a side has delivered are those emitted followed by those buffered; an ended side delivered all. */
  ghost predicate SideMid(inputs: Inputs, s: State, out: seq<Out>, side: Side, n: nat) {
    && n <= |inputs.Rows(side)|
    && From(out, side) + s.Buffer(side) == inputs.Rows(side)[..n]
    && (s.Eof(side) ==> n == |inputs.Rows(side)|)
  }

  /** The history of an operator that has not ended: good, without an end, and welcome so far. */
  ghost predicate Open(c: Config, ok: Accepts, inputs: Inputs, out: seq<Out>) {
    GoodHistory(c, inputs, out) && EndOfStream !in out && Welcome(ok, out)
  }

  /** What holds between the pieces of one call. */
  ghost predicate Mid(c: Config, ok: Accepts, inputs: Inputs, s: State, out: seq<Out>, at: At) {
    && Open(c, ok, inputs, out)
    && SideMid(inputs, s, out, Left, at.left) && SideMid(inputs, s, out, Right, at.right)
    && !s.delayDone
  }

  ghost predicate Accepted(ok: Accepts, out: seq<Out>) { out != [] ==> ok(out) }

  lemma WelcomeEmit(ok: Accepts, out: seq<Out>, o: Out)
    requires Welcome(ok, out) && Accepted(ok, out)
    ensures Welcome(ok, out + [o])
  {
    var out' := out + [o];
    forall n | 0 < n < |out'| ensures ok(out'[..n]) {
      assert out'[..n] == out[..n];
      assert out[..|out|] == out;
    }
  }

  /** One emission keeps the history open. */
  lemma EmitOpen(c: Config, ok: Accepts, inputs: Inputs, out: seq<Out>, side: Side, row: Row)
    requires Open(c, ok, inputs, out) && Accepted(ok, out) && MayEmit(c, inputs, out, side)
    requires row == inputs.Rows(side)[|From(out, side)|]
    ensures Open(c, ok, inputs, out + [Emitted(side, row)])
  {
    EmitGood(c, inputs, out, side, row);
    WelcomeEmit(ok, out, Emitted(side, row));
  }

  /** The head of a buffer is the side's first row not yet emitted. */
  lemma HeadIsNext(inputs: Inputs, s: State, out: seq<Out>, side: Side, n: nat)
    requires SideMid(inputs, s, out, side, n)
    ensures s.Buffer(side) != [] ==>
      |From(out, side)| < |inputs.Rows(side)| && inputs.Rows(side)[|From(out, side)|] == s.Buffer(side)[0]
    ensures s.Buffer(side) == [] ==> |From(out, side)| == n
  {
    if s.Buffer(side) != [] {
      assert (From(out, side) + s.Buffer(side))[|From(out, side)|] == s.Buffer(side)[0];
    }
  }

  lemma PopSides(inputs: Inputs, s: State, out: seq<Out>, side: Side, n: nat, m: nat)
    requires SideMid(inputs, s, out, side, n) && SideMid(inputs, s, out, side.Other(), m) && s.Buffer(side) != []
    ensures var s', out' := s.WithBuffer(side, s.Buffer(side)[1..]), out + [Emitted(side, s.Buffer(side)[0])];
            SideMid(inputs, s', out', side, n) && SideMid(inputs, s', out', side.Other(), m)
  {
    var b := s.Buffer(side);
    HistoryEmit(out, side, b[0]);
    assert From(out, side) + b == (From(out, side) + [b[0]]) + b[1..];
  }

  /** One emission of a buffered head, in the middle of a call. */
  lemma PopMid(c: Config, ok: Accepts, inputs: Inputs, s: State, out: seq<Out>, at: At, side: Side)
    requires Mid(c, ok, inputs, s, out, at) && Accepted(ok, out)
    requires s.Buffer(side) != [] && MayEmit(c, inputs, out, side)
    ensures Mid(c, ok, inputs, s.WithBuffer(side, s.Buffer(side)[1..]), out + [Emitted(side, s.Buffer(side)[0])], at)
  {
    assert SideMid(inputs, s, out, side, at.Of(side)) && SideMid(inputs, s, out, side.Other(), at.Of(side.Other()));
    HeadIsNext(inputs, s, out, side, at.Of(side));
    EmitOpen(c, ok, inputs, out, side, s.Buffer(side)[0]);
    PopSides(inputs, s, out, side, at.Of(side), at.Of(side.Other()));
  }

  /** A head may go out when it is before the other head, or when the other side has nothing more. */
  lemma HeadMayEmit(c: Config, ok: Accepts, inputs: Inputs, s: State, out: seq<Out>, at: At, side: Side)
    requires Mid(c, ok, inputs, s, out, at) && s.Buffer(side) != []
    requires s.Buffer(side.Other()) == [] ==> s.Eof(side.Other())
    requires s.Buffer(side.Other()) != [] ==>
      InOrder(c.desc, c.key(s.Buffer(side)[0]), c.key(s.Buffer(side.Other())[0]))
    ensures MayEmit(c, inputs, out, side)
  {
    assert SideMid(inputs, s, out, side, at.Of(side)) && SideMid(inputs, s, out, side.Other(), at.Of(side.Other()));
    HeadIsNext(inputs, s, out, side, at.Of(side));
    HeadIsNext(inputs, s, out, side.Other(), at.Of(side.Other()));
  }

  /** The result of draining: the state fits the history, and it stopped exactly when refused. */
  ghost predicate DrainOk(c: Config, ok: Accepts, inputs: Inputs, s: State, d: Drained, at: At) {
    && Mid(c, ok, inputs, d.s, d.out, at)
    && d.s.eofLeft == s.eofLeft && d.s.eofRight == s.eofRight
    && (d.stopped ==> d.out != [] && !ok(d.out))
    && (!d.stopped ==> Accepted(ok, d.out) && Rest(d.s))
  }

  /** At rest at most one buffer holds rows, and none does once both sides have ended. */
  ghost predicate Rest(s: State) {
    && (s.left == [] || s.right == [])
    && (s.eofLeft && s.eofRight ==> s.left == [] && s.right == [])
  }

  lemma {:induction false} DrainSideMid(c: Config, ok: Accepts, inputs: Inputs, s: State, out: seq<Out>, at: At, side: Side)
    requires Mid(c, ok, inputs, s, out, at) && Accepted(ok, out)
    requires s.Eof(side.Other()) && s.Buffer(side.Other()) == []
    ensures DrainOk(c, ok, inputs, s, DrainSide(ok, s, out, side), at)
    decreases |s.Buffer(side)|
  {
    hide Open, SideMid, From, Rows;
    var b := s.Buffer(side);
    if b != [] {
      var s' := s.WithBuffer(side, b[1..]);
      var out' := out + [Emitted(side, b[0])];
      HeadMayEmit(c, ok, inputs, s, out, at, side);
      PopMid(c, ok, inputs, s, out, at, side);
      if ok(out') {
        DrainSideMid(c, ok, inputs, s', out', at, side);
      }
    }
  }

  /** With rows on both sides, the head that `Less` picks may go out. */
  lemma DrainPop(c: Config, ok: Accepts, inputs: Inputs, s: State, out: seq<Out>, at: At, side: Side)
    requires Mid(c, ok, inputs, s, out, at) && Accepted(ok, out) && s.left != [] && s.right != []
    requires side == if c.Before(s.left[0], s.right[0]) then Left else Right
    ensures Mid(c, ok, inputs, s.WithBuffer(side, s.Buffer(side)[1..]), out + [Emitted(side, s.Buffer(side)[0])], at)
  {
    LessMeans(c, c.key(s.left[0]), c.key(s.right[0]));
    HeadMayEmit(c, ok, inputs, s, out, at, side);
    PopMid(c, ok, inputs, s, out, at, side);
  }

  lemma {:induction false} DrainMid(c: Config, ok: Accepts, inputs: Inputs, s: State, out: seq<Out>, at: At)
    requires Mid(c, ok, inputs, s, out, at) && Accepted(ok, out)
    ensures DrainOk(c, ok, inputs, s, Drain(c, ok, s, out), at)
    decreases |s.left| + |s.right|
  {
    hide Open, SideMid, From, Rows;
    if s.left != [] && s.right != [] {
      var side := if c.Before(s.left[0], s.right[0]) then Left else Right;
      var s' := s.WithBuffer(side, s.Buffer(side)[1..]);
      var out' := out + [Emitted(side, s.Buffer(side)[0])];
      DrainPop(c, ok, inputs, s, out, at, side);
      if ok(out') {
        DrainMid(c, ok, inputs, s', out', at);
      }
    } else if s.eofRight && s.left != [] {
      DrainSideMid(c, ok, inputs, s, out, at, Left);
    } else if s.eofLeft && s.right != [] {
      DrainSideMid(c, ok, inputs, s, out, at, Right);
    }
  }

  /** `row` is the next delivery of a side. */
  ghost predicate Delivers(inputs: Inputs, at: At, side: Side, row: Row) {
    at.Of(side) < |inputs.Rows(side)| && inputs.Rows(side)[at.Of(side)] == row
  }

  lemma PushMid(c: Config, ok: Accepts, inputs: Inputs, s: State, out: seq<Out>, at: At, side: Side, row: Row)
    requires Mid(c, ok, inputs, s, out, at) && !s.Eof(side) && Delivers(inputs, at, side, row)
    ensures Mid(c, ok, inputs, s.Push(side, row), out, at.Advance(side))
  {
    hide GoodHistory, Welcome, From, Rows, S.Sorted;
    var rows, n := inputs.Rows(side), at.Of(side);
    assert SideMid(inputs, s, out, side, n);
    assert rows[..n + 1] == rows[..n] + [row];
    assert From(out, side) + (s.Buffer(side) + [row]) == (From(out, side) + s.Buffer(side)) + [row];
    assert SideMid(inputs, s.Push(side, row), out, side, n + 1);
    assert SideMid(inputs, s.Push(side, row), out, side.Other(), at.Of(side.Other()));
  }

  /** A record of a side with an empty buffer that goes before the other head goes out at once. */
  lemma DirectMid(c: Config, ok: Accepts, inputs: Inputs, s: State, out: seq<Out>, at: At, side: Side, row: Row)
    requires Mid(c, ok, inputs, s, out, at) && Accepted(ok, out) && !s.Eof(side) && s.Buffer(side) == []
    requires Delivers(inputs, at, side, row) && s.Buffer(side.Other()) != []
    requires InOrder(c.desc, c.key(row), c.key(s.Buffer(side.Other())[0]))
    ensures Mid(c, ok, inputs, s, out + [Emitted(side, row)], at.Advance(side))
  {
    hide GoodHistory, Welcome, From, Rows, S.Sorted;
    var n, out' := at.Of(side), out + [Emitted(side, row)];
    assert SideMid(inputs, s, out, side, n) && SideMid(inputs, s, out, side.Other(), at.Of(side.Other()));
    HeadIsNext(inputs, s, out, side, n);
    HeadIsNext(inputs, s, out, side.Other(), at.Of(side.Other()));
    EmitOpen(c, ok, inputs, out, side, row);
    HistoryEmit(out, side, row);
    assert inputs.Rows(side)[..n + 1] == inputs.Rows(side)[..n] + [row];
    assert SideMid(inputs, s, out', side, n + 1);
    assert SideMid(inputs, s, out', side.Other(), at.Of(side.Other()));
  }

  /** The other side's head goes out because the record in hand does not go before it. */
  lemma OtherMayEmit(c: Config, ok: Accepts, inputs: Inputs, s: State, out: seq<Out>, at: At, side: Side, row: Row)
    requires Mid(c, ok, inputs, s, out, at) && s.Buffer(side) == [] && Delivers(inputs, at, side, row)
    requires s.Buffer(side.Other()) != []
    requires InOrder(c.desc, c.key(s.Buffer(side.Other())[0]), c.key(row))
    ensures MayEmit(c, inputs, out, side.Other())
  {
    assert SideMid(inputs, s, out, side, at.Of(side)) && SideMid(inputs, s, out, side.Other(), at.Of(side.Other()));
    HeadIsNext(inputs, s, out, side, at.Of(side));
    HeadIsNext(inputs, s, out, side.Other(), at.Of(side.Other()));
  }

  /** Placing one record. When the subscribers refuse, the record may be dropped; the history stays good. */
  ghost predicate PlaceOk(c: Config, ok: Accepts, inputs: Inputs, s: State, d: Drained, at: At) {
    && Open(c, ok, inputs, d.out)
    && d.s.eofLeft == s.eofLeft && d.s.eofRight == s.eofRight
    && (d.stopped ==> d.out != [] && !ok(d.out))
    && (!d.stopped ==> Accepted(ok, d.out) && (d.s.left == [] || d.s.right == []) && Mid(c, ok, inputs, d.s, d.out, at))
  }

  lemma {:induction false} DrainRecordMid(c: Config, ok: Accepts, inputs: Inputs, s: State, out: seq<Out>,
                                          at: At, side: Side, row: Row)
    requires Mid(c, ok, inputs, s, out, at) && Accepted(ok, out) && !s.Eof(side) && s.Buffer(side) == []
    requires Delivers(inputs, at, side, row)
    ensures PlaceOk(c, ok, inputs, s, DrainRecord(c, ok, s, out, side, row), at.Advance(side))
    decreases |s.Buffer(side.Other())|
  {
    hide Open, SideMid, From, Rows;
    var other := side.Other();
    var b := s.Buffer(other);
    if b == [] {
      PushMid(c, ok, inputs, s, out, at, side, row);
    } else {
      LessMeans(c, c.key(row), c.key(b[0]));
      if c.Before(row, b[0]) {
        DirectMid(c, ok, inputs, s, out, at, side, row);
      } else {
        OtherMayEmit(c, ok, inputs, s, out, at, side, row);
        PopMid(c, ok, inputs, s, out, at, other);
        var out' := out + [Emitted(other, b[0])];
        if ok(out') {
          DrainRecordMid(c, ok, inputs, s.WithBuffer(other, b[1..]), out', at, side, row);
        }
      }
    }
  }

  /** Nobody has refused, and some side may still deliver. */
  ghost predicate Running(c: Config, ok: Accepts, inputs: Inputs, w: World) {
    && Mid(c, ok, inputs, w.s, w.out, Delivered(inputs, w.at))
    && Accepted(ok, w.out) && Rest(w.s)
    && w.s.eofLeft == w.doneLeft == (w.at.left > |inputs.left|)
    && w.s.eofRight == w.doneRight == (w.at.right > |inputs.right|)
    && !(w.doneLeft && w.doneRight)
  }

  /** Deliveries of rows only: the end of an input is a delivery too. */
  function Delivered(inputs: Inputs, at: At): At {
    At(Min(at.left, |inputs.left|), Min(at.right, |inputs.right|))
  }

  /** The subscribers refused the last emission, so the history is final. */
  ghost predicate Refused(c: Config, ok: Accepts, inputs: Inputs, w: World) {
    && Open(c, ok, inputs, w.out) && w.out != [] && !ok(w.out)
    && (w.doneLeft || w.doneRight)
    && if w.doneLeft && w.doneRight then w.s == Initial
       else w.s.delayDone && w.s.eofLeft == w.doneLeft && w.s.eofRight == w.doneRight
  }

  /** Both inputs ended and everything went out, followed by one end of stream. */
  ghost predicate Completed(c: Config, ok: Accepts, inputs: Inputs, w: World) {
    && w.doneLeft && w.doneRight && w.s == Initial
    && w.out != [] && w.out[|w.out| - 1] == EndOfStream
    && var rows := w.out[..|w.out| - 1];
       Open(c, ok, inputs, rows) && Accepted(ok, rows) && From(rows, Left) == inputs.left && From(rows, Right) == inputs.right
  }

  ghost predicate Inv(c: Config, ok: Accepts, inputs: Inputs, w: World) {
    Running(c, ok, inputs, w) || Refused(c, ok, inputs, w) || Completed(c, ok, inputs, w)
  }

  lemma StartInv(c: Config, ok: Accepts, inputs: Inputs)
    ensures Inv(c, ok, inputs, Start)
  {
    assert SideMid(inputs, Initial, [], Left, 0) && SideMid(inputs, Initial, [], Right, 0);
    assert GoodHistory(c, inputs, []);
  }

  lemma StepEnd(c: Config, ok: Accepts, inputs: Inputs, w: World, side: Side)
    requires Running(c, ok, inputs, w) && !w.Done(side) && w.at.Of(side) == |inputs.Rows(side)|
    ensures Inv(c, ok, inputs, Step(c, ok, inputs, w, side))
  {
    hide Open, From, Rows, Drain;
    var s, at := w.s.WithEof(side), Delivered(inputs, w.at);
    assert SideMid(inputs, w.s, w.out, side, at.Of(side)) && SideMid(inputs, w.s, w.out, side.Other(), at.Of(side.Other()));
    assert SideMid(inputs, s, w.out, side, at.Of(side)) && SideMid(inputs, s, w.out, side.Other(), at.Of(side.Other()));
    assert Mid(c, ok, inputs, s, w.out, at);
    DrainMid(c, ok, inputs, s, w.out, at);
    var d, w' := Drain(c, ok, s, w.out), Step(c, ok, inputs, w, side);
    if d.stopped {
      assert Refused(c, ok, inputs, w');
    } else if d.s.eofLeft && d.s.eofRight {
      assert w'.out[..|w'.out| - 1] == d.out;
      assert SideMid(inputs, d.s, d.out, Left, at.left) && SideMid(inputs, d.s, d.out, Right, at.right);
      assert Completed(c, ok, inputs, w');
    } else {
      assert Delivered(inputs, w'.at) == at;
      assert Running(c, ok, inputs, w');
    }
  }

  lemma StepRecord(c: Config, ok: Accepts, inputs: Inputs, w: World, side: Side)
    requires Running(c, ok, inputs, w) && !w.Done(side) && w.at.Of(side) < |inputs.Rows(side)|
    ensures Inv(c, ok, inputs, Step(c, ok, inputs, w, side))
  {
    hide Open, SideMid, From, Rows, Drain, DrainRecord;
    var row, at := inputs.Rows(side)[w.at.Of(side)], Delivered(inputs, w.at);
    var w' := Step(c, ok, inputs, w, side);
    assert !w.s.Eof(side) && Delivers(inputs, at, side, row);
    assert Delivered(inputs, w.at.Advance(side)) == at.Advance(side);
    if w.s.ShouldWait(side.Other()) {
      PushMid(c, ok, inputs, w.s, w.out, at, side, row);
      assert Running(c, ok, inputs, w');
    } else if w.s.Buffer(side) != [] {
      PushMid(c, ok, inputs, w.s, w.out, at, side, row);
      DrainMid(c, ok, inputs, w.s.Push(side, row), w.out, at.Advance(side));
      assert if w'.Done(side) then Refused(c, ok, inputs, w') else Running(c, ok, inputs, w');
    } else {
      DrainRecordMid(c, ok, inputs, w.s, w.out, at, side, row);
      assert if w'.Done(side) then Refused(c, ok, inputs, w') else Running(c, ok, inputs, w');
    }
  }

  /** Every call keeps the invariant, whichever side makes it and whatever it delivers. */
  lemma StepInv(c: Config, ok: Accepts, inputs: Inputs, w: World, side: Side)
    requires Inv(c, ok, inputs, w)
    ensures Inv(c, ok, inputs, Step(c, ok, inputs, w, side))
  {
    if w.Done(side) {
    } else if Running(c, ok, inputs, w) {
      if w.at.Of(side) < |inputs.Rows(side)| {
        StepRecord(c, ok, inputs, w, side);
      } else {
        StepEnd(c, ok, inputs, w, side);
      }
    } else {
      assert Refused(c, ok, inputs, Step(c, ok, inputs, w, side));
    }
  }

  lemma {:induction false} RunInv(c: Config, ok: Accepts, inputs: Inputs, schedule: seq<Side>)
    ensures Inv(c, ok, inputs, Run(c, ok, inputs, schedule))
  {
    if schedule == [] {
      StartInv(c, ok, inputs);
    } else {
      RunInv(c, ok, inputs, schedule[..|schedule| - 1]);
      StepInv(c, ok, inputs, Run(c, ok, inputs, schedule[..|schedule| - 1]), schedule[|schedule| - 1]);
    }
  }

  // --- main results ---

  /** Every row came from exactly one side. */
  lemma {:induction false} RowsSplit(out: seq<Out>)
    ensures multiset(Rows(out)) == multiset(From(out, Left)) + multiset(From(out, Right))
  {
    if out != [] {
      RowsSplit(out[..|out| - 1]);
    }
  }

  /** What a side has not emitted yet all follows what was emitted. */
  lemma RestFollows(c: Config, inputs: Inputs, out: seq<Out>, side: Side)
    requires SortedInputs(c, inputs) && SideGood(c, inputs, out, side)
    ensures var rest := inputs.Rows(side)[|From(out, side)|..];
            S.Sorted(c.key, c.desc, rest) && forall x :: x in rest ==> Follows(c, Rows(out), x)
  {
    hide From, Rows;
    var all, n, rows := inputs.Rows(side), |From(out, side)|, Rows(out);
    assert S.Sorted(c.key, c.desc, all);
    var rest := all[n..];
    if rest != [] && rows != [] {
      assert rest[0] == all[n];
      S.SortedFrom(c.key, c.desc, rows[|rows| - 1], rest);
    }
  }

  /** What the inputs still have to deliver after a history, merged. */
  function Remaining(c: Config, inputs: Inputs, out: seq<Out>): seq<Row>
    requires |From(out, Left)| <= |inputs.left| && |From(out, Right)| <= |inputs.right|
  {
    S.Merge(c.key, c.desc, inputs.left[|From(out, Left)|..], inputs.right[|From(out, Right)|..])
  }

  lemma HistorySorted(c: Config, inputs: Inputs, out: seq<Out>)
    requires SortedInputs(c, inputs) && GoodHistory(c, inputs, out)
    ensures S.Sorted(c.key, c.desc, Rows(out) + Remaining(c, inputs, out))
  {
    hide S.Merge, From, Rows;
    var l, r := inputs.left[|From(out, Left)|..], inputs.right[|From(out, Right)|..];
    var rows, tail := Rows(out), Remaining(c, inputs, out);
    RestFollows(c, inputs, out, Left);
    RestFollows(c, inputs, out, Right);
    S.MergeSorted(c.key, c.desc, l, r);
    forall y | rows != [] && y in tail ensures InOrder(c.desc, c.key(rows[|rows| - 1]), c.key(y)) {
      S.MergeMembers(c.key, c.desc, l, r);
      assert y in l || y in r;
      assert Follows(c, rows, y);
    }
    S.SortedAppend(c.key, c.desc, rows, tail);
  }

  lemma HistoryMultiset(c: Config, inputs: Inputs, out: seq<Out>)
    requires From(out, Left) <= inputs.left && From(out, Right) <= inputs.right
    ensures multiset(Rows(out) + Remaining(c, inputs, out)) ==
            multiset(S.Merge(c.key, c.desc, inputs.left, inputs.right))
  {
    hide S.Merge, From, Rows;
    var l, r := inputs.left[|From(out, Left)|..], inputs.right[|From(out, Right)|..];
    RowsSplit(out);
    S.MergeMultiset(c.key, c.desc, l, r);
    S.MergeMultiset(c.key, c.desc, inputs.left, inputs.right);
    assert inputs.left == From(out, Left) + l && inputs.right == From(out, Right) + r;
  }

  /** Continuing a good history with the merge of what is left gives the keys of the whole merge. */
  lemma HistoryKeys(c: Config, inputs: Inputs, out: seq<Out>)
    requires SortedInputs(c, inputs) && GoodHistory(c, inputs, out)
    ensures Map(c.key, Rows(out) + Remaining(c, inputs, out)) ==
            Map(c.key, S.Merge(c.key, c.desc, inputs.left, inputs.right))
  {
    hide S.Merge, From, Rows, S.Sorted;
    HistorySorted(c, inputs, out);
    HistoryMultiset(c, inputs, out);
    S.MergeSorted(c.key, c.desc, inputs.left, inputs.right);
    S.SameKeys(c.key, c.desc, Rows(out) + Remaining(c, inputs, out), S.Merge(c.key, c.desc, inputs.left, inputs.right));
  }

  lemma NothingRemains(c: Config, inputs: Inputs, out: seq<Out>)
    requires From(out, Left) == inputs.left && From(out, Right) == inputs.right
    ensures Remaining(c, inputs, out) == []
  {
    hide From;
  }

  /** The emitted keys are the first keys of the merge the relation stands for. */
  lemma HistoryPrefix(c: Config, inputs: Inputs, out: seq<Out>)
    requires SortedInputs(c, inputs) && GoodHistory(c, inputs, out)
    ensures Map(c.key, Rows(out)) <= Map(c.key, S.Merge(c.key, c.desc, inputs.left, inputs.right))
    ensures From(out, Left) == inputs.left && From(out, Right) == inputs.right ==>
      Map(c.key, Rows(out)) == Map(c.key, S.Merge(c.key, c.desc, inputs.left, inputs.right))
  {
    hide S.Merge, From, Rows, S.Sorted, Remaining;
    HistoryKeys(c, inputs, out);
    var tail := Remaining(c, inputs, out);
    assert Map(c.key, Rows(out) + tail) == Map(c.key, Rows(out)) + Map(c.key, tail);
    if From(out, Left) == inputs.left && From(out, Right) == inputs.right {
      NothingRemains(c, inputs, out);
      assert Rows(out) + tail == Rows(out);
    }
  }

  /** The rows of a history with its final end of stream removed. */
  function Body(out: seq<Out>): seq<Out> {
    if out != [] && out[|out| - 1] == EndOfStream then out[..|out| - 1] else out
  }

  lemma RunBody(c: Config, ok: Accepts, inputs: Inputs, schedule: seq<Side>)
    ensures var w := Run(c, ok, inputs, schedule);
            Open(c, ok, inputs, Body(w.out)) && (Body(w.out) != w.out ==> Completed(c, ok, inputs, w))
  {
    RunInv(c, ok, inputs, schedule);
    var w := Run(c, ok, inputs, schedule);
    assert w.out != [] && w.out[|w.out| - 1] == EndOfStream ==> EndOfStream in w.out;
  }

  /**
   * At any point of any run, ascending or descending, whatever the subscribers accept: the rows
   * emitted keep the order of each input, and no end of stream precedes a row. If the inputs are sorted,
   * the rows are sorted and have the keys of a prefix of the merge.
   */
  lemma EveryRunIsSorted(c: Config, ok: Accepts, inputs: Inputs, schedule: seq<Side>)
    ensures var body := Body(Run(c, ok, inputs, schedule).out);
            && EndOfStream !in body
            && From(body, Left) <= inputs.left && From(body, Right) <= inputs.right
            && (SortedInputs(c, inputs) ==>
                  && S.Sorted(c.key, c.desc, Rows(body))
                  && Map(c.key, Rows(body)) <= Map(c.key, S.Merge(c.key, c.desc, inputs.left, inputs.right)))
  {
    RunBody(c, ok, inputs, schedule);
    if SortedInputs(c, inputs) {
      HistoryPrefix(c, inputs, Body(Run(c, ok, inputs, schedule).out));
    }
  }

  /**
   * When both inputs have been told to stop, the operator is back in its initial state, and either
   * it emitted both inputs completely, each in its order, and exactly one end of stream after them, with the
   * keys of their merge if they were sorted; or the subscribers refused its last row and it emitted no end of stream.
   */
  lemma EveryFinishedRun(c: Config, ok: Accepts, inputs: Inputs, schedule: seq<Side>)
    requires var w := Run(c, ok, inputs, schedule); w.doneLeft && w.doneRight
    ensures var w := Run(c, ok, inputs, schedule);
            && w.s == Initial
            && if Body(w.out) != w.out then
                 && From(Body(w.out), Left) == inputs.left && From(Body(w.out), Right) == inputs.right
                 && (SortedInputs(c, inputs) ==>
                       Map(c.key, Rows(Body(w.out))) == Map(c.key, S.Merge(c.key, c.desc, inputs.left, inputs.right)))
                 && (Body(w.out) != [] ==> ok(Body(w.out)))
               else w.out != [] && !ok(w.out)
  {
    RunInv(c, ok, inputs, schedule);
    var w := Run(c, ok, inputs, schedule);
    RunBody(c, ok, inputs, schedule);
    if SortedInputs(c, inputs) {
      HistoryPrefix(c, inputs, Body(w.out));
    }
    if Completed(c, ok, inputs, w) {
      assert |Body(w.out)| == |w.out| - 1;
    }
  }

  /** Once refused, the operator emits nothing more, and the next call of the other side ends the run. */
  lemma EarlyStop(c: Config, ok: Accepts, inputs: Inputs, schedule: seq<Side>, side: Side)
    requires var w := Run(c, ok, inputs, schedule); w.out != [] && EndOfStream !in w.out && !ok(w.out)
    ensures var w, w' := Run(c, ok, inputs, schedule), Run(c, ok, inputs, schedule + [side]);
            && w'.out == w.out
            && (w.doneLeft || w.doneRight)
            && w'.Done(side)
            && (w'.doneLeft && w'.doneRight ==> w'.s == Initial)
  {
    RunInv(c, ok, inputs, schedule);
    RunInv(c, ok, inputs, schedule + [side]);
    assert (schedule + [side])[..|schedule|] == schedule;
  }

  function Calls(schedule: seq<Side>, side: Side): nat {
    if schedule == [] then 0
    else Calls(schedule[..|schedule| - 1], side) + if schedule[|schedule| - 1] == side then 1 else 0
  }

  /** An input that makes one call more than it has rows is told to stop: every fair run finishes. */
  lemma {:induction false} EveryInputStops(c: Config, ok: Accepts, inputs: Inputs, schedule: seq<Side>, side: Side)
    ensures var w := Run(c, ok, inputs, schedule);
            w.Done(side) || (w.at.Of(side) == Calls(schedule, side) && w.at.Of(side) <= |inputs.Rows(side)|)
  {
    if schedule != [] {
      EveryInputStops(c, ok, inputs, schedule[..|schedule| - 1], side);
    }
  }

  /** The checks the operator makes on entry hold at every call a run makes. */
  predicate EntryChecks(s: State, side: Side) {
    if s.delayDone then s.Eof(side.Other()) else !s.Eof(side)
  }

  lemma EntryChecksHold(c: Config, ok: Accepts, inputs: Inputs, schedule: seq<Side>, side: Side)
    ensures var w := Run(c, ok, inputs, schedule); !w.Done(side) ==> EntryChecks(w.s, side)
  {
    RunInv(c, ok, inputs, schedule);
  }
}
