/** The sorted-merge operator as it is implemented: queues updated in place by one call at a time. */
module MergeOperator {
  import opened Values
  import opened MergeSpec

  class MergeSorted {
    const config: Config
    /** Whether some subscriber is still there after a history of emissions. */
    const accepts: Accepts

    var left: seq<Row>
    var right: seq<Row>
    var eofLeft: bool
    var eofRight: bool
    var delayDone: bool
    var out: seq<Out>

    constructor (config: Config, accepts: Accepts)
      ensures this.config == config && this.accepts == accepts
      ensures Value() == Initial && out == []
    {
      this.config, this.accepts := config, accepts;
      left, right, eofLeft, eofRight, delayDone, out := [], [], false, false, false, [];
    }

    function Value(): State
      reads this
    {
      State(left, right, eofLeft, eofRight, delayDone)
    }

    method Emit(o: Out) returns (more: bool)
      modifies `out
      ensures out == old(out) + [o] && more == accepts(out)
    {
      out := out + [o];
      more := accepts(out);
    }

    method Pop(side: Side) returns (row: Row)
      requires Value().Buffer(side) != []
      modifies `left, `right
      ensures row == old(Value().Buffer(side)[0])
      ensures Value() == old(Value().WithBuffer(side, Value().Buffer(side)[1..]))
    {
      if side == Left {
        row := left[0];
        left := left[1..];
      } else {
        row := right[0];
        right := right[1..];
      }
    }

    method Push(side: Side, row: Row)
      modifies `left, `right
      ensures Value() == old(Value().Push(side, row))
    {
      if side == Left {
        left := left + [row];
      } else {
        right := right + [row];
      }
    }

    method SetEof(side: Side)
      modifies `eofLeft, `eofRight
      ensures Value() == old(Value().WithEof(side))
    {
      if side == Left {
        eofLeft := true;
      } else {
        eofRight := true;
      }
    }

    method Reset()
      modifies `left, `right, `eofLeft, `eofRight, `delayDone
      ensures Value() == Initial
    {
      left, right := [], [];
      eofLeft, eofRight := false, false;
      delayDone := false;
    }

    method DrainSide(side: Side) returns (stopped: bool)
      modifies `left, `right, `out
      ensures Drained(Value(), out, stopped) == MergeSpec.DrainSide(accepts, old(Value()), old(out), side)
    {
      while Value().Buffer(side) != []
        invariant MergeSpec.DrainSide(accepts, Value(), out, side) ==
                  MergeSpec.DrainSide(accepts, old(Value()), old(out), side)
        decreases |Value().Buffer(side)|
      {
        var row := Pop(side);
        var more := Emit(Emitted(side, row));
        if !more {
          return true;
        }
      }
      stopped := false;
    }

    method Drain() returns (stopped: bool)
      modifies `left, `right, `out
      ensures Drained(Value(), out, stopped) == MergeSpec.Drain(config, accepts, old(Value()), old(out))
    {
      while left != [] && right != []
        invariant MergeSpec.Drain(config, accepts, Value(), out) ==
                  MergeSpec.Drain(config, accepts, old(Value()), old(out))
        decreases |left| + |right|
      {
        var side := if config.Less(config.key(left[0]), config.key(right[0])) then Left else Right;
        var row := Pop(side);
        var more := Emit(Emitted(side, row));
        if !more {
          return true;
        }
      }
      if eofRight && left != [] {
        stopped := DrainSide(Left);
      } else if eofLeft && right != [] {
        stopped := DrainSide(Right);
      } else {
        stopped := false;
      }
    }

    method DrainRecord(side: Side, row: Row) returns (stopped: bool)
      modifies `left, `right, `out
      ensures Drained(Value(), out, stopped) ==
              MergeSpec.DrainRecord(config, accepts, old(Value()), old(out), side, row)
    {
      var key := config.key(row);
      while Value().Buffer(side.Other()) != []
        invariant MergeSpec.DrainRecord(config, accepts, Value(), out, side, row) ==
                  MergeSpec.DrainRecord(config, accepts, old(Value()), old(out), side, row)
        decreases |Value().Buffer(side.Other())|
      {
        if config.Less(key, config.key(Value().Buffer(side.Other())[0])) {
          var more := Emit(Emitted(side, row));
          return !more;
        } else {
          var other := Pop(side.Other());
          var more := Emit(Emitted(side.Other(), other));
          if !more {
            return true;
          }
        }
      }
      Push(side, row);
      stopped := false;
    }

    method Terminate(side: Side)
      modifies `left, `right, `eofLeft, `eofRight, `delayDone
      ensures Value() == MergeSpec.Terminate(old(Value()), side)
    {
      SetEof(side);
      if eofLeft && eofRight {
        Reset();
      } else {
        delayDone := true;
      }
    }

    /** One call by one input; it does exactly what the state machine's step does. */
    method Consume(side: Side, event: Event) returns (more: bool)
      requires EntryChecks(Value(), side)
      modifies this
      ensures Called(Value(), out, more) ==
              MergeSpec.Consume(config, accepts, old(Value()), old(out), side, event)
    {
      if delayDone {
        Reset();
        return false;
      }
      if event.EndOfInput? {
        SetEof(side);
        var stopped := Drain();
        if stopped {
          Terminate(side);
        } else if eofLeft && eofRight {
          var _ := Emit(EndOfStream);
          Reset();
        }
        return false;
      }
      if Value().ShouldWait(side.Other()) {
        Push(side, event.row);
        return true;
      }
      var stopped;
      if Value().Buffer(side) != [] {
        Push(side, event.row);
        stopped := Drain();
      } else {
        stopped := DrainRecord(side, event.row);
      }
      if stopped {
        Terminate(side);
        return false;
      }
      return true;
    }
  }
}
