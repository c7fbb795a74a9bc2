/** Opening a log file on a time range, and what reading it then yields. */
module LogRange {
  import opened Wrappers
  import opened Files
  import opened Sequences
  import opened SearchTimestamp
  import opened LineSource

  function InRange(stamp: Stamp, from: int, to: int): seq<char> -> bool {
    line => stamp(line).Some? && from <= stamp(line).value <= to
  }

  /** All lines that begin in a stretch are in the time range, or none is. */
  ghost predicate Uniform(file: File, from: int, to: int, stamp: Stamp, lo: nat, hi: nat, keep: bool) {
    forall p: nat :: LineBegin(file, p) && lo <= p < hi ==> InRange(stamp, from, to)(LineText(file, p)) == keep
  }

  /** A stretch whose lines are all in the range is kept whole, one whose lines are all outside is dropped. */
  lemma {:induction false} FilterStretch(file: File, from: int, to: int, stamp: Stamp, lo: nat, hi: nat, keep: bool)
    requires lo <= hi <= |file| && (lo < hi ==> LineBegin(file, lo))
    requires Uniform(file, from, to, stamp, lo, hi, keep)
    ensures Filter(InRange(stamp, from, to), Pieces(file, lo, hi)) == if keep then Pieces(file, lo, hi) else []
    decreases |file| - lo
  {
    var n := NextNewline(file, lo);
    if n < hi {
      var rest := Pieces(file, n + 1, hi);
      assert InRange(stamp, from, to)(LineText(file, lo)) == keep;
      FilterStretch(file, from, to, stamp, n + 1, hi, keep);
      assert Pieces(file, lo, hi)[0] == LineText(file, lo) && Pieces(file, lo, hi)[1..] == rest;
    }
  }

  lemma FilterThreeStretches(file: File, from: int, to: int, stamp: Stamp, a: nat, b: nat)
    requires a <= b <= |file| && (a == |file| || Boundary(file, a)) && (b == |file| || Boundary(file, b))
    requires Uniform(file, from, to, stamp, 0, a, false)
    requires Uniform(file, from, to, stamp, a, b, true)
    requires Uniform(file, from, to, stamp, b, |file|, false)
    ensures Filter(InRange(stamp, from, to), Pieces(file, 0, |file|)) == Pieces(file, a, b)
  {
    hide Pieces, Filter, Uniform, NextNewline, InRange;
    var p := InRange(stamp, from, to);
    if a == |file| {
      NoPieces(file, a);
      FilterStretch(file, from, to, stamp, 0, |file|, false);
    } else {
      PiecesAppend(file, 0, a, |file|);
      FilterAppend(p, Pieces(file, 0, a), Pieces(file, a, |file|));
      FilterStretch(file, from, to, stamp, 0, a, false);
      if b < |file| {
        PiecesAppend(file, a, b, |file|);
        FilterAppend(p, Pieces(file, a, b), Pieces(file, b, |file|));
        FilterStretch(file, from, to, stamp, b, |file|, false);
      }
      FilterStretch(file, from, to, stamp, a, b, true);
    }
  }

  /** The lines in the range are those from the lower bound up to the upper one. */
  lemma RangeIsFilter(file: File, from: int, to: int, stamp: Stamp, lower: Option<nat>, upper: nat)
    requires AllStamped(file, stamp) && upper <= |file|
    requires FirstKept(file, stamp, Below(from), lower)
    requires FirstKept(file, stamp, UpTo(to), if upper == |file| then None else Some(upper))
    ensures var range := if lower.None? || upper <= lower.value then (0, 0) else (lower.value, upper);
            Pieces(file, range.0, range.1) == Filter(InRange(stamp, from, to), Pieces(file, 0, |file|))
  {
    var a := if lower.None? then |file| else lower.value;
    forall p: nat | LineBegin(file, p)
      ensures InRange(stamp, from, to)(LineText(file, p)) == (a <= p < upper)
    {
      assert Skipped(file, stamp, Below(from), p) == (p < a);
      assert Skipped(file, stamp, UpTo(to), p) == (p < upper);
    }
    if upper <= a {
      FilterStretch(file, from, to, stamp, 0, |file|, false);
      NoPieces(file, 0);
    } else {
      FilterThreeStretches(file, from, to, stamp, a, upper);
    }
  }

  /** The byte range to read: from the first line not before `from` to the first line after `to`. */
  method FileRange(file: File, from: int, to: int, stamp: Stamp, bufferSize: nat) returns (r: Result<(nat, nat), Error>)
    requires bufferSize > 0
    ensures r.Err? ==> !AllStamped(file, stamp)
    ensures r.Ok? ==> r.value.0 <= r.value.1 <= |file| && (Boundary(file, r.value.1) || r.value.1 == |file|)
    ensures r.Ok? && AllStamped(file, stamp) && StampsSorted(file, stamp) ==>
              Pieces(file, r.value.0, r.value.1) == Filter(InRange(stamp, from, to), Pieces(file, 0, |file|))
  {
    var lower := LowerBoundLine(file, from, stamp, bufferSize);
    if lower.Err? {
      return Err(lower.error);
    }
    var upper := UpperBoundLine(file, to, stamp, bufferSize);
    if upper.Err? {
      return Err(upper.error);
    }
    if AllStamped(file, stamp) && StampsSorted(file, stamp) {
      RangeIsFilter(file, from, to, stamp, lower.value, upper.value);
    }
    if lower.value.None? || upper.value <= lower.value.value {
      return Ok((0, 0));
    }
    return Ok((lower.value.value, upper.value));
  }

  /** A time-range scan gives the same lines as reading the whole file and keeping those in the range. */
  method ScanRange(file: File, from: int, to: int, stamp: Stamp, bufferSize: nat, pageSize: nat)
    returns (r: Result<seq<seq<char>>, Error>)
    requires bufferSize > 0 && pageSize > 0
    ensures r.Err? ==> !AllStamped(file, stamp)
    ensures r.Ok? && AllStamped(file, stamp) && StampsSorted(file, stamp) ==>
              r.value == Filter(InRange(stamp, from, to), Pieces(file, 0, |file|))
  {
    var range := FileRange(file, from, to, stamp, bufferSize);
    if range.Err? {
      return Err(range.error);
    }
    var (begin, end) := range.value;
    ExactOnLineRanges(file, pageSize, begin, end);
    var lines := PagedLines(file, pageSize, begin, end);
    return Ok(lines);
  }
}
