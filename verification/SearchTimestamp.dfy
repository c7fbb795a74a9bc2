/** Binary search by timestamp over the byte offsets of a log file. */
module SearchTimestamp {
  import opened Wrappers
  import opened Files

  datatype Line = Line(begin: nat, nextBegin: nat, text: seq<char>)

  /** The first timestamp found in a line, if there is one. */
  type Stamp = seq<char> -> Option<int>

  datatype Error = NoTimestamp(text: seq<char>)

  /** The line that contains an offset begins here. */
  predicate BeginsLineOf(file: File, begin: nat, offset: nat) {
    begin <= offset < |file| && Boundary(file, begin) && Clear(file, begin, offset)
  }

  /** The position after the last newline of a chunk, or nothing. */
  function AfterLastNewline(s: seq<char>, to: nat): (r: Option<nat>)
    requires to <= |s|
    ensures r.None? ==> Clear(s, 0, to)
    ensures r.Some? ==> 0 < r.value <= to && s[r.value - 1] == NEWLINE && Clear(s, r.value, to)
  {
    if to == 0 then None
    else if s[to - 1] == NEWLINE then Some(to)
    else AfterLastNewline(s, to - 1)
  }

  /** Finds where the line containing `offset` begins, reading backwards a buffer at a time. */
  method FindLineBegin(file: File, offset: nat, bufferSize: nat) returns (r: Option<nat>)
    requires bufferSize > 0
    ensures r.None? <==> offset >= |file|
    ensures r.Some? ==> BeginsLineOf(file, r.value, offset)
  {
    if offset >= |file| {
      return None;
    }
    if offset == 0 {
      return Some(0);
    }
    if file[offset - 1] == NEWLINE {
      return Some(offset);
    }
    var at: nat := offset;
    while at > 0
      invariant at <= offset && Clear(file, at, offset)
    {
      var chunkBegin := if at > bufferSize then at - bufferSize else 0;
      var chunk := file[chunkBegin..at];
      var newline := AfterLastNewline(chunk, |chunk|);
      if newline.Some? {
        var begin := chunkBegin + newline.value;
        assert file[begin - 1] == chunk[newline.value - 1];
        ClearChunk(file, chunkBegin, at, newline.value, |chunk|);
        return Some(begin);
      }
      ClearChunk(file, chunkBegin, at, 0, |chunk|);
      at := chunkBegin;
    }
    return Some(0);
  }

  lemma ClearChunk(file: File, chunkBegin: nat, chunkEnd: nat, from: nat, to: nat)
    requires chunkBegin <= chunkEnd <= |file| && from <= to <= chunkEnd - chunkBegin
    requires Clear(file[chunkBegin..chunkEnd], from, to)
    ensures Clear(file, chunkBegin + from, chunkBegin + to)
  {
    forall k: nat | chunkBegin + from <= k < chunkBegin + to ensures file[k] != NEWLINE {
      assert file[k] == file[chunkBegin..chunkEnd][k - chunkBegin];
    }
  }

  /** Reads the line that begins here, a buffer at a time. */
  method ReadLine(file: File, begin: nat, bufferSize: nat) returns (line: Line)
    requires bufferSize > 0 && begin <= |file|
    ensures line == Line(begin, NextLine(file, begin), LineText(file, begin))
  {
    var text: seq<char> := [];
    var offset := begin;
    while offset < |file|
      invariant begin <= offset <= |file|
      invariant text == file[begin..offset] && Clear(file, begin, offset)
    {
      var size := if bufferSize <= |file| - offset then bufferSize else |file| - offset;
      var chunk := file[offset..offset + size];
      var newline := NextNewline(chunk, 0);
      ClearChunk(file, offset, offset + size, 0, newline);
      assert text + chunk[..newline] == file[begin..offset + newline];
      text := text + chunk[..newline];
      if newline < |chunk| {
        assert file[offset + newline] == chunk[newline];
        NextNewlineIs(file, begin, offset + newline);
        return Line(begin, offset + newline + 1, text);
      }
      offset := offset + size;
    }
    NextNewlineIs(file, begin, |file|);
    return Line(begin, |file|, text);
  }

  method ReadLineAt(file: File, offset: nat, bufferSize: nat) returns (r: Option<Line>)
    requires bufferSize > 0
    ensures r.None? <==> offset >= |file|
    ensures r.Some? ==> BeginsLineOf(file, r.value.begin, offset)
    ensures r.Some? ==> r.value == Line(r.value.begin, NextLine(file, r.value.begin), LineText(file, r.value.begin))
  {
    var begin := FindLineBegin(file, offset, bufferSize);
    if begin.None? {
      return None;
    }
    var line := ReadLine(file, begin.value, bufferSize);
    return Some(line);
  }

  // --- what the search assumes and finds ---

  /** Every line, the unterminated tail included, carries a timestamp. */
  ghost predicate AllStamped(file: File, stamp: Stamp) {
    forall p: nat :: LineBegin(file, p) ==> stamp(LineText(file, p)).Some?
  }

  /** Timestamps never decrease from one line to a later one. */
  ghost predicate StampsSorted(file: File, stamp: Stamp) {
    forall p: nat, q: nat :: LineBegin(file, p) && LineBegin(file, q) && p <= q ==>
      InOrderAt(file, stamp, p, q)
  }

  predicate InOrderAt(file: File, stamp: Stamp, p: nat, q: nat)
    requires p <= |file| && q <= |file|
  {
    var a, b := stamp(LineText(file, p)), stamp(LineText(file, q));
    a.Some? && b.Some? ==> a.value <= b.value
  }

  /** The lines to the left of a bound: those below it, or those not above it. */
  datatype Side = Below(ts: int) | UpTo(ts: int)
  {
    predicate Skips(t: int) {
      match this
      case Below(ts) => t < ts
      case UpTo(ts) => t <= ts
    }
  }

  predicate Skipped(file: File, stamp: Stamp, side: Side, p: nat)
    requires p <= |file|
  {
    stamp(LineText(file, p)).Some? && side.Skips(stamp(LineText(file, p)).value)
  }

  ghost predicate AllSkipped(file: File, stamp: Stamp, side: Side, to: nat) {
    forall p: nat :: LineBegin(file, p) && p < to ==> Skipped(file, stamp, side, p)
  }

  ghost predicate AllKept(file: File, stamp: Stamp, side: Side, from: nat) {
    forall p: nat :: LineBegin(file, p) && from <= p ==> !Skipped(file, stamp, side, p)
  }

  /** `answer` is the begin of the first line not skipped, if there is such a line. */
  ghost predicate FirstKept(file: File, stamp: Stamp, side: Side, answer: Option<nat>) {
    match answer
    case None => AllSkipped(file, stamp, side, |file|)
    case Some(p) => LineBegin(file, p) && AllSkipped(file, stamp, side, p) && AllKept(file, stamp, side, p)
  }

  /** Skipping a line skips every line up to it. */
  lemma SkipsUpTo(file: File, stamp: Stamp, side: Side, p: nat)
    requires AllStamped(file, stamp) && StampsSorted(file, stamp)
    requires LineBegin(file, p) && Skipped(file, stamp, side, p)
    ensures AllSkipped(file, stamp, side, NextLine(file, p))
  {
    forall q: nat | LineBegin(file, q) && q < NextLine(file, p) ensures Skipped(file, stamp, side, q) {
      if p < q {
        NoLineInside(file, p, q);
      } else {
        assert InOrderAt(file, stamp, q, p);
      }
    }
  }

  /** Keeping a line keeps every line from it on. */
  lemma KeepsFrom(file: File, stamp: Stamp, side: Side, p: nat)
    requires AllStamped(file, stamp) && StampsSorted(file, stamp)
    requires LineBegin(file, p) && !Skipped(file, stamp, side, p)
    ensures AllKept(file, stamp, side, p)
  {
    forall q: nat | LineBegin(file, q) && p <= q ensures !Skipped(file, stamp, side, q) {
      assert InOrderAt(file, stamp, p, q);
    }
  }

  /** The line of an offset between two boundaries lies between them. */
  lemma LineWithin(file: File, begin: nat, end: nat, offset: nat, lineBegin: nat)
    requires begin <= offset < end <= |file| && Boundary(file, begin)
    requires end < |file| ==> Boundary(file, end)
    requires BeginsLineOf(file, lineBegin, offset)
    ensures begin <= lineBegin < NextLine(file, lineBegin) <= end
  {
    if end < |file| {
      NewlineBefore(file, lineBegin, end);
    }
  }

  /** The binary search: it fails only on a line without a timestamp. */
  method BoundLine(file: File, side: Side, stamp: Stamp, bufferSize: nat) returns (r: Result<Option<nat>, Error>)
    requires bufferSize > 0
    ensures r.Err? ==> !AllStamped(file, stamp)
    ensures r.Ok? && r.value.Some? ==> LineBegin(file, r.value.value)
    ensures r.Ok? && AllStamped(file, stamp) && StampsSorted(file, stamp) ==> FirstKept(file, stamp, side, r.value)
  {
    var begin: nat, end: nat := 0, |file|;
    var answer: Option<nat> := None;
    ghost var ordered := AllStamped(file, stamp) && StampsSorted(file, stamp);
    while begin < end
      invariant 0 <= begin <= end <= |file|
      invariant begin < |file| ==> Boundary(file, begin)
      invariant if answer.None? then end == |file| else LineBegin(file, end) && answer.value == end
      invariant ordered ==> AllSkipped(file, stamp, side, begin) && AllKept(file, stamp, side, end)
      decreases end - begin
    {
      var mid := begin + (end - begin) / 2;
      var found := ReadLineAt(file, mid, bufferSize);
      if found.None? {
        assert false;  // an offset inside the file always has a line
      }
      var line := found.value;
      LineWithin(file, begin, end, mid, line.begin);
      assert LineBegin(file, line.begin);
      var ts := stamp(line.text);
      if ts.None? {
        return Err(NoTimestamp(line.text));
      }
      if side.Skips(ts.value) {
        if ordered {
          SkipsUpTo(file, stamp, side, line.begin);
        }
        begin := line.nextBegin;
        continue;
      }
      if ordered {
        KeepsFrom(file, stamp, side, line.begin);
      }
      answer := Some(line.begin);
      end := line.begin;
    }
    return Ok(answer);
  }

  /** The begin of the first line stamped `ts` or later, if any. */
  method LowerBoundLine(file: File, ts: int, stamp: Stamp, bufferSize: nat) returns (r: Result<Option<nat>, Error>)
    requires bufferSize > 0
    ensures r.Err? ==> !AllStamped(file, stamp)
    ensures r.Ok? && r.value.Some? ==> LineBegin(file, r.value.value)
    ensures r.Ok? && AllStamped(file, stamp) && StampsSorted(file, stamp) ==> FirstKept(file, stamp, Below(ts), r.value)
  {
    r := BoundLine(file, Below(ts), stamp, bufferSize);
  }

  /** The begin of the first line stamped later than `ts`, or the end of the file. */
  method UpperBoundLine(file: File, ts: int, stamp: Stamp, bufferSize: nat) returns (r: Result<nat, Error>)
    requires bufferSize > 0
    ensures r.Err? ==> !AllStamped(file, stamp)
    ensures r.Ok? ==> r.value == |file| || LineBegin(file, r.value)
    ensures r.Ok? && AllStamped(file, stamp) && StampsSorted(file, stamp) ==>
              FirstKept(file, stamp, UpTo(ts), if r.value == |file| then None else Some(r.value))
  {
    var answer := BoundLine(file, UpTo(ts), stamp, bufferSize);
    match answer {
      case Err(e) => r := Err(e);
      case Ok(None) => r := Ok(|file|);
      case Ok(Some(p)) => r := Ok(p);
    }
  }
}
