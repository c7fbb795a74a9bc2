/** Splitting a file into lines: a page at a time, or from a stream of chunks. */
module LineSource {
  import opened Wrappers
  import opened Files
  import opened Sequences

  // --- pages ---

  function PageBegin(pageSize: nat, index: nat): nat {
    index * pageSize
  }

  function PageOf(pageSize: nat, pos: nat): nat
    requires pageSize > 0
  {
    pos / pageSize
  }

  /** The bytes of a page; the last one may be short. */
  function Page(file: File, pageSize: nat, index: nat): (page: seq<char>)
    requires PageBegin(pageSize, index) < |file|
  {
    file[PageBegin(pageSize, index)..PageEnd(file, pageSize, index)]
  }

  function PageEnd(file: File, pageSize: nat, index: nat): (end: nat)
    requires PageBegin(pageSize, index) < |file|
    ensures PageBegin(pageSize, index) <= end <= |file|
  {
    if pageSize <= |file| - PageBegin(pageSize, index) then PageBegin(pageSize, index) + pageSize else |file|
  }

  lemma PageAfter(pageSize: nat, index: nat)
    ensures PageBegin(pageSize, index + 1) == PageBegin(pageSize, index) + pageSize
  {
  }

  lemma PagesGrow(pageSize: nat, i: nat, j: nat)
    requires i <= j
    ensures PageBegin(pageSize, i) <= PageBegin(pageSize, j)
  {
    assert j * pageSize == i * pageSize + (j - i) * pageSize;
  }

  lemma PageOfIsAround(pageSize: nat, pos: nat)
    requires pageSize > 0
    ensures PageBegin(pageSize, PageOf(pageSize, pos)) <= pos < PageBegin(pageSize, PageOf(pageSize, pos)) + pageSize
    ensures pos % pageSize == pos - PageBegin(pageSize, PageOf(pageSize, pos))
  {
  }

  lemma {:induction false} PageOfIs(pageSize: nat, pos: nat, index: nat)
    requires pageSize > 0 && PageBegin(pageSize, index) <= pos < PageBegin(pageSize, index) + pageSize
    ensures PageOf(pageSize, pos) == index
  {
    PageOfIsAround(pageSize, pos);
    var at := PageOf(pageSize, pos);
    if at < index {
      PagesGrow(pageSize, at + 1, index);
      PageAfter(pageSize, at);
    } else if index < at {
      PagesGrow(pageSize, index + 1, at);
      PageAfter(pageSize, index);
    }
  }

  // --- what the paged reader delivers ---

  /** A line that crosses `end` is still delivered when its newline is in a later page that begins before `end`. */
  predicate Overruns(file: File, pageSize: nat, pos: nat, end: nat)
    requires pageSize > 0 && pos <= end <= |file|
  {
    var n := NextNewline(file, pos);
    && end <= n < |file|
    && PageOf(pageSize, pos) < PageOf(pageSize, n)
    && PageBegin(pageSize, PageOf(pageSize, n)) < end
  }

  /** Where the last, unfinished piece before `end` begins. */
  function LastBegin(file: File, pos: nat, end: nat): (p: nat)
    requires pos <= end <= |file|
    ensures pos <= p <= end && NextNewline(file, p) >= end
    decreases |file| - pos
  {
    var n := NextNewline(file, pos);
    if n >= end then pos else LastBegin(file, n + 1, end)
  }

  function Delivered(file: File, pageSize: nat, pos: nat, end: nat): seq<seq<char>>
    requires pageSize > 0 && pos <= end <= |file|
    decreases |file| - pos
  {
    var n := NextNewline(file, pos);
    if n < end then [file[pos..n]] + Delivered(file, pageSize, n + 1, end)
    else if Overruns(file, pageSize, pos, end) then [file[pos..n]]
    else []
  }

  /** The pieces before `end`, and the crossing line when there is one to deliver. */
  lemma {:induction false} DeliveredIs(file: File, pageSize: nat, pos: nat, end: nat)
    requires pageSize > 0 && pos <= end <= |file|
    ensures var last := LastBegin(file, pos, end);
            Delivered(file, pageSize, pos, end) ==
            Pieces(file, pos, end) + if Overruns(file, pageSize, last, end) then [LineText(file, last)] else []
    decreases |file| - pos
  {
    var n := NextNewline(file, pos);
    if n < end {
      DeliveredIs(file, pageSize, n + 1, end);
      var extra := if Overruns(file, pageSize, LastBegin(file, pos, end), end)
        then [LineText(file, LastBegin(file, pos, end))] else [];
      PrependAppend(file[pos..n], Pieces(file, n + 1, end), extra);
    }
  }

  /** The reader yields exactly the pieces of the range, unless it overruns. */
  lemma ExactUnlessOverrun(file: File, pageSize: nat, begin: nat, end: nat)
    requires pageSize > 0 && begin <= end <= |file|
    ensures Delivered(file, pageSize, begin, end) == Pieces(file, begin, end) <==>
            !Overruns(file, pageSize, LastBegin(file, begin, end), end)
  {
    DeliveredIs(file, pageSize, begin, end);
  }

  /** A range that ends after a newline or with the file never overruns, whatever the page size. */
  lemma ExactOnLineRanges(file: File, pageSize: nat, begin: nat, end: nat)
    requires pageSize > 0 && begin <= end <= |file| && (Boundary(file, end) || end == |file|)
    ensures Delivered(file, pageSize, begin, end) == Pieces(file, begin, end)
  {
    ExactUnlessOverrun(file, pageSize, begin, end);
    var last := LastBegin(file, begin, end);
    if last < end && end < |file| {
      NewlineBefore(file, last, end);
    }
    NothingAtEnd(file, pageSize, end);
  }

  lemma NothingAtEnd(file: File, pageSize: nat, end: nat)
    requires pageSize > 0 && end <= |file|
    ensures !Overruns(file, pageSize, end, end) && Delivered(file, pageSize, end, end) == []
  {
    var n := NextNewline(file, end);
    if PageOf(pageSize, end) < PageOf(pageSize, n) {
      PageOfIsAround(pageSize, end);
      PageAfter(pageSize, PageOf(pageSize, end));
      PagesGrow(pageSize, PageOf(pageSize, end) + 1, PageOf(pageSize, n));
    }
  }

  /** An end inside a line can overrun: the line that crosses it is delivered whole. */
  lemma OverrunExample()
    ensures Delivered("abc\n", 2, 0, 3) == ["abc"] && Pieces("abc\n", 0, 3) == []
  {
    NextNewlineIs("abc\n", 0, 3);
    assert PageOf(2, 0) == 0 && PageOf(2, 3) == 1 && PageBegin(2, 1) == 2;
    assert "abc\n"[0..3] == "abc";
  }

  /** With no newline in the pages that begin before `end`, nothing is delivered. */
  lemma NoNewlineInPages(file: File, pageSize: nat, pos: nat, end: nat, index: nat)
    requires pageSize > 0 && pos <= end <= |file| && PageBegin(pageSize, index) < |file|
    requires pos <= PageEnd(file, pageSize, index) && Clear(file, pos, PageEnd(file, pageSize, index))
    requires PageBegin(pageSize, index + 1) >= end
    ensures Delivered(file, pageSize, pos, end) == []
  {
    PageAfter(pageSize, index);
    var n := NextNewline(file, pos);
    assert n >= PageEnd(file, pageSize, index);
    if n < |file| {
      PageOfIsAround(pageSize, n);
      if PageOf(pageSize, n) <= index {
        PagesGrow(pageSize, PageOf(pageSize, n), index);
      } else {
        PagesGrow(pageSize, index + 1, PageOf(pageSize, n));
      }
    }
  }

  lemma SliceOfSlice(file: File, from: nat, to: nat, n: nat)
    requires from <= to <= |file| && n <= to - from
    ensures file[from..to][..n] == file[from..from + n]
  {
  }

  /** The newline found in a page. */
  lemma FoundInPage(file: File, pageSize: nat, pos: nat, index: nat, from: nat, newline: nat)
    requires pageSize > 0 && PageBegin(pageSize, index) < |file|
    requires pos <= PageBegin(pageSize, index) + from && PageBegin(pageSize, index) + from <= PageEnd(file, pageSize, index)
    requires Clear(file, pos, PageBegin(pageSize, index) + from)
    requires newline == NextNewline(Page(file, pageSize, index)[from..], 0)
    ensures var end := PageBegin(pageSize, index) + from + newline;
            && end <= PageEnd(file, pageSize, index)
            && Page(file, pageSize, index)[from..][..newline] == file[PageBegin(pageSize, index) + from..end]
            && Clear(file, pos, end)
            && (end < PageEnd(file, pageSize, index) ==> end == NextNewline(file, pos))
  {
    hide PageBegin, NextNewline;
    var base := PageBegin(pageSize, index) + from;
    var data := Page(file, pageSize, index)[from..];
    assert data == file[base..PageEnd(file, pageSize, index)];
    forall k: nat | pos <= k < base + newline ensures file[k] != NEWLINE {
      if base <= k {
        assert file[k] == data[k - base];
      }
    }
    SliceOfSlice(file, base, PageEnd(file, pageSize, index), newline);
    if newline < |data| {
      assert file[base + newline] == data[newline];
      NextNewlineIs(file, pos, base + newline);
    }
  }

  // --- the paged reader ---

  /** The reader stands on a byte of the page it holds. */
  ghost predicate Standing(file: File, pageSize: nat, pos: nat, index: nat, page: seq<char>) {
    && pageSize > 0
    && PageBegin(pageSize, index) <= pos < |file|
    && pos < PageEnd(file, pageSize, index)
    && page == Page(file, pageSize, index)
  }

  /** All that is left to deliver from here. */
  ghost function Rest(file: File, pageSize: nat, pos: nat, end: nat): seq<seq<char>>
    requires pageSize > 0 && end <= |file|
  {
    if pos <= end then Delivered(file, pageSize, pos, end) else []
  }

  lemma StandingOffset(file: File, pageSize: nat, pos: nat, index: nat, page: seq<char>)
    requires Standing(file, pageSize, pos, index, page)
    ensures PageOf(pageSize, pos) == index
    ensures pos % pageSize == pos - PageBegin(pageSize, index) < |page|
    ensures PageEnd(file, pageSize, index) - PageBegin(pageSize, index) == |page|
  {
    PageOfIs(pageSize, pos, index);
    PageOfIsAround(pageSize, pos);
  }

  /** What is found on the page from here on: a newline, or nothing but the begin of a longer line. */
  lemma OnThePage(file: File, pageSize: nat, pos: nat, index: nat, page: seq<char>, data: seq<char>, newline: nat)
    requires Standing(file, pageSize, pos, index, page)
    requires data == page[pos - PageBegin(pageSize, index)..] && newline == NextNewline(data, 0)
    ensures newline == |data| ==>
              && data == file[pos..PageEnd(file, pageSize, index)]
              && Clear(file, pos, PageEnd(file, pageSize, index))
    ensures newline < |data| ==>
              && pos + newline < |file|
              && NextNewline(file, pos) == pos + newline
              && pos + newline < PageBegin(pageSize, index) + pageSize
              && data[..newline] == file[pos..pos + newline]
    ensures newline < |data| && newline + 1 == |data| ==> pos + newline + 1 == PageEnd(file, pageSize, index)
    ensures newline + 1 < |data| ==> Standing(file, pageSize, pos + newline + 1, index, page)
  {
    FoundInPage(file, pageSize, pos, index, pos - PageBegin(pageSize, index), newline);
    assert |data| == PageEnd(file, pageSize, index) - pos;
  }

  /** The next page, if it begins before the end of the range. */
  method NextPage(file: File, pageSize: nat, end: nat, index: nat) returns (page: Option<seq<char>>)
    requires pageSize > 0 && end <= |file| && PageBegin(pageSize, index) < |file|
    ensures page.None? ==> PageBegin(pageSize, index + 1) >= end
    ensures page.Some? ==>
              && PageBegin(pageSize, index + 1) < end
              && PageEnd(file, pageSize, index) == PageBegin(pageSize, index + 1)
              && Standing(file, pageSize, PageBegin(pageSize, index + 1), index + 1, page.value)
  {
    PageAfter(pageSize, index);
    if (index + 1) * pageSize >= end {
      return None;
    }
    return Some(Page(file, pageSize, index + 1));
  }

  /** Handing out one line leaves the rest to deliver. */
  lemma HandOut(file: File, pageSize: nat, pos: nat, end: nat, index: nat, n: nat, lines: seq<seq<char>>)
    requires pageSize > 0 && pos < end <= |file| && n == NextNewline(file, pos) < |file|
    requires PageBegin(pageSize, index) <= n < PageBegin(pageSize, index) + pageSize && PageBegin(pageSize, index) < end
    requires n < end || PageOf(pageSize, pos) < index
    ensures lines + Rest(file, pageSize, pos, end) == lines + [file[pos..n]] + Rest(file, pageSize, n + 1, end)
  {
    PageOfIs(pageSize, n, index);
  }

  /** A line that ends past the range, on the page it begins on, is not delivered. */
  lemma NotDelivered(file: File, pageSize: nat, pos: nat, end: nat, index: nat)
    requires pageSize > 0 && pos < end <= |file| && end <= NextNewline(file, pos) < |file|
    requires PageBegin(pageSize, index) <= pos && NextNewline(file, pos) < PageBegin(pageSize, index) + pageSize
    ensures Rest(file, pageSize, pos, end) == []
  {
    PageOfIs(pageSize, pos, index);
    PageOfIs(pageSize, NextNewline(file, pos), index);
  }

  lemma RestAtEnd(file: File, pageSize: nat, pos: nat, end: nat, index: nat)
    requires pageSize > 0 && end <= |file| && PageBegin(pageSize, index) < |file|
    requires pos == PageEnd(file, pageSize, index) && PageBegin(pageSize, index + 1) >= end
    ensures Rest(file, pageSize, pos, end) == []
  {
    PageAfter(pageSize, index);
    NothingAtEnd(file, pageSize, end);
  }

  lemma RestAtBegin(file: File, pageSize: nat, begin: nat, end: nat, index: nat, page: seq<char>)
    requires pageSize > 0 && begin < end <= |file| && index == PageOf(pageSize, begin)
    requires PageBegin(pageSize, index) < |file| && page == Page(file, pageSize, index)
    ensures Standing(file, pageSize, begin, index, page)
    ensures [] + Rest(file, pageSize, begin, end) == Delivered(file, pageSize, begin, end)
  {
    PageOfIsAround(pageSize, begin);
  }

  lemma RestPast(file: File, pageSize: nat, pos: nat, end: nat, lines: seq<seq<char>>)
    requires pageSize > 0 && end <= |file| && pos >= end
    ensures lines + Rest(file, pageSize, pos, end) == lines
  {
    NothingAtEnd(file, pageSize, end);
  }

  /** The lines of a file from `begin` to `end`, reading one page at a time. */
  method PagedLines(file: File, pageSize: nat, begin: nat, end: nat) returns (lines: seq<seq<char>>)
    requires pageSize > 0 && end <= |file|
    ensures lines == if begin < end then Delivered(file, pageSize, begin, end) else []
  {
    hide PageBegin, PageOf, PageEnd, Page, Overruns, Delivered, Clear, NextNewline, Rest;
    lines := [];
    if begin >= end {
      return;
    }
    PageOfIsAround(pageSize, begin);
    var index: nat := PageOf(pageSize, begin);
    var pos: nat := begin;
    var page := Page(file, pageSize, index);
    RestAtBegin(file, pageSize, begin, end, index, page);
    while pos < end
      invariant Delivered(file, pageSize, begin, end) == lines + Rest(file, pageSize, pos, end)
      invariant pos < end ==> Standing(file, pageSize, pos, index, page)
      decreases end - pos
    {
      StandingOffset(file, pageSize, pos, index, page);
      var data := page[pos % pageSize..];
      var newline := NextNewline(data, 0);
      OnThePage(file, pageSize, pos, index, page, data, newline);
      if newline == |data| {
        var finished: bool;
        lines, finished, pos, index, page := LaterPages(file, pageSize, pos, end, index, data, lines);
        if finished {
          return;
        }
      } else {
        if pos + newline + 1 > end {
          NotDelivered(file, pageSize, pos, end, index);
          return;
        }
        HandOut(file, pageSize, pos, end, index, pos + newline, lines);
        lines := lines + [data[..newline]];
        pos := pos + newline + 1;
        if newline + 1 == |data| {
          var next := NextPage(file, pageSize, end, index);
          if next.None? {
            RestAtEnd(file, pageSize, pos, end, index);
            return;
          }
          index, page := index + 1, next.value;
        }
      }
    }
    RestPast(file, pageSize, pos, end, lines);
  }

  /** Gathers a line whose newline is not in the page it begins on, and moves past it. */
  method LaterPages(file: File, pageSize: nat, begin: nat, end: nat, at: nat, start: seq<char>, given: seq<seq<char>>)
    returns (lines: seq<seq<char>>, finished: bool, pos: nat, index: nat, page: seq<char>)
    requires pageSize > 0 && begin < end <= |file| && PageBegin(pageSize, at) <= begin < PageEnd(file, pageSize, at)
    requires start == file[begin..PageEnd(file, pageSize, at)] && Clear(file, begin, PageEnd(file, pageSize, at))
    ensures given + Rest(file, pageSize, begin, end) ==
            lines + if finished then [] else Rest(file, pageSize, pos, end)
    ensures !finished ==> begin < pos && (pos < end ==> Standing(file, pageSize, pos, index, page))
  {
    hide PageBegin, PageOf, Overruns, Delivered, NextNewline, Clear;
    var line := start;
    lines, finished, pos, index := given, false, begin, at;
    PageAfter(pageSize, at);
    PageOfIs(pageSize, begin, at);
    while true
      invariant lines == given && at <= index && PageBegin(pageSize, index) < |file|
      invariant begin <= PageEnd(file, pageSize, index) && line == file[begin..PageEnd(file, pageSize, index)]
      invariant Clear(file, begin, PageEnd(file, pageSize, index))
      decreases |file| - PageEnd(file, pageSize, index)
    {
      var next := NextPage(file, pageSize, end, index);
      if next.None? {
        NoNewlineInPages(file, pageSize, begin, end, index);
        finished, page := true, [];
        return;
      }
      index, page := index + 1, next.value;
      var newline := NextNewline(page, 0);
      assert page[0..] == page;
      FoundInPage(file, pageSize, begin, index, 0, newline);
      var base := PageBegin(pageSize, index);
      assert line + page[..newline] == file[begin..base + newline];
      line := line + page[..newline];
      if newline == |page| {
        continue;
      }
      HandOut(file, pageSize, begin, end, index, base + newline, lines);
      lines := lines + [line];
      pos := base + newline + 1;
      if newline + 1 == |page| {
        var after := NextPage(file, pageSize, end, index);
        if after.None? {
          RestAtEnd(file, pageSize, pos, end, index);
          finished := true;
          return;
        }
        index, page := index + 1, after.value;
      }
      return;
    }
  }

  // --- the stream reader ---

  /** What reading a stream yields: its pieces, then the rest when it is not empty. */
  function StreamDelivered(data: File): seq<seq<char>> {
    var tail := data[TailBegin(data, 0)..];
    Pieces(data, 0, |data|) + if tail == [] then [] else [tail]
  }

  lemma TailBeginIs(file: File, p: nat)
    requires p <= |file| && Boundary(file, p) && Clear(file, p, |file|)
    ensures TailBegin(file, 0) == p
  {
    var q := TailBegin(file, 0);
    assert !(p < q) && !(q < p);
  }

  lemma {:induction false} FlattenSplit<T>(ss: seq<seq<T>>, i: nat)
    requires i < |ss|
    ensures Flatten(ss[..i + 1]) == Flatten(ss[..i]) + ss[i]
    ensures |Flatten(ss[..i + 1])| <= |Flatten(ss)|
    ensures Flatten(ss[..i + 1]) <= Flatten(ss)
  {
    if i == 0 {
      assert ss[..1] == [ss[0]] && ss[..0] == [];
      assert Flatten([ss[0]]) == ss[0] + Flatten([ss[0]][1..]);
    } else {
      FlattenSplit(ss[1..], i - 1);
      assert ss[1..][..i] == ss[..i + 1][1..] && ss[1..][..i - 1] == ss[..i][1..];
    }
  }

  /** A newline found at `n` completes the line begun at `start`. */
  lemma CompletesLine(data: File, start: nat, n: nat)
    requires start <= n < |data| && Boundary(data, start) && Clear(data, start, n) && data[n] == NEWLINE
    ensures Pieces(data, 0, n + 1) == Pieces(data, 0, start) + [data[start..n]]
  {
    PiecesAppend(data, 0, start, n + 1);
    NextNewlineIs(data, start, n);
    assert Pieces(data, start, n + 1) == [data[start..n]] + Pieces(data, n + 1, n + 1);
  }

  /** Every line begun before `start` is out, and the partial line holds what was read since. */
  ghost predicate Reading(data: File, pos: nat, start: nat, partial: Option<seq<char>>, lines: seq<seq<char>>) {
    && start <= pos <= |data|
    && Boundary(data, start)
    && Clear(data, start, pos)
    && lines == Pieces(data, 0, start)
    && data[start..pos] == if partial.None? then [] else partial.value
  }

  lemma JoinSlices(data: File, a: nat, b: nat, c: nat)
    requires a <= b <= c <= |data|
    ensures data[a..c] == data[a..b] + data[b..c]
  {
  }

  lemma ChunkClear(data: File, base: nat, chunk: seq<char>, start: nat, begin: nat, newline: nat)
    requires base + |chunk| <= |data| && chunk == data[base..base + |chunk|]
    requires begin <= newline <= |chunk| && Clear(chunk, begin, newline)
    requires start <= base + begin && Clear(data, start, base + begin)
    ensures Clear(data, start, base + newline)
  {
    forall k: nat | start <= k < base + newline ensures data[k] != NEWLINE {
      if base + begin <= k {
        assert data[k] == chunk[k - base];
      }
    }
  }

  lemma ChunkLine(data: File, base: nat, chunk: seq<char>, start: nat, begin: nat, newline: nat)
    requires base + |chunk| <= |data| && chunk == data[base..base + |chunk|]
    requires begin < |chunk| && newline == NextNewline(chunk, begin)
    requires start <= base + begin && Clear(data, start, base + begin)
    ensures Clear(data, start, base + newline)
    ensures newline < |chunk| ==> data[base + newline] == NEWLINE
    ensures data[start..base + newline] == data[start..base + begin] + chunk[begin..newline]
    ensures newline == |chunk| ==> chunk[begin..newline] == chunk[begin..]
  {
    hide NextNewline, Clear;
    ChunkClear(data, base, chunk, start, begin, newline);
    assert newline < |chunk| ==> data[base + newline] == chunk[newline];
    assert chunk[begin..newline] == data[base + begin..base + newline];
    JoinSlices(data, start, base + begin, base + newline);
  }

  lemma LineDone(data: File, base: nat, chunk: seq<char>, start: nat, begin: nat, newline: nat,
                 partial: Option<seq<char>>, lines: seq<seq<char>>)
    requires base + |chunk| <= |data| && chunk == data[base..base + |chunk|]
    requires begin < |chunk| && newline == NextNewline(chunk, begin) < |chunk|
    requires Reading(data, base + begin, start, partial, lines)
    ensures Reading(data, base + newline + 1, base + newline + 1, None,
                    lines + [(if partial.None? then [] else partial.value) + chunk[begin..newline]])
  {
    hide Pieces, NextNewline;
    ChunkLine(data, base, chunk, start, begin, newline);
    CompletesLine(data, start, base + newline);
  }

  lemma StreamEnd(data: File, start: nat, partial: Option<seq<char>>, lines: seq<seq<char>>)
    requires Reading(data, |data|, start, partial, lines)
    ensures lines + (if partial.Some? && partial.value != [] then [partial.value] else []) == StreamDelivered(data)
  {
    TailBeginIs(data, start);
    PiecesAppend(data, 0, start, |data|);
    assert data[start..|data|] == data[start..];
  }

  /** The lines of a stream, read in chunks of any sizes above zero; a read of nothing ends it. */
  method StreamLines(chunks: seq<seq<char>>) returns (lines: seq<seq<char>>)
    requires forall c :: c in chunks ==> c != []
    ensures lines == StreamDelivered(Flatten(chunks))
  {
    hide Pieces, NextNewline, TailBegin, StreamDelivered;
    ghost var data := Flatten(chunks);
    ghost var start: nat := 0;
    var partial: Option<seq<char>> := None;
    lines := [];
    assert chunks[..0] == [];
    NoPieces(data, 0);
    for i := 0 to |chunks|
      invariant Reading(data, |Flatten(chunks[..i])|, start, partial, lines)
    {
      FlattenSplit(chunks, i);
      ghost var base := |Flatten(chunks[..i])|;
      assert chunks[i] == data[base..base + |chunks[i]|];
      lines, partial, start := ReadChunk(data, base, start, chunks[i], partial, lines);
    }
    assert chunks[..|chunks|] == chunks;
    StreamEnd(data, start, partial, lines);
    if partial.Some? && partial.value != [] {
      lines := lines + [partial.value];
    }
  }

  /** Takes in one chunk: completes the partial line, cuts out whole lines, keeps what is left. */
  method ReadChunk(ghost data: File, ghost base: nat, ghost start: nat, chunk: seq<char>,
                   given: Option<seq<char>>, before: seq<seq<char>>)
    returns (lines: seq<seq<char>>, partial: Option<seq<char>>, ghost after: nat)
    requires base + |chunk| <= |data| && chunk == data[base..base + |chunk|]
    requires Reading(data, base, start, given, before)
    ensures Reading(data, base + |chunk|, after, partial, lines)
  {
    hide Pieces, NextNewline, Clear;
    lines, partial, after := before, given, start;
    var begin: nat := 0;
    while begin < |chunk|
      invariant begin <= |chunk|
      invariant Reading(data, base + begin, after, partial, lines)
    {
      var newline := NextNewline(chunk, begin);
      ChunkLine(data, base, chunk, after, begin, newline);
      if newline == |chunk| {
        var was := if partial.None? then [] else partial.value;
        partial := Some(was + chunk[begin..]);
        return;
      }
      LineDone(data, base, chunk, after, begin, newline, partial, lines);
      if partial.Some? {
        lines := lines + [partial.value + chunk[begin..newline]];
        partial := None;
      } else {
        assert [] + chunk[begin..newline] == chunk[begin..newline];
        lines := lines + [chunk[begin..newline]];
      }
      begin := newline + 1;
      after := base + begin;
    }
  }

  /** The two readers agree on a whole file exactly when its last line is terminated. */
  lemma ReadersAgree(file: File, pageSize: nat)
    requires pageSize > 0
    ensures Delivered(file, pageSize, 0, |file|) == StreamDelivered(file) <==> Boundary(file, |file|)
  {
    ExactOnLineRanges(file, pageSize, 0, |file|);
    var p := TailBegin(file, 0);
    if Boundary(file, |file|) {
      TailBeginIs(file, |file|);
    }
  }
}
