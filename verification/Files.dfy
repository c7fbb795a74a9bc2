/** Files as bytes, where their lines begin and end, and their newline-terminated pieces. */
module Files {

  type File = seq<char>

  const NEWLINE: char := '\n'

  predicate Clear(s: seq<char>, from: nat, to: nat)
    requires from <= to <= |s|
  {
    forall k: nat :: from <= k < to ==> s[k] != NEWLINE
  }

  /** The position of the first newline from `from` on, or the length. */
  function NextNewline(s: seq<char>, from: nat): (n: nat)
    requires from <= |s|
    ensures from <= n <= |s| && Clear(s, from, n) && (n < |s| ==> s[n] == NEWLINE)
    decreases |s| - from
  {
    if from == |s| || s[from] == NEWLINE then from else NextNewline(s, from + 1)
  }

  /** The newline-terminated pieces of `file` from `from` up to `to`, without their newlines. */
  function Pieces(file: File, from: nat, to: nat): seq<seq<char>>
    requires from <= to <= |file|
    decreases |file| - from
  {
    var n := NextNewline(file, from);
    if n >= to then [] else [file[from..n]] + Pieces(file, n + 1, to)
  }

  /** Where the last piece ends: what follows has no newline. */
  function TailBegin(file: File, from: nat): (p: nat)
    requires from <= |file|
    ensures from <= p <= |file| && Clear(file, p, |file|)
    ensures p > from ==> file[p - 1] == NEWLINE
    decreases |file| - from
  {
    var n := NextNewline(file, from);
    if n == |file| then from else TailBegin(file, n + 1)
  }

  /** A line, or the end of a text all of whose lines are terminated, begins here. */
  predicate Boundary(file: File, p: nat) {
    p <= |file| && (p == 0 || file[p - 1] == NEWLINE)
  }

  predicate LineBegin(file: File, p: nat) {
    p < |file| && Boundary(file, p)
  }

  function LineText(file: File, p: nat): seq<char>
    requires p <= |file|
  {
    file[p..NextNewline(file, p)]
  }

  /** Where the line after this one begins, or the end of the file. */
  function NextLine(file: File, p: nat): (q: nat)
    requires p <= |file|
    ensures p <= q <= |file| && (q == |file| || LineBegin(file, q)) && (p < |file| ==> p < q)
  {
    var n := NextNewline(file, p);
    if n < |file| then n + 1 else n
  }

  lemma NextNewlineIs(s: seq<char>, from: nat, n: nat)
    requires from <= n <= |s| && Clear(s, from, n) && (n < |s| ==> s[n] == NEWLINE)
    ensures NextNewline(s, from) == n
  {
    var m := NextNewline(s, from);
    assert !(m < n) && !(n < m);
  }

  /** The newline of a line comes before any later line begins. */
  lemma NewlineBefore(file: File, p: nat, boundary: nat)
    requires p < boundary && Boundary(file, boundary)
    ensures NextNewline(file, p) < boundary
  {
    assert !Clear(file, p, boundary);
  }

  /** Between the begin of a line and the next begin no line begins. */
  lemma NoLineInside(file: File, p: nat, q: nat)
    requires p <= |file| && p < q < NextLine(file, p)
    ensures !LineBegin(file, q)
  {
    if LineBegin(file, q) {
      NewlineBefore(file, p, q);
    }
  }

  lemma NoPieces(file: File, p: nat)
    requires p <= |file|
    ensures Pieces(file, p, p) == []
  {
  }

  lemma PrependAppend(x: seq<char>, s: seq<seq<char>>, t: seq<seq<char>>)
    ensures [x] + (s + t) == ([x] + s) + t
  {
  }

  /** Pieces can be split at any line boundary. */
  lemma {:induction false} PiecesAppend(file: File, a: nat, b: nat, c: nat)
    requires a <= b <= c <= |file| && (a < b ==> Boundary(file, b))
    ensures Pieces(file, a, c) == Pieces(file, a, b) + Pieces(file, b, c)
    decreases |file| - a
  {
    if a == b {
      assert Pieces(file, a, b) == [];
    } else {
      NewlineBefore(file, a, b);
      var n := NextNewline(file, a);
      PiecesAppend(file, n + 1, b, c);
      PrependAppend(file[a..n], Pieces(file, n + 1, b), Pieces(file, b, c));
    }
  }
}
