/** What the sorted merge emits in a finished run is what a merge may emit. */
module MergeArrivals {
  import opened Scalars
  import opened Relations
  import opened Pruning
  import opened Arrivals
  import opened Cuts
  import opened UnionOperator
  import M = MergeSpec
  import S = Sorting

  /** A history is an interleaving of the rows of its sides. */
  lemma {:induction false} HistoryInterleaved(out: seq<M.Out>)
    ensures Interleaved([M.From(out, M.Left), M.From(out, M.Right)], M.Rows(out))
  {
    if out != [] {
      var before, last := out[..|out| - 1], out[|out| - 1];
      HistoryInterleaved(before);
      var left, right := M.From(before, M.Left), M.From(before, M.Right);
      assert M.From(out, M.Left) == left + (if last.Emitted? && last.side == M.Left then [last.row] else []);
      assert M.From(out, M.Right) == right + (if last.Emitted? && last.side == M.Right then [last.row] else []);
      if last.Emitted? && last.side == M.Left {
        InterleavedSnoc([left, right], 0, M.Rows(before), last.row);
        assert right + [] == right;
        assert [left, right][0 := left + [last.row]] == [left + [last.row], right];
      } else if last.Emitted? {
        InterleavedSnoc([left, right], 1, M.Rows(before), last.row);
        assert left + [] == left;
        assert [left, right][1 := right + [last.row]] == [left, right + [last.row]];
      } else {
        assert left + [] == left && right + [] == right && M.Rows(before) + [] == M.Rows(before);
      }
    }
  }

  /** Every run of the merge that emits its end, whatever the schedule, emits rows that a merge may emit. */
  lemma EveryMerge(env: Env, t: Turn, ok: M.Accepts, schedule: seq<M.Side>)
    requires TurnOk(t) && t.op.MergeOp?
    requires var c, inputs := M.Config(KeyFn(env, t.ss[0], t.op.order), t.op.desc), M.Inputs(t.ins[0], t.ins[1]);
             var w := M.Run(c, ok, inputs, schedule); w.doneLeft && w.doneRight && M.Body(w.out) != w.out
    ensures var c, inputs := M.Config(KeyFn(env, t.ss[0], t.op.order), t.op.desc), M.Inputs(t.ins[0], t.ins[1]);
            MayEmit(env, t, M.Rows(M.Body(M.Run(c, ok, inputs, schedule).out)))
  {
    hide M.Run, M.Body, M.Rows, M.From, S.Merge, S.Sorted, Interleaved;
    var c, inputs := M.Config(KeyFn(env, t.ss[0], t.op.order), t.op.desc), M.Inputs(t.ins[0], t.ins[1]);
    var body := M.Body(M.Run(c, ok, inputs, schedule).out);
    M.EveryFinishedRun(c, ok, inputs, schedule);
    HistoryInterleaved(body);
    assert [t.ins[0], t.ins[1]] == t.ins;
    if M.SortedInputs(c, inputs) {
      S.MergeSorted(c.key, c.desc, inputs.left, inputs.right);
      SortedByKeys(c.key, c.desc, S.Merge(c.key, c.desc, inputs.left, inputs.right), M.Rows(body));
    }
  }
}
