/** The result of the combine step on the records of the split pass: softmax attention over
    all keys of every split row. */
module CombineResult {
  import opened Cover
  import opened SplitParams
  import opened SplitSegments
  import opened SplitRecords
  import opened CombineMath
  import opened CombineRows
  import opened CombineMerge
  import opened CombineHalf
  import opened CombineCells
  import opened CombineLse
  import opened CombineScale
  import opened CombineRun
  import opened CombineLink

  /** The scratch buffers hold, for flat row r and column d of a task, the log-sum-exps and the
      attention outputs of the key segments `parts`; a segment without keys left minus infinity. */
  ghost predicate PartialRow(env: Env, t: SplitNode, r: int, d: int, parts: seq<seq<Key>>)
    requires Ready(env, t) && 0 <= r < Rows(t) && 0 <= d < env.headSizeV
  {
    && |parts| == t.splitNum
    && forall s :: 0 <= s < t.splitNum ==>
      LseOf(env, t, s, r) == LseOfKeys(env.exp, env.ln, parts[s]) && IsOut(env.exp, parts[s], OutOf(env, t, s, r)[d])
  }

  lemma PartsAre(env: Env, t: SplitNode, r: int, d: int, parts: seq<seq<Key>>)
    requires Ready(env, t) && 0 <= r < Rows(t) && 0 <= d < env.headSizeV && PartialRow(env, t, r, d, parts)
    ensures t.splitNum >= 1
    ensures AreLses(env.exp, env.ln, parts, Lses(env, t, r, t.splitNum))
    ensures AreOuts(env.exp, parts, Outs(env, t, r, d, t.splitNum))
    ensures AllAbove(Lses(env, t, r, t.splitNum), env.low)
  {
    RowsPositiveIn(env, t);
    LsesAt(env, t, r, t.splitNum);
    OutsAt(env, t, r, d, t.splitNum);
    hide Ready, Rows, LseOf, OutOf, Lses, Outs, LseOfKeys, IsOut;
  }

  lemma MergedIs(env: Env, t: SplitNode, r: int, d: int)
    requires Ready(env, t) && 0 <= r < Rows(t) && 0 <= d < env.headSizeV && t.splitNum >= 1
    requires HasKeys(Lses(env, t, r, t.splitNum)) && AllAbove(Lses(env, t, r, t.splitNum), env.low)
    ensures MergedRow(env, t, r)[d] == MergedOut(env.exp, env.ln, Lses(env, t, r, t.splitNum), Outs(env, t, r, d, t.splitNum))
    ensures LseVal(env, t, r) == MergedLse(env.exp, env.ln, Lses(env, t, r, t.splitNum))
  {
    AlignCovers(t.splitNum);
    RowLseIsMerged(env.exp, env.ln, Lses(env, t, r, t.splitNum), env.low, AlignTo8(t.splitNum));
    hide MergedLse, RowLse, WeightedSum, Lses, Outs, Ready, Rows, HasKeys, AllAbove;
  }

  /** A row with keys has keys in some segment. */
  lemma KeysSomewhere(exp: real -> real, ln: real -> real, parts: seq<seq<Key>>, lses: seq<LogSum>)
    requires AreLses(exp, ln, parts, lses) && Flatten(parts) != []
    ensures HasKeys(lses)
  {
    var s := SomePart(parts);
    hide Lse;
    assert lses[s].Of?;
  }

  lemma {:induction false} SomePart(parts: seq<seq<Key>>) returns (s: int)
    requires Flatten(parts) != []
    ensures 0 <= s < |parts| && parts[s] != []
    decreases |parts|
  {
    s := |parts| - 1;
    if parts[s] == [] {
      s := SomePart(parts[..s]);
    }
  }

  /** A merged row is attention over the keys of all segments, in every column, and its
      log-sum-exp is the one over all keys. */
  lemma MergedRowIsAttention(env: Env, t: SplitNode, r: int, d: int, parts: seq<seq<Key>>)
    requires ExpLn(env.exp, env.ln)
    requires Ready(env, t) && 0 <= r < Rows(t) && 0 <= d < env.headSizeV && PartialRow(env, t, r, d, parts) && Flatten(parts) != []
    ensures SumExp(env.exp, Flatten(parts)) > 0.0
    ensures MergedRow(env, t, r)[d] == Attention(env.exp, Flatten(parts))
    ensures LseVal(env, t, r) == Lse(env.exp, env.ln, Flatten(parts))
  {
    PartsAre(env, t, r, d, parts);
    var lses, outs := Lses(env, t, r, t.splitNum), Outs(env, t, r, d, t.splitNum);
    hide *;
    KeysSomewhere(env.exp, env.ln, parts, lses);
    MergedIs(env, t, r, d);
    MergedOutIsAttention(env.exp, env.ln, parts, lses, outs);
    MergedLseIsLse(env.exp, env.ln, parts, lses);
  }

  /** The scratch buffers hold the partial results of every task; keys(k, r, d) are the key
      segments of flat row r of task k with their values in column d. */
  ghost predicate Partials(env: Env, tasks: seq<SplitNode>, keys: (int, int, int) -> seq<seq<Key>>)
    requires forall k :: 0 <= k < |tasks| ==> Ready(env, tasks[k])
  {
    forall k, r, d :: 0 <= k < |tasks| && 0 <= r < Rows(tasks[k]) && 0 <= d < env.headSizeV ==>
                        PartialRow(env, tasks[k], r, d, keys(k, r, d))
  }

  lemma AllReady(env: Env, lay: Layout, tasks: seq<SplitNode>, outLen: int, lseLen: int)
    requires AllPlaced(env, lay, tasks, outLen, lseLen)
    ensures forall k :: 0 <= k < |tasks| ==> Ready(env, tasks[k]) && NLen(tasks[k]) >= 1 && HasBatch(lay, tasks[k])
  {
    forall k | 0 <= k < |tasks|
      ensures Ready(env, tasks[k]) && NLen(tasks[k]) >= 1 && HasBatch(lay, tasks[k])
    {
      TaskIn(env, lay, tasks, outLen, lseLen, k);
    }
  }

  /** Row r of task k holds, in column d, attention over all keys, if there are any. */
  ghost predicate RowHolds(env: Env, lay: Layout, t: SplitNode, r: int, d: int, out: seq<Row>, keys: seq<Key>)
    requires Ready(env, t) && NLen(t) >= 1 && HasBatch(lay, t)
  {
    var x := RowIndex(t, env.qHeads, PrevQ(lay, t), r);
    && 0 <= x < |out| && 0 <= d < |out[x]|
    && (keys != [] ==> SumExp(env.exp, keys) > 0.0 && out[x][d] == Attention(env.exp, keys))
  }

  lemma CellHolds(env: Env, lay: Layout, tasks: seq<SplitNode>, outLen: int, lseLen: int, before: seq<Row>, after: seq<Row>,
                  k: int, r: int, d: int, parts: seq<seq<Key>>)
    requires AllPlaced(env, lay, tasks, outLen, lseLen) && Stored(before, after, AllRowCells(env, lay, tasks, outLen, lseLen))
    requires ExpLn(env.exp, env.ln) && 0 <= k < |tasks| && 0 <= r < Rows(tasks[k]) && 0 <= d < env.headSizeV
    requires Ready(env, tasks[k]) && NLen(tasks[k]) >= 1 && HasBatch(lay, tasks[k])
    requires PartialRow(env, tasks[k], r, d, parts)
    ensures RowHolds(env, lay, tasks[k], r, d, after, Flatten(parts))
  {
    var t := tasks[k];
    var c := Cell(RowIndex(t, env.qHeads, PrevQ(lay, t), r), MergedRow(env, t, r));
    assert c in AllRowCells(env, lay, tasks, outLen, lseLen);
    if Flatten(parts) != [] {
      MergedRowIsAttention(env, t, r, d, parts);
    }
    hide AllPlaced, AllRowCells, Ready, PartialRow, ExpLn, Rows, RowIndex, MergedRow, NLen, HasBatch, PrevQ, Attention, SumExp, Flatten;
  }

  /** The log-sum-exp output holds that of all keys, if there are any. */
  ghost predicate LseHolds(env: Env, lay: Layout, t: SplitNode, r: int, lses: seq<real>, keys: seq<Key>)
    requires Ready(env, t) && NLen(t) >= 1 && HasBatch(lay, t)
  {
    var x := LseIndex(lay, env.qHeads, t, r);
    0 <= x < |lses| && (keys != [] ==> lses[x] == Lse(env.exp, env.ln, keys))
  }

  lemma LseCellHolds(env: Env, lay: Layout, tasks: seq<SplitNode>, outLen: int, lseLen: int, before: seq<real>, after: seq<real>,
                     k: int, r: int, d: int, parts: seq<seq<Key>>)
    requires AllPlaced(env, lay, tasks, outLen, lseLen) && Stored(before, after, AllLseCells(env, lay, tasks, outLen, lseLen))
    requires ExpLn(env.exp, env.ln) && 0 <= k < |tasks| && 0 <= r < Rows(tasks[k]) && 0 <= d < env.headSizeV
    requires Ready(env, tasks[k]) && NLen(tasks[k]) >= 1 && HasBatch(lay, tasks[k])
    requires PartialRow(env, tasks[k], r, d, parts)
    ensures LseHolds(env, lay, tasks[k], r, after, Flatten(parts))
  {
    hide AllPlaced, AllLseCells, Ready, PartialRow, ExpLn, Rows, LseIndex, LseVal, NLen, HasBatch, Lse, Flatten;
    LseCellIn(env, lay, tasks, outLen, lseLen, k, r);
    if Flatten(parts) != [] {
      MergedRowIsAttention(env, tasks[k], r, d, parts);
    }
  }

  lemma LseCellIn(env: Env, lay: Layout, tasks: seq<SplitNode>, outLen: int, lseLen: int, k: int, r: int)
    requires AllPlaced(env, lay, tasks, outLen, lseLen) && 0 <= k < |tasks| && 0 <= r < Rows(tasks[k])
    requires Ready(env, tasks[k]) && NLen(tasks[k]) >= 1 && HasBatch(lay, tasks[k])
    ensures Cell(LseIndex(lay, env.qHeads, tasks[k], r), LseVal(env, tasks[k], r)) in AllLseCells(env, lay, tasks, outLen, lseLen)
  {
    hide Ready, LseIndex, LseVal;
  }

  /** Both results of one row and column. */
  lemma CellsHold(env: Env, lay: Layout, tasks: seq<SplitNode>, o: seq<Row>, o': seq<Row>, l: seq<real>, l': seq<real>,
                  outputLse: bool, keys: (int, int, int) -> seq<seq<Key>>, k: int, r: int, d: int)
    requires AllPlaced(env, lay, tasks, |o'|, |l'|) && Stored(o, o', AllRowCells(env, lay, tasks, |o'|, |l'|))
    requires outputLse ==> Stored(l, l', AllLseCells(env, lay, tasks, |o'|, |l'|))
    requires forall i :: 0 <= i < |tasks| ==> Ready(env, tasks[i]) && NLen(tasks[i]) >= 1 && HasBatch(lay, tasks[i])
    requires ExpLn(env.exp, env.ln) && Partials(env, tasks, keys)
    requires 0 <= k < |tasks| && 0 <= r < Rows(tasks[k]) && 0 <= d < env.headSizeV
    ensures RowHolds(env, lay, tasks[k], r, d, o', Flatten(keys(k, r, d)))
    ensures outputLse ==> LseHolds(env, lay, tasks[k], r, l', Flatten(keys(k, r, d)))
  {
    hide *;
    PartialAt(env, tasks, keys, k, r, d);
    CellHolds(env, lay, tasks, |o'|, |l'|, o, o', k, r, d, keys(k, r, d));
    if outputLse {
      LseCellHolds(env, lay, tasks, |o'|, |l'|, l, l', k, r, d, keys(k, r, d));
    }
  }

  /** Every row of every task holds attention over all its keys, and its log-sum-exp if asked for. */
  ghost predicate AllHold(env: Env, lay: Layout, tasks: seq<SplitNode>, out: seq<Row>, lses: seq<real>, outputLse: bool,
                          keys: (int, int, int) -> seq<seq<Key>>)
    requires forall i :: 0 <= i < |tasks| ==> Ready(env, tasks[i]) && NLen(tasks[i]) >= 1 && HasBatch(lay, tasks[i])
  {
    forall k, r, d :: 0 <= k < |tasks| && 0 <= r < Rows(tasks[k]) && 0 <= d < env.headSizeV ==>
                        && RowHolds(env, lay, tasks[k], r, d, out, Flatten(keys(k, r, d)))
                        && (outputLse ==> LseHolds(env, lay, tasks[k], r, lses, Flatten(keys(k, r, d))))
  }

  lemma AllCellsHold(env: Env, lay: Layout, tasks: seq<SplitNode>, o: seq<Row>, o': seq<Row>, l: seq<real>, l': seq<real>,
                     outputLse: bool, keys: (int, int, int) -> seq<seq<Key>>)
    requires AllPlaced(env, lay, tasks, |o'|, |l'|) && Stored(o, o', AllRowCells(env, lay, tasks, |o'|, |l'|))
    requires outputLse ==> Stored(l, l', AllLseCells(env, lay, tasks, |o'|, |l'|))
    requires forall i :: 0 <= i < |tasks| ==> Ready(env, tasks[i]) && NLen(tasks[i]) >= 1 && HasBatch(lay, tasks[i])
    requires ExpLn(env.exp, env.ln) && Partials(env, tasks, keys)
    ensures AllHold(env, lay, tasks, o', l', outputLse, keys)
  {
    forall k, r, d | 0 <= k < |tasks| && 0 <= r < Rows(tasks[k]) && 0 <= d < env.headSizeV
      ensures RowHolds(env, lay, tasks[k], r, d, o', Flatten(keys(k, r, d)))
      ensures outputLse ==> LseHolds(env, lay, tasks[k], r, l', Flatten(keys(k, r, d)))
    {
      hide *;
      CellsHold(env, lay, tasks, o, o', l, l', outputLse, keys, k, r, d);
    }
    hide RowHolds, LseHolds, Rows, Ready, HasBatch, NLen;
  }

  /** x is the output row, or the log-sum-exp address, of flat row r of a task. */
  ghost predicate AtRow(env: Env, lay: Layout, t: SplitNode, r: int, x: int) {
    NLen(t) >= 1 && HasBatch(lay, t) && 0 <= r < Rows(t) && RowIndex(t, env.qHeads, PrevQ(lay, t), r) == x
  }

  ghost predicate AtLse(env: Env, lay: Layout, t: SplitNode, r: int, x: int) {
    NLen(t) >= 1 && HasBatch(lay, t) && 0 <= r < Rows(t) && LseIndex(lay, env.qHeads, t, r) == x
  }

  /** Whatever belongs to no row of a task is as before. */
  ghost predicate RestKept(env: Env, lay: Layout, tasks: seq<SplitNode>, o: seq<Row>, o': seq<Row>, l: seq<real>, l': seq<real>, outputLse: bool) {
    && |o| == |o'| && |l| == |l'|
    && (forall x :: 0 <= x < |o| && (forall k, r :: 0 <= k < |tasks| ==> !AtRow(env, lay, tasks[k], r, x)) ==> o'[x] == o[x])
    && (forall x :: 0 <= x < |l| && (outputLse ==> forall k, r :: 0 <= k < |tasks| ==> !AtLse(env, lay, tasks[k], r, x)) ==> l'[x] == l[x])
  }

  lemma RowKept(env: Env, lay: Layout, tasks: seq<SplitNode>, outLen: int, lseLen: int, before: seq<Row>, after: seq<Row>, x: int)
    requires AllPlaced(env, lay, tasks, outLen, lseLen) && Stored(before, after, AllRowCells(env, lay, tasks, outLen, lseLen))
    requires 0 <= x < |before| && forall k, r :: 0 <= k < |tasks| ==> !AtRow(env, lay, tasks[k], r, x)
    ensures |after| == |before| && after[x] == before[x]
  {
    hide AllPlaced, AllRowCells, Rows, RowIndex, HasBatch, PrevQ, Ready, ValidTask, MergedRow;
    forall c | c in AllRowCells(env, lay, tasks, outLen, lseLen)
      ensures c.at != x
    {
      var k, r := AllRowIs(env, lay, tasks, outLen, lseLen, c);
      assert !AtRow(env, lay, tasks[k], r, x);
    }
  }

  lemma LseKept(env: Env, lay: Layout, tasks: seq<SplitNode>, outLen: int, lseLen: int, before: seq<real>, after: seq<real>, x: int)
    requires AllPlaced(env, lay, tasks, outLen, lseLen) && Stored(before, after, AllLseCells(env, lay, tasks, outLen, lseLen))
    requires 0 <= x < |before| && forall k, r :: 0 <= k < |tasks| ==> !AtLse(env, lay, tasks[k], r, x)
    ensures |after| == |before| && after[x] == before[x]
  {
    hide AllPlaced, AllLseCells, Rows, LseIndex, HasBatch, Ready, ValidTask, LseVal;
    forall c | c in AllLseCells(env, lay, tasks, outLen, lseLen)
      ensures c.at != x
    {
      var k, r := AllLseIs(env, lay, tasks, outLen, lseLen, c);
      assert !AtLse(env, lay, tasks[k], r, x);
    }
  }

  lemma OthersKept(env: Env, lay: Layout, tasks: seq<SplitNode>, o: seq<Row>, o': seq<Row>, l: seq<real>, l': seq<real>, outputLse: bool)
    requires AllPlaced(env, lay, tasks, |o'|, |l'|) && Stored(o, o', AllRowCells(env, lay, tasks, |o'|, |l'|))
    requires Stored(l, l', if outputLse then AllLseCells(env, lay, tasks, |o'|, |l'|) else iset{})
    ensures RestKept(env, lay, tasks, o, o', l, l', outputLse)
  {
    hide AllPlaced, AllRowCells, AllLseCells, AtRow, AtLse;
    forall x | 0 <= x < |o| && (forall k, r :: 0 <= k < |tasks| ==> !AtRow(env, lay, tasks[k], r, x))
      ensures o'[x] == o[x]
    {
      RowKept(env, lay, tasks, |o'|, |l'|, o, o', x);
    }
    forall x | 0 <= x < |l| && (outputLse ==> forall k, r :: 0 <= k < |tasks| ==> !AtLse(env, lay, tasks[k], r, x))
      ensures l'[x] == l[x]
    {
      if outputLse {
        LseKept(env, lay, tasks, |o'|, |l'|, l, l', x);
      }
    }
  }

  /** Combining the records of the split pass. Every row of every split tile ends up, at its
      place in the output, as softmax attention over the keys of all the segments. */
  method CombineRecords(ctx: Context, ghost cores: seq<CoreNode>, ghost segs: seq<Seg>, splitInfo: seq<SplitNode>, totalSplitNodeNum: nat,
                        env: Env, subBlockNum: int, outputLse: bool, oGm: array<Row>, lseOut: array<real>,
                        ghost keys: (int, int, int) -> seq<seq<Key>>)
    requires ctx.Valid() && SoundTable(ShapeOf(ctx), cores) && AllSegs(ShapeOf(ctx), cores, segs) && InBatches(ctx, segs)
    requires Listed(ctx, segs, splitInfo) && totalSplitNodeNum == |Runs(segs)| <= |splitInfo|
    requires Buffers(ctx, segs, env, oGm.Length, lseOut.Length)
    requires subBlockNum > 0 && subBlockNum % 2 == 0 && ExpLn(env.exp, env.ln)
    requires forall k :: 0 <= k < totalSplitNodeNum ==> Ready(env, splitInfo[k])
    requires Partials(env, splitInfo[..totalSplitNodeNum], keys)
    modifies oGm, lseOut
    ensures forall k :: 0 <= k < totalSplitNodeNum ==> NLen(splitInfo[k]) >= 1 && HasBatch(LayoutOf(ctx), splitInfo[k])
    ensures AllHold(env, LayoutOf(ctx), splitInfo[..totalSplitNodeNum], oGm[..], lseOut[..], outputLse, keys)
    ensures RestKept(env, LayoutOf(ctx), splitInfo[..totalSplitNodeNum], old(oGm[..]), oGm[..], old(lseOut[..]), lseOut[..], outputLse)
  {
    ghost var lay := LayoutOf(ctx);
    var tasks := splitInfo[..totalSplitNodeNum];
    TasksAreRecords(ctx, segs, splitInfo);
    hide *;
    RecordsAreTasks(ctx, cores, segs, env, oGm.Length, lseOut.Length);
    AllReady(env, lay, tasks, oGm.Length, lseOut.Length);
    assert forall k :: 0 <= k < totalSplitNodeNum ==> tasks[k] == splitInfo[k];
    Combine(env, LayoutOf(ctx), tasks, subBlockNum, outputLse, oGm, lseOut);
    AllCellsHold(env, lay, tasks, old(oGm[..]), oGm[..], old(lseOut[..]), lseOut[..], outputLse, keys);
    OthersKept(env, lay, tasks, old(oGm[..]), oGm[..], old(lseOut[..]), lseOut[..], outputLse);
  }

  lemma PartialAt(env: Env, tasks: seq<SplitNode>, keys: (int, int, int) -> seq<seq<Key>>, k: int, r: int, d: int)
    requires forall i :: 0 <= i < |tasks| ==> Ready(env, tasks[i])
    requires Partials(env, tasks, keys) && 0 <= k < |tasks| && 0 <= r < Rows(tasks[k]) && 0 <= d < env.headSizeV
    ensures PartialRow(env, tasks[k], r, d, keys(k, r, d))
  {
    hide PartialRow, Rows, Ready;
  }

  lemma TasksAreRecords(ctx: Context, segs: seq<Seg>, splitInfo: seq<SplitNode>)
    requires ctx.Valid() && InBatches(ctx, segs) && Listed(ctx, segs, splitInfo)
    ensures |Runs(segs)| <= |splitInfo| && splitInfo[..|Runs(segs)|] == Records(ctx, segs)
  {
    hide RecordAt, Runs;
  }
}
