/** One vector sub-block merges its half of a split task: the log-sum-exps first, then the
    outputs tile by tile, copied out as they are done. */
module CombineHalf {
  import opened Arith
  import opened SplitRecords
  import opened CombineMath
  import opened CombineRows
  import opened CombineTiles
  import opened CombineMerge

  /** What `ts` and `ll` hold once the log-sum-exps of a half are merged. */
  ghost predicate LseMerged(env: Env, t: SplitNode, half: int, ll: seq<seq<LogSum>>, ts: seq<real>, width: int) {
    && Ready(env, t) && 0 <= HalfStart(t, half) && HalfStart(t, half) + HalfRows(t, half) <= Rows(t)
    && Wide(ll, width) && t.splitNum <= |ll| && |ts| == width && HalfRows(t, half) <= width
    && (forall f :: 0 <= f < HalfRows(t, half) ==>
                      ts[f] == LseVal(env, t, HalfStart(t, half) + f))
    && (forall s, f :: 0 <= s < t.splitNum && 0 <= f < HalfRows(t, half) ==>
                         ll[s][f] == LseOf(env, t, s, HalfStart(t, half) + f))
  }

  /** The source of the strided read of a half. */
  ghost predicate Source(t: SplitNode, half: int, addr: int, block: int, srcStride: int) {
    && (half == 0 || half == 1)
    && addr == t.lseTaskOffset + HalfStart(t, half) && block == HalfRows(t, half)
    && srcStride == if half == 0 then Rows(t) - SumFormer(t) else SumFormer(t)
  }

  /** The strided read of a half starts each segment at its scratch slot. */
  lemma SlotOfBlock(t: SplitNode, half: int, addr: int, block: int, srcStride: int, s: int, f: int)
    requires Source(t, half, addr, block, srcStride)
    ensures BlockStart(addr, block, srcStride, s) + f == SlotRow(t, s, HalfStart(t, half) + f)
  {
  }

  lemma HalfIn(env: Env, t: SplitNode, half: int)
    requires Ready(env, t) && (half == 0 || half == 1)
    ensures 0 <= HalfStart(t, half) && 0 <= HalfRows(t, half) && HalfStart(t, half) + HalfRows(t, half) <= Rows(t)
    ensures t.splitNum >= 1 && t.lseTaskOffset >= 0
  {
    RowsPositive(t, env.qHeads, env.headSizeV);
  }

  lemma BlocksIn(env: Env, t: SplitNode, half: int, addr: int, block: int, srcStride: int)
    requires Ready(env, t) && Source(t, half, addr, block, srcStride) && block == HalfRows(t, half) > 0
    requires half == 0 || half == 1
    ensures forall s :: 0 <= s < t.splitNum ==> 0 <= BlockStart(addr, block, srcStride, s) <= |env.lse| - block
  {
    HalfIn(env, t, half);
    hide *;
    forall s | 0 <= s < t.splitNum
      ensures 0 <= BlockStart(addr, block, srcStride, s) <= |env.lse| - block
    {
      SlotOfBlock(t, half, addr, block, srcStride, s, 0);
      SlotOfBlock(t, half, addr, block, srcStride, s, block - 1);
      SlotRowIn(env, t, s, HalfStart(t, half));
      SlotRowIn(env, t, s, HalfStart(t, half) + block - 1);
    }
  }

  /** A loaded column is the row's log-sum-exps over lowest values. */
  lemma LoadedColumn(env: Env, t: SplitNode, r: int, ll: seq<seq<LogSum>>, width: int, f: int)
    requires Ready(env, t) && 0 <= r < Rows(t)
    requires Wide(ll, width) && 0 <= f < width && 0 <= t.splitNum <= |ll|
    requires forall s :: 0 <= s < t.splitNum ==> ll[s][f] == LseOf(env, t, s, r)
    requires forall s :: t.splitNum <= s < |ll| ==> ll[s][f] == Of(env.low)
    ensures LseColumn(ll, width, f, Lses(env, t, r, t.splitNum), t.splitNum, env.low)
  {
    LsesAt(env, t, r, t.splitNum);
    hide Ready, Rows, LseOf, Lses;
    assert ColumnOf(ll, width, f)[..t.splitNum] == Lses(env, t, r, t.splitNum);
  }

  /** The merged log-sum-exps of a half, from the scratch buffer. */
  method MergeHalfLse(env: Env, t: SplitNode, half: int) returns (ll: seq<seq<LogSum>>, ts: seq<real>)
    requires Ready(env, t) && (half == 0 || half == 1) && HalfRows(t, half) > 0
    ensures LseMerged(env, t, half, ll, ts, AlignTo8(HalfRows(t, half)))
  {
    var addr := t.lseTaskOffset + HalfStart(t, half);
    var block := HalfRows(t, half);
    var srcStride := if half == 0 then Rows(t) - SumFormer(t) else SumFormer(t);
    assert Source(t, half, addr, block, srcStride);
    hide *;
    HalfIn(env, t, half);
    BlocksIn(env, t, half, addr, block, srcStride);
    AlignCovers(block);
    AlignCovers(t.splitNum);
    var width := AlignTo8(block);
    ll := LoadLse(env.lse, addr, t.splitNum, block, srcStride, AlignTo8(t.splitNum), width, env.low);
    ts := MergeColumns(env.exp, env.ln, ll, t.splitNum, width);
    HalfLoaded(env, t, half, addr, block, srcStride, ll, ts, width);
  }

  lemma HalfLoaded(env: Env, t: SplitNode, half: int, addr: int, block: int, srcStride: int, ll: seq<seq<LogSum>>, ts: seq<real>, width: int)
    requires Ready(env, t) && Source(t, half, addr, block, srcStride) && 0 < block == HalfRows(t, half) <= width
    requires 0 <= HalfStart(t, half) && HalfStart(t, half) + block <= Rows(t)
    requires Wide(ll, width) && 0 < t.splitNum <= |ll| == AlignTo8(t.splitNum) && |ts| == width
    requires forall s :: 0 <= s < t.splitNum ==> 0 <= BlockStart(addr, block, srcStride, s) <= |env.lse| - block
    requires forall s, f :: 0 <= s < t.splitNum && 0 <= f < block ==> ll[s][f] == env.lse[BlockStart(addr, block, srcStride, s) + f]
    requires forall s, f :: t.splitNum <= s < |ll| && 0 <= f < width ==> ll[s][f] == Of(env.low)
    requires forall f, xs, low :: 0 <= f < width && LseColumn(ll, width, f, xs, t.splitNum, low) ==>
                                    0 < |xs| <= |ll| && ts[f] == RowLse(env.exp, env.ln, xs, low, |ll|)
    ensures LseMerged(env, t, half, ll, ts, width)
  {
    hide BlockStart, HalfRows, HalfStart, Rows, Ready, LseColumn, RowLse, Source;
    forall s, f | 0 <= s < t.splitNum && 0 <= f < block
      ensures ll[s][f] == LseOf(env, t, s, HalfStart(t, half) + f)
    {
      SlotOfBlock(t, half, addr, block, srcStride, s, f);
    }
    hide LseOf;
    forall f | 0 <= f < block
      ensures ts[f] == LseVal(env, t, HalfStart(t, half) + f)
    {
      LoadedColumn(env, t, HalfStart(t, half) + f, ll, width, f);
    }
  }

  /* The outputs. */

  ghost function Weight(env: Env, t: SplitNode, s: int, r: int): real
    requires Ready(env, t) && 0 <= s < t.splitNum && 0 <= r < Rows(t)
  {
    ExpFrom(env.exp, LseOf(env, t, s, r), LseVal(env, t, r))
  }

  /** Column d of flat row r after the first n segments. */
  ghost function PartialOut(env: Env, t: SplitNode, r: int, d: int, n: int): real
    requires Ready(env, t) && 0 <= n <= t.splitNum && 0 <= r < Rows(t) && 0 <= d < env.headSizeV
  {
    WeightedSum(env.exp, Lses(env, t, r, n), Outs(env, t, r, d, n), LseVal(env, t, r))
  }

  lemma PartialStart(env: Env, t: SplitNode, r: int, d: int)
    requires Ready(env, t) && 0 <= r < Rows(t) && 0 <= d < env.headSizeV
    ensures PartialOut(env, t, r, d, 0) == 0.0
  {
    hide LseVal, Ready;
    assert t.splitNum >= 0 by { HalfIn(env, t, 0); }
  }

  lemma PartialStep(env: Env, t: SplitNode, r: int, d: int, n: int)
    requires Ready(env, t) && 0 <= n < t.splitNum && 0 <= r < Rows(t) && 0 <= d < env.headSizeV
    ensures PartialOut(env, t, r, d, n + 1) == PartialOut(env, t, r, d, n) + Times(Weight(env, t, n, r), OutOf(env, t, n, r)[d])
  {
    hide LseVal, Ready, LseOf, OutOf, Times, Rows, WeightedSum;
    var xs, os := Lses(env, t, r, n + 1), Outs(env, t, r, d, n + 1);
    LastWeighted(env.exp, xs, os, LseVal(env, t, r));
    assert xs[..n] == Lses(env, t, r, n) && os[..n] == Outs(env, t, r, d, n);
  }

  /** The weights of a half, one per segment and row. */
  ghost predicate Weights(env: Env, t: SplitNode, half: int, gl: seq<Row>) {
    && Ready(env, t) && 0 <= HalfStart(t, half) && HalfStart(t, half) + HalfRows(t, half) <= Rows(t)
    && |gl| >= t.splitNum
    && forall s :: 0 <= s < t.splitNum ==>
      |gl[s]| >= HalfRows(t, half)
      && forall f :: 0 <= f < HalfRows(t, half) ==> gl[s][f] == Weight(env, t, s, HalfStart(t, half) + f)
  }

  method HalfWeights(env: Env, t: SplitNode, half: int, ll: seq<seq<LogSum>>, ts: seq<real>, width: int) returns (gl: seq<Row>)
    requires LseMerged(env, t, half, ll, ts, width) && 0 <= width
    ensures Weights(env, t, half, gl)
  {
    hide Ready, HalfStart, HalfRows, Rows, LseVal, LseOf;
    assert t.splitNum >= 0 by { RowsPositiveIn(env, t); }
    var any := seq(|ll|, _ => seq(width, _ => 0.0));
    gl := SubExp(env.exp, any, ll, ts, t.splitNum, width);
    forall s, f | 0 <= s < t.splitNum && 0 <= f < HalfRows(t, half)
      ensures gl[s][f] == Weight(env, t, s, HalfStart(t, half) + f)
    {
      assert f < width;
      assert ll[s][f] == LseOf(env, t, s, HalfStart(t, half) + f);
      assert ts[f] == LseVal(env, t, HalfStart(t, half) + f);
      assert gl[s][f] == ExpFrom(env.exp, ll[s][f], ts[f]);
    }
    assert forall s :: 0 <= s < t.splitNum ==> |gl[s]| == width;
  }

  lemma RowsPositiveIn(env: Env, t: SplitNode)
    requires Ready(env, t)
    ensures t.splitNum >= 1 && NLen(t) >= 1 && Rows(t) >= 1 && env.headSizeV >= 1
  {
    RowsPositive(t, env.qHeads, env.headSizeV);
  }

  /** Multiply each row by its weight. */
  function ScaleRows(ws: seq<real>, from: int, rows: seq<Row>): (r: seq<Row>)
    requires 0 <= from && from + |rows| <= |ws|
    ensures |r| == |rows|
    ensures forall i :: 0 <= i < |rows| ==>
                          |r[i]| == |rows[i]| && forall d :: 0 <= d < |rows[i]| ==> r[i][d] == Times(ws[from + i], rows[i][d])
  {
    seq(|rows|, i requires 0 <= i < |rows| => ScaleRow(ws[from + i], rows[i]))
  }

  function ScaleRow(w: real, row: Row): (r: Row)
    ensures |r| == |row| && forall d :: 0 <= d < |row| ==> r[d] == Times(w, row[d])
  {
    seq(|row|, d requires 0 <= d < |row| => Times(w, row[d]))
  }

  function AddRows(a: seq<Row>, b: seq<Row>, width: int): (r: seq<Row>)
    requires |a| == |b| && Wide(a, width) && Wide(b, width) && width >= 0
    ensures |r| == |a| && Wide(r, width)
    ensures forall i, d :: 0 <= i < |a| && 0 <= d < width ==> r[i][d] == a[i][d] + b[i][d]
  {
    seq(|a|, i requires 0 <= i < |a| => seq(width, d requires 0 <= d < width => a[i][d] + b[i][d]))
  }

  /** Element offset of a tile of segment s in the partial outputs. */
  lemma TileSource(env: Env, t: SplitNode, half: int, tileStart: int, s: int, addrO: int)
    requires Ready(env, t) && (half == 0 || half == 1)
    requires addrO == if half == 0 then t.oTaskOffset else t.oTaskOffset + SumFormer(t) * env.headSizeV
    ensures addrO + tileStart * env.headSizeV + s * (Rows(t) * env.headSizeV)
         == SlotRow(t, s, HalfStart(t, half) + tileStart) * env.headSizeV
  {
    var h, rows := env.headSizeV, Rows(t);
    hide Rows, SumFormer;
    assert addrO == (t.lseTaskOffset + HalfStart(t, half)) * h by { AddMultiples(t.lseTaskOffset, HalfStart(t, half), h); }
    AddMultiples(t.lseTaskOffset + HalfStart(t, half), tileStart, h);
    assert s * (rows * h) == (s * rows) * h;
    AddMultiples(t.lseTaskOffset + HalfStart(t, half) + tileStart, s * rows, h);
  }

  /** Rows `from`, ... of the half after the first n segments. */
  ghost predicate Accumulated(env: Env, t: SplitNode, r: int, n: int, go: seq<Row>) {
    && Ready(env, t) && 0 <= n <= t.splitNum && 0 <= r && r + |go| <= Rows(t) && Wide(go, env.headSizeV)
    && forall i, d :: 0 <= i < |go| && 0 <= d < env.headSizeV ==> go[i][d] == PartialOut(env, t, r + i, d, n)
  }

  /** The rows of one segment, weighted. */
  ghost predicate Contribution(env: Env, t: SplitNode, r: int, s: int, to: seq<Row>) {
    && Ready(env, t) && 0 <= s < t.splitNum && 0 <= r && r + |to| <= Rows(t) && Wide(to, env.headSizeV)
    && forall i, d :: 0 <= i < |to| && 0 <= d < env.headSizeV ==>
                        to[i][d] == Times(Weight(env, t, s, r + i), OutOf(env, t, s, r + i)[d])
  }

  lemma FirstContribution(env: Env, t: SplitNode, r: int, to: seq<Row>)
    requires Contribution(env, t, r, 0, to)
    ensures Accumulated(env, t, r, 1, to)
  {
    hide PartialOut, Weight, OutOf, Times, Rows, Ready;
    forall i, d | 0 <= i < |to| && 0 <= d < env.headSizeV
      ensures to[i][d] == PartialOut(env, t, r + i, d, 1)
    {
      PartialStart(env, t, r + i, d);
      PartialStep(env, t, r + i, d, 0);
    }
  }

  lemma NextContribution(env: Env, t: SplitNode, r: int, n: int, to: seq<Row>, go: seq<Row>, sum: seq<Row>)
    requires Contribution(env, t, r, n, to) && Accumulated(env, t, r, n, go) && |to| == |go| == |sum|
    requires Wide(sum, env.headSizeV)
    requires forall i, d :: 0 <= i < |to| && 0 <= d < env.headSizeV ==> sum[i][d] == to[i][d] + go[i][d]
    ensures Accumulated(env, t, r, n + 1, sum)
  {
    hide PartialOut, Weight, OutOf, Times, Rows, Ready;
    forall i, d | 0 <= i < |sum| && 0 <= d < env.headSizeV
      ensures sum[i][d] == PartialOut(env, t, r + i, d, n + 1)
    {
      PartialStep(env, t, r + i, d, n);
    }
  }

  /** Read `count` whole rows of the partial outputs. */
  method LoadRows(out: seq<Row>, off: int, headSizeV: int, count: int, ghost row: int) returns (lo: seq<Row>)
    requires headSizeV >= 1 && off == row * headSizeV && 0 <= row && 0 <= count && row + count <= |out|
    ensures lo == out[row..row + count]
  {
    NextMultiple(row, headSizeV);
    DivideBetween(off, headSizeV, row);
    lo := out[off / headSizeV..off / headSizeV + count];
  }

  /** The rows of segment s, weighted. */
  method Contribute(env: Env, t: SplitNode, half: int, gl: seq<Row>, tileStart: int, curTile: int, s: int, oOffset: int)
    returns (to: seq<Row>)
    requires Ready(env, t) && Weights(env, t, half, gl) && 0 <= s < t.splitNum
    requires 0 <= tileStart && 0 < curTile && tileStart + curTile <= HalfRows(t, half)
    requires oOffset == SlotRow(t, s, HalfStart(t, half) + tileStart) * env.headSizeV
    ensures Contribution(env, t, HalfStart(t, half) + tileStart, s, to) && |to| == curTile
  {
    ghost var r := HalfStart(t, half) + tileStart;
    assert r >= 0 && r + curTile <= Rows(t);
    assert |gl[s]| >= HalfRows(t, half);
    hide *;
    SlotRowIn(env, t, s, r);
    SlotRowIn(env, t, s, r + curTile - 1);
    SlotRowNext(t, s, r, curTile - 1);
    RowsPositiveIn(env, t);
    var lo := LoadRows(env.out, oOffset, env.headSizeV, curTile, SlotRow(t, s, r));
    to := ScaleRows(gl[s], tileStart, lo);
    Contributed(env, t, half, gl, tileStart, s, lo, to);
  }

  lemma SlotRowNext(t: SplitNode, s: int, r: int, i: int)
    ensures SlotRow(t, s, r + i) == SlotRow(t, s, r) + i
  {
  }

  lemma Contributed(env: Env, t: SplitNode, half: int, gl: seq<Row>, tileStart: int, s: int, lo: seq<Row>, to: seq<Row>)
    requires Ready(env, t) && Weights(env, t, half, gl) && 0 <= s < t.splitNum
    requires 0 <= tileStart && 0 < |lo| == |to| && tileStart + |lo| <= HalfRows(t, half) <= |gl[s]|
    requires var row := SlotRow(t, s, HalfStart(t, half) + tileStart);
             0 <= row && row + |lo| <= |env.out| && lo == env.out[row..row + |lo|]
    requires forall i :: 0 <= i < |lo| ==>
                           |to[i]| == |lo[i]| && forall d :: 0 <= d < |lo[i]| ==> to[i][d] == Times(gl[s][tileStart + i], lo[i][d])
    ensures Contribution(env, t, HalfStart(t, half) + tileStart, s, to)
  {
    var r := HalfStart(t, half) + tileStart;
    hide Ready, HalfStart, HalfRows, Rows, Times, Weight, SlotRow;
    forall i | 0 <= i < |lo|
      ensures lo[i] == OutOf(env, t, s, r + i)
      ensures gl[s][tileStart + i] == Weight(env, t, s, r + i)
    {
      SlotRowNext(t, s, r, i);
    }
    hide OutOf;
  }

  /** A tile of merged rows: the weighted rows of all segments, added up. */
  method AccumulateTile(env: Env, t: SplitNode, half: int, gl: seq<Row>, tileStart: int, curTile: int) returns (go: seq<Row>)
    requires Ready(env, t) && (half == 0 || half == 1) && Weights(env, t, half, gl)
    requires 0 <= tileStart && 0 < curTile && tileStart + curTile <= HalfRows(t, half)
    ensures Accumulated(env, t, HalfStart(t, half) + tileStart, t.splitNum, go) && |go| == curTile
  {
    hide *;
    RowsPositiveIn(env, t);
    var addrO := if half == 0 then t.oTaskOffset else t.oTaskOffset + SumFormer(t) * env.headSizeV;
    var oCount := Rows(t) * env.headSizeV;
    ghost var r := HalfStart(t, half) + tileStart;
    go := [];
    for nIdx := 0 to t.splitNum
      invariant nIdx > 0 ==> Accumulated(env, t, r, nIdx, go) && |go| == curTile
    {
      TileSource(env, t, half, tileStart, nIdx, addrO);
      var to := Contribute(env, t, half, gl, tileStart, curTile, nIdx, addrO + tileStart * env.headSizeV + nIdx * oCount);
      if nIdx == 0 {
        go := to;
        FirstContribution(env, t, r, to);
      } else {
        go := AddContribution(env, t, r, nIdx, to, go);
      }
    }
  }

  method AddContribution(env: Env, t: SplitNode, ghost r: int, ghost n: int, to: seq<Row>, go: seq<Row>) returns (sum: seq<Row>)
    requires Contribution(env, t, r, n, to) && Accumulated(env, t, r, n, go) && |to| == |go|
    ensures Accumulated(env, t, r, n + 1, sum) && |sum| == |go|
  {
    hide PartialOut, Weight, OutOf, Times, Rows;
    sum := AddRows(to, go, env.headSizeV);
    NextContribution(env, t, r, n, to, go, sum);
  }

  /** After all segments the rows are the merged ones. */
  lemma AllAccumulated(env: Env, t: SplitNode, r: int, go: seq<Row>)
    requires Accumulated(env, t, r, t.splitNum, go)
    ensures forall i :: 0 <= i < |go| ==> go[i] == MergedRow(env, t, r + i)
  {
    hide Ready, Rows, LseVal, WeightedSum;
    forall i | 0 <= i < |go|
      ensures go[i] == MergedRow(env, t, r + i)
    {
    }
  }
}
