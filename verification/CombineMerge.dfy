/** Merging the partial results of one half task in the vector unit: padded buffers, column
    reductions and the weighted accumulation of the partial outputs. Local buffers are values;
    every vector instruction is a method that computes its destination. */
module CombineMerge {
  import opened Arith
  import opened SplitRecords
  import opened CombineMath
  import opened CombineRows

  function AlignTo8(x: int): int { (x + 7) / 8 * 8 }

  lemma AlignCovers(x: int)
    requires x >= 1
    ensures x <= AlignTo8(x) < x + 8 && AlignTo8(x) % 8 == 0
  {
  }

  /** Scratch row of flat row r in segment s of a task. */
  function SlotRow(t: SplitNode, s: int, r: int): int { t.lseTaskOffset + s * Rows(t) + r }

  /** What a merge works with: the number of query heads, the width of an output row, the
      functions, the lowest value of the number format, and the two scratch buffers. */
  datatype Env = Env(qHeads: int, headSizeV: int, exp: real -> real, ln: real -> real, low: real, lse: seq<LogSum>, out: seq<Row>)

  predicate NotBelow(x: LogSum, low: real) { x.Nothing? || low <= x.value }

  /** The scratch buffers hold every segment of the split tile. */
  ghost predicate Ready(env: Env, t: SplitNode) {
    && ValidTask(t, env.qHeads, env.headSizeV)
    && t.lseTaskOffset + t.splitNum * Rows(t) <= |env.lse| == |env.out|
    && (forall y :: 0 <= y < |env.out| ==> |env.out[y]| == env.headSizeV)
    && (forall y :: 0 <= y < |env.lse| ==> NotBelow(env.lse[y], env.low))
  }

  lemma SlotRowIn(env: Env, t: SplitNode, s: int, r: int)
    requires Ready(env, t) && 0 <= s < t.splitNum && 0 <= r < Rows(t)
    ensures 0 <= SlotRow(t, s, r) < |env.lse| == |env.out|
    ensures |env.out[SlotRow(t, s, r)]| == env.headSizeV && NotBelow(env.lse[SlotRow(t, s, r)], env.low)
  {
    hide Rows;
    MulMono(s + 1, t.splitNum, Rows(t));
    NextMultiple(s, Rows(t));
    MulMono(0, s, Rows(t));
  }

  /** What segment s of a task left in the scratch buffers for flat row r. */
  ghost function LseOf(env: Env, t: SplitNode, s: int, r: int): LogSum
    requires Ready(env, t) && 0 <= s < t.splitNum && 0 <= r < Rows(t)
  {
    SlotRowIn(env, t, s, r);
    env.lse[SlotRow(t, s, r)]
  }

  ghost function OutOf(env: Env, t: SplitNode, s: int, r: int): (row: Row)
    requires Ready(env, t) && 0 <= s < t.splitNum && 0 <= r < Rows(t)
    ensures |row| == env.headSizeV
  {
    SlotRowIn(env, t, s, r);
    env.out[SlotRow(t, s, r)]
  }

  /** The first n segments' log-sum-exps of flat row r, and their outputs in column d. */
  ghost function Lses(env: Env, t: SplitNode, r: int, n: int): (xs: seq<LogSum>)
    requires Ready(env, t) && 0 <= n <= t.splitNum && 0 <= r < Rows(t)
    ensures |xs| == n
    decreases n
  {
    if n == 0 then [] else Lses(env, t, r, n - 1) + [LseOf(env, t, n - 1, r)]
  }

  ghost function Outs(env: Env, t: SplitNode, r: int, d: int, n: int): (xs: seq<real>)
    requires Ready(env, t) && 0 <= n <= t.splitNum && 0 <= r < Rows(t) && 0 <= d < env.headSizeV
    ensures |xs| == n
    decreases n
  {
    if n == 0 then [] else Outs(env, t, r, d, n - 1) + [OutOf(env, t, n - 1, r)[d]]
  }

  lemma {:induction false} LsesAt(env: Env, t: SplitNode, r: int, n: int)
    requires Ready(env, t) && 0 <= n <= t.splitNum && 0 <= r < Rows(t)
    ensures forall s :: 0 <= s < n ==> Lses(env, t, r, n)[s] == LseOf(env, t, s, r) && NotBelow(LseOf(env, t, s, r), env.low)
    decreases n
  {
    hide Ready, Rows, LseOf;
    if n > 0 {
      LsesAt(env, t, r, n - 1);
      LseAbove(env, t, n - 1, r);
    }
  }

  lemma LseAbove(env: Env, t: SplitNode, s: int, r: int)
    requires Ready(env, t) && 0 <= s < t.splitNum && 0 <= r < Rows(t)
    ensures NotBelow(LseOf(env, t, s, r), env.low)
  {
    SlotRowIn(env, t, s, r);
  }

  /** Some segment has keys. */
  ghost predicate HasKeys(xs: seq<LogSum>) {
    exists s :: 0 <= s < |xs| && xs[s].Of?
  }

  lemma {:induction false} OutsAt(env: Env, t: SplitNode, r: int, d: int, n: int)
    requires Ready(env, t) && 0 <= n <= t.splitNum && 0 <= r < Rows(t) && 0 <= d < env.headSizeV
    ensures forall s :: 0 <= s < n ==> Outs(env, t, r, d, n)[s] == OutOf(env, t, s, r)[d]
    decreases n
  {
    hide Ready, Rows, OutOf;
    if n > 0 {
      OutsAt(env, t, r, d, n - 1);
    }
  }

  /** Log-sum-exps above padding with the lowest value. */
  function WithPadding(xs: seq<LogSum>, low: real, count: int): (col: seq<LogSum>)
    requires |xs| <= count
    ensures |col| == count
  {
    xs + seq(count - |xs|, _ => Of(low))
  }

  /** What the reductions over the padded buffer leave for a row. */
  function RowLse(exp: real -> real, ln: real -> real, xs: seq<LogSum>, low: real, count: int): real
    requires 0 < |xs| <= count
  {
    var m := Shift(MaxOf(WithPadding(xs, low, count)));
    ln(SumShifted(exp, xs, m)) + m
  }

  /** For a row with keys that is the merged log-sum-exp. */
  lemma RowLseIsMerged(exp: real -> real, ln: real -> real, xs: seq<LogSum>, low: real, count: int)
    requires 0 < |xs| <= count && AllAbove(xs, low) && HasKeys(xs)
    ensures RowLse(exp, ln, xs, low, count) == MergedLse(exp, ln, xs)
  {
    MaxPadded(xs, WithPadding(xs, low, count), low);
    hide MaxOf, SumShifted, AllAbove, HasKeys, WithPadding;
  }

  /** What is merged for flat row r: the log-sum-exp over its segments, if it has any key. */
  ghost function LseVal(env: Env, t: SplitNode, r: int): real
    requires Ready(env, t) && 0 <= r < Rows(t)
  {
    AlignCovers(t.splitNum);
    RowLse(env.exp, env.ln, Lses(env, t, r, t.splitNum), env.low, AlignTo8(t.splitNum))
  }

  /** The merged row: each column weighted by the distance of the segments' log-sum-exps to
      the merged one. */
  ghost function MergedRow(env: Env, t: SplitNode, r: int): (row: Row)
    requires Ready(env, t) && 0 <= r < Rows(t)
    ensures |row| == env.headSizeV
  {
    seq(env.headSizeV, d requires 0 <= d < env.headSizeV =>
      WeightedSum(env.exp, Lses(env, t, r, t.splitNum), Outs(env, t, r, d, t.splitNum), LseVal(env, t, r)))
  }

  /* Column reductions over padded buffers. */

  /** Every row of a buffer has `width` entries. */
  predicate Wide<T>(rows: seq<seq<T>>, width: int) {
    forall s :: 0 <= s < |rows| ==> |rows[s]| == width
  }

  function ColumnOf<T>(rows: seq<seq<T>>, width: int, f: int): (xs: seq<T>)
    requires Wide(rows, width) && 0 <= f < width
    ensures |xs| == |rows| && forall s :: 0 <= s < |rows| ==> xs[s] == rows[s][f]
  {
    seq(|rows|, s requires 0 <= s < |rows| => rows[s][f])
  }

  function SumOf(xs: seq<real>): real {
    if xs == [] then 0.0 else SumOf(xs[..|xs| - 1]) + xs[|xs| - 1]
  }

  ghost predicate AllAbove(xs: seq<LogSum>, low: real) {
    forall s :: 0 <= s < |xs| ==> NotBelow(xs[s], low)
  }

  /** Padding with a value that no finite one is below does not change the maximum. */
  lemma MaxPadded(xs: seq<LogSum>, padded: seq<LogSum>, low: real)
    requires 0 < |xs| <= |padded| && padded[..|xs|] == xs
    requires forall s :: |xs| <= s < |padded| ==> padded[s] == Of(low)
    requires AllAbove(xs, low) && HasKeys(xs)
    ensures MaxOf(padded) == MaxOf(xs)
  {
    var m, p := MaxOf(xs), MaxOf(padded);
    var i :| 0 <= i < |xs| && xs[i] == m;
    var j :| 0 <= j < |padded| && padded[j] == p;
    var k :| 0 <= k < |xs| && xs[k].Of?;
    assert padded[i] == xs[i] && AtMost(xs[k], m) && AtMost(padded[i], p);
    if j < |xs| {
      assert padded[j] == padded[..|xs|][j];
      assert AtMost(xs[j], m);
    }
    hide MaxOf;
  }

  /** Padding with zeros does not change the sum. */
  lemma {:induction false} SumPadded(exp: real -> real, xs: seq<LogSum>, shift: real, padded: seq<real>)
    requires |xs| <= |padded|
    requires forall s :: 0 <= s < |xs| ==> padded[s] == ExpFrom(exp, xs[s], shift)
    requires forall s :: |xs| <= s < |padded| ==> padded[s] == 0.0
    ensures SumOf(padded) == SumShifted(exp, xs, shift)
    decreases |padded|
  {
    if |padded| > 0 {
      var n := |padded| - 1;
      SumPadded(exp, if |xs| == |padded| then xs[..n] else xs, shift, padded[..n]);
    }
  }

  /** Copy `splitNum` blocks of `block` values, `srcStride` values apart, into a buffer of
      `count` rows of `width` entries that was filled with the lowest value. The entries that
      pad a copied row are left undetermined. */
  method LoadLse(lGm: seq<LogSum>, addr: int, splitNum: int, block: int, srcStride: int, count: int, width: int, low: real)
    returns (ll: seq<seq<LogSum>>)
    requires 0 <= splitNum <= count && 0 <= block <= width && 0 <= addr
    requires forall s :: 0 <= s < splitNum ==> BlockStart(addr, block, srcStride, s) >= 0
    requires forall s :: 0 <= s < splitNum ==> BlockStart(addr, block, srcStride, s) + block <= |lGm|
    ensures |ll| == count && Wide(ll, width)
    ensures forall s, f :: 0 <= s < splitNum && 0 <= f < block ==> ll[s][f] == lGm[BlockStart(addr, block, srcStride, s) + f]
    ensures forall s, f :: splitNum <= s < count && 0 <= f < width ==> ll[s][f] == Of(low)
  {
    ll := seq(count, _ => seq(width, _ => Of(low)));
    for n := 0 to splitNum
      invariant |ll| == count && Wide(ll, width)
      invariant forall s, f :: 0 <= s < n && 0 <= f < block ==> ll[s][f] == lGm[BlockStart(addr, block, srcStride, s) + f]
      invariant forall s, f :: splitNum <= s < count && 0 <= f < width ==> ll[s][f] == Of(low)
    {
      var start := BlockStart(addr, block, srcStride, n);
      assert |seq(width - block, _ => Nothing)| == width - block;
      var pad: seq<LogSum> :| |pad| == width - block;
      ll := ll[n := lGm[start..start + block] + pad];
    }
  }

  function BlockStart(addr: int, block: int, srcStride: int, s: int): int { addr + s * (block + srcStride) }

  /** Column maxima of all rows, padding included. */
  method ReduceMax(ll: seq<seq<LogSum>>, width: int) returns (lm: seq<LogSum>)
    requires Wide(ll, width) && |ll| > 0 && width >= 0
    ensures |lm| == width && forall f :: 0 <= f < width ==> lm[f] == MaxOf(ColumnOf(ll, width, f))
  {
    lm := [];
    for n := 0 to width
      invariant |lm| == n && forall f :: 0 <= f < n ==> lm[f] == MaxOf(ColumnOf(ll, width, f))
    {
      lm := lm + [MaxOf(ColumnOf(ll, width, n))];
    }
  }

  /** Column sums of all rows, padding included. */
  method ReduceSum(tl: seq<Row>, width: int) returns (rs: seq<real>)
    requires Wide(tl, width) && width >= 0
    ensures |rs| == width && forall f :: 0 <= f < width ==> rs[f] == SumOf(ColumnOf(tl, width, f))
  {
    rs := [];
    for n := 0 to width
      invariant |rs| == n && forall f :: 0 <= f < n ==> rs[f] == SumOf(ColumnOf(tl, width, f))
    {
      rs := rs + [SumOf(ColumnOf(tl, width, n))];
    }
  }

  /** Subtract a row, broadcast over the first `splitNum` rows, and exponentiate; the rows after
      those keep what `dst` held. */
  method SubExp(exp: real -> real, dst: seq<Row>, ll: seq<seq<LogSum>>, row: seq<real>, splitNum: int, width: int) returns (r: seq<Row>)
    requires Wide(ll, width) && Wide(dst, width) && |row| == width && 0 <= splitNum <= |ll| && splitNum <= |dst|
    ensures |r| == |dst| && Wide(r, width)
    ensures forall s, f :: 0 <= s < splitNum && 0 <= f < width ==> r[s][f] == ExpFrom(exp, ll[s][f], row[f])
    ensures forall s :: splitNum <= s < |dst| ==> r[s] == dst[s]
  {
    r := dst;
    for n := 0 to splitNum
      invariant |r| == |dst| && Wide(r, width)
      invariant forall s, f :: 0 <= s < n && 0 <= f < width ==> r[s][f] == ExpFrom(exp, ll[s][f], row[f])
      invariant forall s :: n <= s < |dst| ==> r[s] == dst[s]
    {
      r := r[n := seq(width, f requires 0 <= f < width => ExpFrom(exp, ll[n][f], row[f]))];
    }
  }

  /** A column that holds `xs` above padding with `low`. */
  ghost predicate Padded(col: seq<LogSum>, xs: seq<LogSum>, low: real) {
    |xs| <= |col| && col[..|xs|] == xs && forall s :: |xs| <= s < |col| ==> col[s] == Of(low)
  }

  lemma PaddedIs(col: seq<LogSum>, xs: seq<LogSum>, low: real)
    requires Padded(col, xs, low)
    ensures |xs| <= |col| && col == WithPadding(xs, low, |col|) && forall s :: 0 <= s < |xs| ==> col[s] == xs[s]
  {
    assert col == col[..|xs|] + col[|xs|..];
    forall s | 0 <= s < |xs|
      ensures col[s] == xs[s]
    {
      assert col[..|xs|][s] == xs[s];
    }
  }

  /** The merged log-sum-exp of a column, from the reductions over the padded buffers. */
  lemma ColumnMerged(exp: real -> real, ln: real -> real, col: seq<LogSum>, exps: seq<real>, xs: seq<LogSum>, low: real)
    requires Padded(col, xs, low) && 0 < |xs| && |exps| == |col|
    requires forall s :: 0 <= s < |xs| ==> exps[s] == ExpFrom(exp, col[s], Shift(MaxOf(col)))
    requires forall s :: |xs| <= s < |exps| ==> exps[s] == 0.0
    ensures |xs| <= |col| && ln(SumOf(exps)) + Shift(MaxOf(col)) == RowLse(exp, ln, xs, low, |col|)
  {
    PaddedIs(col, xs, low);
    hide *;
    SumPadded(exp, xs, Shift(MaxOf(col)), exps);
    RowLseIs(exp, ln, xs, low, |col|);
  }

  lemma RowLseIs(exp: real -> real, ln: real -> real, xs: seq<LogSum>, low: real, count: int)
    requires 0 < |xs| <= count
    ensures var m := Shift(MaxOf(WithPadding(xs, low, count))); RowLse(exp, ln, xs, low, count) == ln(SumShifted(exp, xs, m)) + m
  {
    hide MaxOf, SumShifted, WithPadding;
  }

  /** Column f of the loaded buffer holds the log-sum-exps `xs`. */
  ghost predicate LseColumn(ll: seq<seq<LogSum>>, width: int, f: int, xs: seq<LogSum>, splitNum: int, low: real)
    requires Wide(ll, width) && 0 <= f < width
  {
    |xs| == splitNum && Padded(ColumnOf(ll, width, f), xs, low)
  }

  /** The two reductions of one column. */
  ghost predicate Reduced(exp: real -> real, ln: real -> real, ll: seq<seq<LogSum>>, tl: seq<Row>, width: int, f: int, splitNum: int, t: real)
    requires Wide(ll, width) && Wide(tl, width) && 0 <= f < width && |ll| > 0
  {
    var m := Shift(MaxOf(ColumnOf(ll, width, f)));
    && |tl| == |ll|
    && (forall s :: 0 <= s < splitNum && s < |ll| ==> tl[s][f] == ExpFrom(exp, ll[s][f], m))
    && (forall s :: splitNum <= s < |tl| && s >= 0 ==> tl[s][f] == 0.0)
    && t == ln(SumOf(ColumnOf(tl, width, f))) + m
  }

  lemma ReducedMerged(exp: real -> real, ln: real -> real, ll: seq<seq<LogSum>>, tl: seq<Row>, width: int, f: int, splitNum: int, t: real,
                      xs: seq<LogSum>, low: real)
    requires Wide(ll, width) && Wide(tl, width) && 0 <= f < width && 0 < splitNum <= |ll|
    requires Reduced(exp, ln, ll, tl, width, f, splitNum, t) && LseColumn(ll, width, f, xs, splitNum, low)
    ensures 0 < |xs| <= |ll| && t == RowLse(exp, ln, xs, low, |ll|)
  {
    hide RowLse, MaxOf, SumOf, Padded, ExpFrom, Shift;
    ColumnMerged(exp, ln, ColumnOf(ll, width, f), ColumnOf(tl, width, f), xs, low);
  }

  /** The merged log-sum-exps of all columns, from the loaded buffer. */
  method MergeColumns(exp: real -> real, ln: real -> real, ll: seq<seq<LogSum>>, splitNum: int, width: int)
    returns (ts: seq<real>)
    requires Wide(ll, width) && 0 < splitNum <= |ll| && 0 <= width
    ensures |ts| == width
    ensures forall f, xs, low :: 0 <= f < width && LseColumn(ll, width, f, xs, splitNum, low) ==>
                                   0 < |xs| <= |ll| && ts[f] == RowLse(exp, ln, xs, low, |ll|)
  {
    hide RowLse, MaxOf, SumOf, LseColumn, ColumnOf, Shift, ExpFrom;
    var lm := ReduceMax(ll, width);
    var zeros := seq(|ll|, _ => seq(width, _ => 0.0));
    var shifts := seq(width, f requires 0 <= f < width => Shift(lm[f]));
    var tl := SubExp(exp, zeros, ll, shifts, splitNum, width);
    var rs := ReduceSum(tl, width);
    ts := seq(width, f requires 0 <= f < width => ln(rs[f]) + Shift(lm[f]));
    forall f | 0 <= f < width
      ensures Reduced(exp, ln, ll, tl, width, f, splitNum, ts[f])
    {
      assert shifts[f] == Shift(MaxOf(ColumnOf(ll, width, f)));
    }
    hide Reduced, Wide;
    forall f, xs, low | 0 <= f < width && LseColumn(ll, width, f, xs, splitNum, low)
      ensures 0 < |xs| <= |ll| && ts[f] == RowLse(exp, ln, xs, low, |ll|)
    {
      ReducedMerged(exp, ln, ll, tl, width, f, splitNum, ts[f], xs, low);
    }
  }
}
