/** Writing the merged log-sum-exps of a half task to the log-sum-exp output, whose layout is
    (batch, head, token) or, with packed sequences, (head, token). */
module CombineLse {
  import opened Arith
  import opened SplitRecords
  import opened CombineMath
  import opened CombineRows
  import opened CombineTiles
  import opened CombineMerge
  import opened CombineHalf
  import opened CombineCells

  /** Where the query tokens of a batch are: packed behind each other (`cu` are the prefix
      sums), or padded to `maxQ` tokens a batch. */
  datatype Layout = Layout(packed: bool, cu: seq<int>, maxQ: int, totalQ: int)

  predicate HasBatch(lay: Layout, t: SplitNode) { 0 <= t.batchIdx && (lay.packed ==> t.batchIdx < |lay.cu|) }

  /** Tokens before the batch of the split tile. */
  function PrevQ(lay: Layout, t: SplitNode): int
    requires HasBatch(lay, t)
  {
    if lay.packed then lay.cu[t.batchIdx] else t.batchIdx * lay.maxQ
  }

  function HeadStride(lay: Layout): int { if lay.packed then lay.totalQ else lay.maxQ }

  function QPos(lay: Layout, t: SplitNode): int
    requires HasBatch(lay, t)
  {
    if lay.packed then PrevQ(lay, t) + t.qStartIdx else t.qStartIdx
  }

  function BatchBase(lay: Layout, qHeads: int, t: SplitNode): int
    requires HasBatch(lay, t)
  {
    if lay.packed then 0 else PrevQ(lay, t) * qHeads
  }

  /** Address of flat row r: token fastest, then head, then batch. */
  function LseIndex(lay: Layout, qHeads: int, t: SplitNode, r: int): int
    requires HasBatch(lay, t) && NLen(t) >= 1
  {
    BatchBase(lay, qHeads, t) + (t.headStartIdx + r % NLen(t)) * HeadStride(lay) + QPos(lay, t) + r / NLen(t)
  }

  /** The tokens of the split tile are inside a head's stretch, and the whole output is long enough. */
  ghost predicate LseFits(lay: Layout, qHeads: int, t: SplitNode, len: int) {
    && HasBatch(lay, t) && 0 <= QPos(lay, t) && QPos(lay, t) + QLen(t) <= HeadStride(lay)
    && 0 <= BatchBase(lay, qHeads, t) && BatchBase(lay, qHeads, t) + qHeads * HeadStride(lay) <= len
  }

  lemma Digits(a: int, x: int, b: int, y: int, n: int)
    requires 0 <= x < n && 0 <= y < n && a * n + x == b * n + y
    ensures a == b && x == y
  {
    NextMultiple(a, n);
    NextMultiple(b, n);
    DivideBetween(a * n + x, n, a);
    DivideBetween(b * n + y, n, b);
  }

  lemma RowParts(t: SplitNode, qHeads: int, headSizeV: int, r: int)
    requires ValidTask(t, qHeads, headSizeV) && 0 <= r < Rows(t)
    ensures NLen(t) >= 1 && 0 <= r / NLen(t) < QLen(t) && 0 <= r % NLen(t) < NLen(t) && r == r / NLen(t) * NLen(t) + r % NLen(t)
  {
    QuotientBelow(r, NLen(t), QLen(t));
  }

  /** Every row has its own address, inside the output. */
  lemma LseIndexDiffers(lay: Layout, qHeads: int, headSizeV: int, t: SplitNode, len: int, r: int, r': int)
    requires ValidTask(t, qHeads, headSizeV) && LseFits(lay, qHeads, t, len) && 0 <= r < r' < Rows(t)
    ensures NLen(t) >= 1 && LseIndex(lay, qHeads, t, r) != LseIndex(lay, qHeads, t, r')
  {
    RowParts(t, qHeads, headSizeV, r);
    RowParts(t, qHeads, headSizeV, r');
    hide Rows, HeadStride, BatchBase, QPos, ValidTask;
    var n := NLen(t);
    if LseIndex(lay, qHeads, t, r) == LseIndex(lay, qHeads, t, r') {
      Digits(t.headStartIdx + r % n, QPos(lay, t) + r / n, t.headStartIdx + r' % n, QPos(lay, t) + r' / n, HeadStride(lay));
      assert false;
    }
  }

  lemma LseIndexIn(lay: Layout, qHeads: int, headSizeV: int, t: SplitNode, len: int, r: int)
    requires ValidTask(t, qHeads, headSizeV) && LseFits(lay, qHeads, t, len) && 0 <= r < Rows(t)
    ensures NLen(t) >= 1 && 0 <= LseIndex(lay, qHeads, t, r) < len
  {
    RowParts(t, qHeads, headSizeV, r);
    hide Rows, HeadStride, BatchBase, QPos;
    var head := t.headStartIdx + r % NLen(t);
    MulMono(head + 1, qHeads, HeadStride(lay));
    MulMono(0, head, HeadStride(lay));
    NextMultiple(head, HeadStride(lay));
  }

  /** The cells of flat rows lo, ..., hi - 1. */
  ghost function LseCells(lay: Layout, env: Env, t: SplitNode, lo: int, hi: int): iset<Cell<real>>
    requires Ready(env, t) && HasBatch(lay, t) && 0 <= lo <= hi <= Rows(t) && NLen(t) >= 1
  {
    iset r | lo <= r < hi :: Cell(LseIndex(lay, env.qHeads, t, r), LseVal(env, t, r))
  }

  lemma LseCellsNext(lay: Layout, env: Env, t: SplitNode, lo: int, hi: int, before: seq<real>, mid: seq<real>, after: seq<real>, v: real)
    requires Ready(env, t) && 0 <= lo <= hi < Rows(t) && NLen(t) >= 1
    requires LseFits(lay, env.qHeads, t, |mid|) && Stored(before, mid, LseCells(lay, env, t, lo, hi))
    requires v == LseVal(env, t, hi)
    requires var x := LseIndex(lay, env.qHeads, t, hi); 0 <= x < |mid| && after == mid[x := v]
    ensures Stored(before, after, LseCells(lay, env, t, lo, hi + 1))
  {
    var x := LseIndex(lay, env.qHeads, t, hi);
    var done, one := LseCells(lay, env, t, lo, hi), iset{Cell(x, v)};
    LseSeparate(lay, env, t, lo, hi, |mid|);
    LseCellsSplit(lay, env, t, lo, hi);
    hide *;
    StoredOne(mid, x, v);
    StoredBoth(before, mid, after, done, one);
  }

  lemma LseCellsSplit(lay: Layout, env: Env, t: SplitNode, lo: int, hi: int)
    requires Ready(env, t) && HasBatch(lay, t) && 0 <= lo <= hi < Rows(t) && NLen(t) >= 1
    ensures LseCells(lay, env, t, lo, hi + 1)
         == LseCells(lay, env, t, lo, hi) + iset{Cell(LseIndex(lay, env.qHeads, t, hi), LseVal(env, t, hi))}
  {
    hide Ready, Rows, NLen, LseIndex, LseVal;
  }

  lemma LseSeparate(lay: Layout, env: Env, t: SplitNode, lo: int, hi: int, len: int)
    requires Ready(env, t) && 0 <= lo <= hi < Rows(t) && NLen(t) >= 1 && LseFits(lay, env.qHeads, t, len)
    ensures Separate(LseCells(lay, env, t, lo, hi), iset{Cell(LseIndex(lay, env.qHeads, t, hi), LseVal(env, t, hi))})
  {
    assert ValidTask(t, env.qHeads, env.headSizeV);
    hide ValidTask, Rows, LseIndex, LseVal;
    forall r | lo <= r < hi
      ensures LseIndex(lay, env.qHeads, t, r) != LseIndex(lay, env.qHeads, t, hi)
    {
      LseIndexDiffers(lay, env.qHeads, env.headSizeV, t, len, r, hi);
    }
  }

  /** Base address of a half, as the program computes it. */
  function LseBase(lay: Layout, qHeads: int, t: SplitNode, half: int): int
    requires HasBatch(lay, t)
  {
    var headBase := if QLen(t) == 1 && half != 0 then t.headStartIdx + SumFormer(t) else t.headStartIdx;
    var qPos := if QLen(t) != 1 && half != 0 then QPos(lay, t) + QLen(t) / 2 else QPos(lay, t);
    BatchBase(lay, qHeads, t) + headBase * HeadStride(lay) + qPos
  }

  lemma SingleLseIndex(lay: Layout, qHeads: int, headSizeV: int, t: SplitNode, half: int, i: int)
    requires ValidTask(t, qHeads, headSizeV) && HasBatch(lay, t) && QLen(t) == 1 && (half == 0 || half == 1)
    requires 0 <= i < HalfRows(t, half)
    ensures NLen(t) >= 1
    ensures LseIndex(lay, qHeads, t, HalfStart(t, half) + i) == LseBase(lay, qHeads, t, half) + i * HeadStride(lay)
  {
    RowsPositive(t, qHeads, headSizeV);
    assert Rows(t) == NLen(t);
    Remainder(HalfStart(t, half) + i, NLen(t));
    hide Rows, SumFormer, HeadStride, BatchBase, QPos;
    AddMultiples(t.headStartIdx + HalfStart(t, half), i, HeadStride(lay));
  }

  lemma ManyLseIndex(lay: Layout, qHeads: int, headSizeV: int, t: SplitNode, half: int, qi: int, i: int)
    requires ValidTask(t, qHeads, headSizeV) && HasBatch(lay, t) && QLen(t) > 1 && (half == 0 || half == 1)
    requires NLen(t) >= 1 && 0 <= qi && 0 <= i < NLen(t)
    ensures LseIndex(lay, qHeads, t, HalfStart(t, half) + qi * NLen(t) + i)
         == LseBase(lay, qHeads, t, half) + qi + i * HeadStride(lay)
  {
    HalfAligned(t, qHeads, headSizeV, half);
    hide SumFormer, HeadStride, BatchBase, QPos, HalfStart;
    var n, hs := NLen(t), HalfStart(t, half);
    var k := hs / n;
    assert hs == k * n;
    AddMultiples(k, qi, n);
    NextMultiple(k + qi, n);
    DivideBetween(hs + qi * n + i, n, k + qi);
    AddMultiples(t.headStartIdx, i, HeadStride(lay));
  }

  lemma ReadyTask(env: Env, t: SplitNode)
    requires Ready(env, t)
    ensures ValidTask(t, env.qHeads, env.headSizeV)
  {
  }

  /** Store the value of the next row. */
  method StoreLse(ghost lay: Layout, ghost env: Env, ghost t: SplitNode, lseOut: array<real>, at: int, v: real,
                  ghost before: seq<real>, ghost lo: int, ghost hi: int)
    requires Ready(env, t) && 0 <= lo <= hi < Rows(t) && NLen(t) >= 1 && LseFits(lay, env.qHeads, t, lseOut.Length)
    requires Stored(before, lseOut[..], LseCells(lay, env, t, lo, hi))
    requires at == LseIndex(lay, env.qHeads, t, hi) && v == LseVal(env, t, hi)
    modifies lseOut
    ensures Stored(before, lseOut[..], LseCells(lay, env, t, lo, hi + 1))
  {
    hide *;
    ReadyTask(env, t);
    LseIndexIn(lay, env.qHeads, env.headSizeV, t, lseOut.Length, hi);
    ghost var mid := lseOut[..];
    lseOut[at] := v;
    assert lseOut[..] == mid[at := v];
    LseCellsNext(lay, env, t, lo, hi, before, mid, lseOut[..], v);
  }

  lemma NoLseCells(lay: Layout, env: Env, t: SplitNode, lo: int, before: seq<real>)
    requires Ready(env, t) && HasBatch(lay, t) && 0 <= lo <= Rows(t) && NLen(t) >= 1
    ensures Stored(before, before, LseCells(lay, env, t, lo, lo))
  {
    assert LseCells(lay, env, t, lo, lo) == iset{};
    StoredNothing(before);
  }

  /** The merged values of a half are in `ts`. */
  ghost predicate HoldsLse(env: Env, t: SplitNode, half: int, ts: seq<real>) {
    && Ready(env, t) && (half == 0 || half == 1) && 0 <= HalfStart(t, half) && 0 <= HalfRows(t, half)
    && HalfStart(t, half) + HalfRows(t, half) <= Rows(t) && HalfRows(t, half) <= |ts| && NLen(t) >= 1
    && forall f :: 0 <= f < HalfRows(t, half) ==> ts[f] == LseVal(env, t, HalfStart(t, half) + f)
  }

  /** One query row: heads are a stride apart. */
  method WriteLseSingle(lay: Layout, env: Env, t: SplitNode, half: int, ts: seq<real>, lseOut: array<real>)
    requires HoldsLse(env, t, half, ts) && LseFits(lay, env.qHeads, t, lseOut.Length) && QLen(t) == 1
    requires Ready(env, t) && HasBatch(lay, t) && NLen(t) >= 1
    requires 0 <= HalfStart(t, half) <= HalfStart(t, half) + HalfRows(t, half) <= Rows(t)
    modifies lseOut
    ensures Stored(old(lseOut[..]), lseOut[..], LseCells(lay, env, t, HalfStart(t, half), HalfStart(t, half) + HalfRows(t, half)))
  {
    hide *;
    HoldsLseIn(env, t, half, ts);
    var base, stride, lseBlock := LseBase(lay, env.qHeads, t, half), HeadStride(lay), HalfRows(t, half);
    ghost var hs := HalfStart(t, half);
    NoLseCells(lay, env, t, hs, lseOut[..]);
    for i := 0 to lseBlock
      invariant Stored(old(lseOut[..]), lseOut[..], LseCells(lay, env, t, hs, hs + i))
    {
      SingleLseIndex(lay, env.qHeads, env.headSizeV, t, half, i);
      HeldValue(env, t, half, ts, i);
      StoreLse(lay, env, t, lseOut, base + i * stride, ts[i], old(lseOut[..]), hs, hs + i);
    }
  }

  /** One strided copy per query row. */
  method WriteLseMany(lay: Layout, env: Env, t: SplitNode, half: int, ts: seq<real>, lseOut: array<real>)
    requires HoldsLse(env, t, half, ts) && LseFits(lay, env.qHeads, t, lseOut.Length) && QLen(t) > 1
    requires Ready(env, t) && HasBatch(lay, t) && NLen(t) >= 1
    requires 0 <= HalfStart(t, half) <= HalfStart(t, half) + HalfRows(t, half) <= Rows(t)
    modifies lseOut
    ensures Stored(old(lseOut[..]), lseOut[..], LseCells(lay, env, t, HalfStart(t, half), HalfStart(t, half) + HalfRows(t, half)))
  {
    hide *;
    HoldsLseIn(env, t, half, ts);
    HalfWhole(env, t, half);
    var n, lseBlock := NLen(t), HalfRows(t, half);
    var qTile := lseBlock / n;
    ghost var hs := HalfStart(t, half);
    NoLseCells(lay, env, t, hs, lseOut[..]);
    ghost var first := 0;
    for qi := 0 to qTile
      invariant first == qi * n && 0 <= first <= lseBlock
      invariant Stored(old(lseOut[..]), lseOut[..], LseCells(lay, env, t, hs, hs + first))
    {
      NextMultiple(qi, n);
      MulMono(qi + 1, qTile, n);
      WriteLseQuery(lay, env, t, half, ts, lseOut, qi, first, old(lseOut[..]));
      first := first + n;
    }
  }

  lemma HalfWhole(env: Env, t: SplitNode, half: int)
    requires Ready(env, t) && QLen(t) > 1 && (half == 0 || half == 1)
    ensures NLen(t) >= 1 && HalfRows(t, half) / NLen(t) * NLen(t) == HalfRows(t, half)
  {
    var n, q := NLen(t), if half == 0 then QLen(t) / 2 else QLen(t) - QLen(t) / 2;
    assert HalfRows(t, half) == q * n;
    NextMultiple(q, n);
    DivideBetween(q * n, n, q);
  }

  lemma HoldsLseIn(env: Env, t: SplitNode, half: int, ts: seq<real>)
    requires HoldsLse(env, t, half, ts)
    ensures Ready(env, t) && 0 <= HalfStart(t, half) && HalfStart(t, half) + HalfRows(t, half) <= Rows(t) && NLen(t) >= 1
    ensures 0 <= HalfRows(t, half) <= |ts|
    ensures ValidTask(t, env.qHeads, env.headSizeV) && (half == 0 || half == 1)
  {
  }

  lemma HasBatchOf(lay: Layout, env: Env, t: SplitNode, len: int)
    requires LseFits(lay, env.qHeads, t, len)
    ensures HasBatch(lay, t)
  {
  }

  lemma HeldValue(env: Env, t: SplitNode, half: int, ts: seq<real>, f: int)
    requires HoldsLse(env, t, half, ts) && 0 <= f < HalfRows(t, half)
    ensures ts[f] == LseVal(env, t, HalfStart(t, half) + f)
  {
    hide LseVal, HalfRows, HalfStart, Ready, Rows;
  }

  method WriteLseQuery(lay: Layout, env: Env, t: SplitNode, half: int, ts: seq<real>, lseOut: array<real>, qi: int,
                       ghost first: int, ghost before: seq<real>)
    requires HoldsLse(env, t, half, ts) && LseFits(lay, env.qHeads, t, lseOut.Length) && QLen(t) > 1
    requires Ready(env, t) && HasBatch(lay, t) && NLen(t) >= 1
    requires 0 <= HalfStart(t, half) <= HalfStart(t, half) + HalfRows(t, half) <= Rows(t)
    requires 0 <= qi && first == qi * NLen(t) && 0 <= first && first + NLen(t) <= HalfRows(t, half)
    requires Stored(before, lseOut[..], LseCells(lay, env, t, HalfStart(t, half), HalfStart(t, half) + first))
    modifies lseOut
    ensures Stored(before, lseOut[..], LseCells(lay, env, t, HalfStart(t, half), HalfStart(t, half) + first + NLen(t)))
  {
    hide *;
    HoldsLseIn(env, t, half, ts);
    var base, stride, n := LseBase(lay, env.qHeads, t, half), HeadStride(lay), NLen(t);
    ghost var hs := HalfStart(t, half);
    for i := 0 to n
      invariant Stored(before, lseOut[..], LseCells(lay, env, t, hs, hs + first + i))
    {
      ManyLseIndex(lay, env.qHeads, env.headSizeV, t, half, qi, i);
      HeldValue(env, t, half, ts, first + i);
      StoreLse(lay, env, t, lseOut, base + qi + i * stride, ts[qi * n + i], before, hs, hs + first + i);
    }
  }

  lemma QLenPositive(t: SplitNode, qHeads: int, headSizeV: int)
    requires ValidTask(t, qHeads, headSizeV)
    ensures QLen(t) >= 1
  {
  }

  /** The log-sum-exps of a half: each at its address, everything else unchanged. */
  method WriteLse(lay: Layout, env: Env, t: SplitNode, half: int, ts: seq<real>, lseOut: array<real>)
    requires HoldsLse(env, t, half, ts) && LseFits(lay, env.qHeads, t, lseOut.Length)
    modifies lseOut
    ensures Stored(old(lseOut[..]), lseOut[..], LseCells(lay, env, t, HalfStart(t, half), HalfStart(t, half) + HalfRows(t, half)))
  {
    hide *;
    HoldsLseIn(env, t, half, ts);
    HasBatchOf(lay, env, t, lseOut.Length);
    assert QLen(t) >= 1 by { QLenPositive(t, env.qHeads, env.headSizeV); }
    if QLen(t) == 1 {
      WriteLseSingle(lay, env, t, half, ts, lseOut);
    } else {
      WriteLseMany(lay, env, t, half, ts, lseOut);
    }
  }
}
