/** The whole combine step: the strided process loops of all vector sub-blocks. The sub-blocks
    store to separate addresses, so the order in which they run does not matter; here they
    run one after the other. */
module CombineRun {
  import opened Arith
  import opened SplitRecords
  import opened CombineMath
  import opened CombineRows
  import opened CombineMerge
  import opened CombineHalf
  import opened CombineCells
  import opened CombineLse
  import opened CombineScale

  ghost predicate AllPlaced(env: Env, lay: Layout, tasks: seq<SplitNode>, outLen: int, lseLen: int) {
    forall k :: 0 <= k < |tasks| ==> Placed(env, lay, tasks[k], outLen, lseLen)
  }

  /** Different tasks have different output rows, and different log-sum-exp addresses. */
  ghost predicate RowsApart(env: Env, lay: Layout, t: SplitNode, u: SplitNode)
    requires NLen(t) >= 1 && NLen(u) >= 1 && HasBatch(lay, t) && HasBatch(lay, u)
  {
    forall r, s :: 0 <= r < Rows(t) && 0 <= s < Rows(u) ==>
                     RowIndex(t, env.qHeads, PrevQ(lay, t), r) != RowIndex(u, env.qHeads, PrevQ(lay, u), s)
  }

  ghost predicate LsesApart(env: Env, lay: Layout, t: SplitNode, u: SplitNode)
    requires NLen(t) >= 1 && NLen(u) >= 1 && HasBatch(lay, t) && HasBatch(lay, u)
  {
    forall r, s :: 0 <= r < Rows(t) && 0 <= s < Rows(u) ==>
                     LseIndex(lay, env.qHeads, t, r) != LseIndex(lay, env.qHeads, u, s)
  }

  ghost predicate TasksApart(env: Env, lay: Layout, tasks: seq<SplitNode>, outLen: int, lseLen: int)
    requires AllPlaced(env, lay, tasks, outLen, lseLen)
  {
    forall i, j :: 0 <= i < |tasks| && 0 <= j < |tasks| && i != j ==>
                     RowsApart(env, lay, tasks[i], tasks[j]) && LsesApart(env, lay, tasks[i], tasks[j])
  }

  /** Process p is half p % 2 of task p / 2; f and g give its cells in the two outputs. */
  ghost predicate AreSteps(env: Env, lay: Layout, tasks: seq<SplitNode>, outputLse: bool,
                           f: int -> iset<Cell<Row>>, g: int -> iset<Cell<real>>, outLen: int, lseLen: int)
    requires AllPlaced(env, lay, tasks, outLen, lseLen)
  {
    forall p :: 0 <= p < 2 * |tasks| ==>
                  && f(p) == HalfRowCells(env, lay, tasks[p / 2], p % 2)
                  && g(p) == if outputLse then HalfLseCells(env, lay, tasks[p / 2], p % 2) else iset{}
  }

  /** The processes below n of one sub-block, or of all sub-blocks below it. */
  function Mine(id: int, num: int, n: int): set<int>
    requires num > 0
  {
    set p | 0 <= p < n && p % num == id
  }

  function UpTo(id: int, num: int, n: int): set<int>
    requires num > 0
  {
    set p | 0 <= p < n && p % num < id
  }

  lemma MineStep(id: int, num: int, k: int, p: int)
    requires num > 0 && 0 <= id < num && k >= 0 && p == id + k * num
    ensures p % num == id && p !in Mine(id, num, p) && p >= 0
    ensures Mine(id, num, p + num) == Mine(id, num, p) + {p}
  {
    MulMono(0, k, num);
    NextMultiple(k, num);
    DivideBetween(p, num, k);
    forall q | p < q < p + num
      ensures q % num != id
    {
      NextMultiple(k + 1, num);
      if q < p - id + num { DivideBetween(q, num, k); } else { DivideBetween(q, num, k + 1); }
    }
  }

  lemma MineEnds(id: int, num: int, k: int, p: int, n: int)
    requires num > 0 && 0 <= id < num && k >= 0 && p == id + k * num && n <= p && (k == 0 || p - num < n)
    ensures Mine(id, num, p) == Mine(id, num, n)
  {
    if k > 0 {
      NextMultiple(k - 1, num);
      MineStep(id, num, k - 1, p - num);
      assert Mine(id, num, p) == Mine(id, num, p - num) + {p - num};
      assert p - num in Mine(id, num, n);
    } else {
      forall q | n <= q < p && q >= 0
        ensures q % num != id
      {
        DivideBetween(q, num, 0);
      }
    }
  }

  lemma UpToStep(id: int, num: int, n: int)
    requires num > 0
    ensures UpTo(id + 1, num, n) == UpTo(id, num, n) + Mine(id, num, n)
    ensures UpTo(id, num, n) !! Mine(id, num, n)
    ensures UpTo(0, num, n) == {}
  {
  }

  lemma UpToAll(num: int, n: int)
    requires num > 0
    ensures forall p :: p in UpTo(num, num, n) <==> 0 <= p < n
  {
  }

  /* The loops. */

  lemma StepOf(env: Env, lay: Layout, tasks: seq<SplitNode>, outputLse: bool, f: int -> iset<Cell<Row>>, g: int -> iset<Cell<real>>,
               outLen: int, lseLen: int, p: int)
    requires AllPlaced(env, lay, tasks, outLen, lseLen) && AreSteps(env, lay, tasks, outputLse, f, g, outLen, lseLen)
    requires 0 <= p < 2 * |tasks|
    ensures 0 <= p / 2 < |tasks| && (p % 2 == 0 || p % 2 == 1)
    ensures Placed(env, lay, tasks[p / 2], outLen, lseLen)
    ensures Ready(env, tasks[p / 2]) && HasBatch(lay, tasks[p / 2]) && NLen(tasks[p / 2]) >= 1
    ensures f(p) == HalfRowCells(env, lay, tasks[p / 2], p % 2)
    ensures g(p) == if outputLse then HalfLseCells(env, lay, tasks[p / 2], p % 2) else iset{}
  {
    hide Ready, HalfRowCells, HalfLseCells, NLen, Rows, Fits;
  }

  lemma Parity(p: int, num: int, id: int)
    requires num % 2 == 0 && p % 2 == id % 2
    ensures (p + num) % 2 == id % 2
  {
  }

  /** One vector sub-block: every `subBlockNum`-th half task, starting with its own number. */
  method RunSubBlock(env: Env, lay: Layout, tasks: seq<SplitNode>, subBlockID: int, subBlockNum: int, outputLse: bool,
                     oGm: array<Row>, lseOut: array<real>, ghost f: int -> iset<Cell<Row>>, ghost g: int -> iset<Cell<real>>)
    requires subBlockNum > 0 && subBlockNum % 2 == 0 && 0 <= subBlockID < subBlockNum
    requires AllPlaced(env, lay, tasks, oGm.Length, lseOut.Length)
    requires AreSteps(env, lay, tasks, outputLse, f, g, oGm.Length, lseOut.Length)
    requires AllSeparate(f, 2 * |tasks|) && AllSeparate(g, 2 * |tasks|)
    modifies oGm, lseOut
    ensures Stored(old(oGm[..]), oGm[..], UnionOf(f, Mine(subBlockID, subBlockNum, 2 * |tasks|)))
    ensures Stored(old(lseOut[..]), lseOut[..], UnionOf(g, Mine(subBlockID, subBlockNum, 2 * |tasks|)))
  {
    hide *;
    var half := subBlockID % 2;
    var process := subBlockID;
    ghost var k := 0;
    MineNone(subBlockID, subBlockNum);
    UnionNone(f);
    UnionNone(g);
    StoredNothing(oGm[..]);
    StoredNothing(lseOut[..]);
    while process < 2 * |tasks|
      invariant k >= 0 && process == subBlockID + k * subBlockNum && process % 2 == half && process >= 0
      invariant k == 0 || process - subBlockNum < 2 * |tasks|
      invariant Stored(old(oGm[..]), oGm[..], UnionOf(f, Mine(subBlockID, subBlockNum, process)))
      invariant Stored(old(lseOut[..]), lseOut[..], UnionOf(g, Mine(subBlockID, subBlockNum, process)))
      decreases 2 * |tasks| - process
    {
      StepOf(env, lay, tasks, outputLse, f, g, oGm.Length, lseOut.Length, process);
      ghost var midO, midL := oGm[..], lseOut[..];
      CombineProcess(env, lay, tasks[process / 2], half, outputLse, oGm, lseOut);
      MineStep(subBlockID, subBlockNum, k, process);
      MineBelow(subBlockID, subBlockNum, process, 2 * |tasks|);
      StoredStep(f, 2 * |tasks|, Mine(subBlockID, subBlockNum, process), process, old(oGm[..]), midO, oGm[..]);
      StoredStep(g, 2 * |tasks|, Mine(subBlockID, subBlockNum, process), process, old(lseOut[..]), midL, lseOut[..]);
      Parity(process, subBlockNum, subBlockID);
      NextMultiple(k, subBlockNum);
      process := process + subBlockNum;
      k := k + 1;
    }
    MineEnds(subBlockID, subBlockNum, k, process, 2 * |tasks|);
  }

  lemma MineNone(id: int, num: int)
    requires 0 <= id < num
    ensures Mine(id, num, id) == {}
  {
    forall p | 0 <= p < id
      ensures p % num != id
    {
      DivideBetween(p, num, 0);
    }
  }

  lemma MineBelow(id: int, num: int, p: int, n: int)
    requires num > 0 && p <= n
    ensures forall q :: q in Mine(id, num, p) ==> 0 <= q < n
  {
  }

  /** Stores of two sets of steps that have no step in common. */
  lemma {:induction false} StoredSteps<T(!new)>(f: int -> iset<Cell<T>>, n: int, a: set<int>, b: set<int>, before: seq<T>, mid: seq<T>, after: seq<T>)
    requires AllSeparate(f, n) && (forall q :: q in a || q in b ==> 0 <= q < n) && a !! b
    requires Stored(before, mid, UnionOf(f, a)) && Stored(mid, after, UnionOf(f, b))
    ensures Stored(before, after, UnionOf(f, a + b))
  {
    forall c, d | c in UnionOf(f, a) && d in UnionOf(f, b)
      ensures c.at != d.at
    {
      var p :| p in a && c in f(p);
      var q :| q in b && d in f(q);
      assert Separate(f(p), f(q));
    }
    UnionsAdd(f, a, b);
    hide UnionOf, Stored, AllSeparate;
    StoredBoth(before, mid, after, UnionOf(f, a), UnionOf(f, b));
  }

  lemma UnionsAdd<T(!new)>(f: int -> iset<Cell<T>>, a: set<int>, b: set<int>)
    ensures UnionOf(f, a + b) == UnionOf(f, a) + UnionOf(f, b)
  {
    forall c
      ensures c in UnionOf(f, a + b) <==> c in UnionOf(f, a) + UnionOf(f, b)
    {
      if c in UnionOf(f, a) {
        var p :| p in a && c in f(p);
        assert p in a + b;
      }
      if c in UnionOf(f, b) {
        var p :| p in b && c in f(p);
        assert p in a + b;
      }
    }
  }

  /** All sub-blocks. */
  method RunSubBlocks(env: Env, lay: Layout, tasks: seq<SplitNode>, subBlockNum: int, outputLse: bool,
                      oGm: array<Row>, lseOut: array<real>, ghost f: int -> iset<Cell<Row>>, ghost g: int -> iset<Cell<real>>)
    requires subBlockNum > 0 && subBlockNum % 2 == 0
    requires AllPlaced(env, lay, tasks, oGm.Length, lseOut.Length)
    requires AreSteps(env, lay, tasks, outputLse, f, g, oGm.Length, lseOut.Length)
    requires AllSeparate(f, 2 * |tasks|) && AllSeparate(g, 2 * |tasks|)
    modifies oGm, lseOut
    ensures Stored(old(oGm[..]), oGm[..], UnionOf(f, UpTo(subBlockNum, subBlockNum, 2 * |tasks|)))
    ensures Stored(old(lseOut[..]), lseOut[..], UnionOf(g, UpTo(subBlockNum, subBlockNum, 2 * |tasks|)))
  {
    hide *;
    ghost var n := 2 * |tasks|;
    UpToStep(0, subBlockNum, n);
    UnionNone(f);
    UnionNone(g);
    StoredNothing(oGm[..]);
    StoredNothing(lseOut[..]);
    for id := 0 to subBlockNum
      invariant Stored(old(oGm[..]), oGm[..], UnionOf(f, UpTo(id, subBlockNum, n)))
      invariant Stored(old(lseOut[..]), lseOut[..], UnionOf(g, UpTo(id, subBlockNum, n)))
    {
      ghost var midO, midL := oGm[..], lseOut[..];
      RunSubBlock(env, lay, tasks, id, subBlockNum, outputLse, oGm, lseOut, f, g);
      UpToStep(id, subBlockNum, n);
      UpToBelow(id, subBlockNum, n);
      StoredSteps(f, n, UpTo(id, subBlockNum, n), Mine(id, subBlockNum, n), old(oGm[..]), midO, oGm[..]);
      StoredSteps(g, n, UpTo(id, subBlockNum, n), Mine(id, subBlockNum, n), old(lseOut[..]), midL, lseOut[..]);
    }
  }

  lemma UpToBelow(id: int, num: int, n: int)
    requires num > 0
    ensures forall q :: q in UpTo(id, num, n) || q in Mine(id, num, n) ==> 0 <= q < n
  {
  }

  /* All tasks. */

  /** Every row of every task, merged, at its output row. */
  ghost function AllRowCells(env: Env, lay: Layout, tasks: seq<SplitNode>, outLen: int, lseLen: int): iset<Cell<Row>>
    requires AllPlaced(env, lay, tasks, outLen, lseLen)
  {
    iset k, r | 0 <= k < |tasks| && 0 <= r < Rows(tasks[k]) ::
      Cell(RowIndex(tasks[k], env.qHeads, PrevQ(lay, tasks[k]), r), MergedRow(env, tasks[k], r))
  }

  /** ... and its merged log-sum-exp at its address. */
  ghost function AllLseCells(env: Env, lay: Layout, tasks: seq<SplitNode>, outLen: int, lseLen: int): iset<Cell<real>>
    requires AllPlaced(env, lay, tasks, outLen, lseLen)
  {
    iset k, r | 0 <= k < |tasks| && 0 <= r < Rows(tasks[k]) ::
      Cell(LseIndex(lay, env.qHeads, tasks[k], r), LseVal(env, tasks[k], r))
  }

  /** The two halves of a task cover its rows. */
  lemma HalvesCover(t: SplitNode, qHeads: int, headSizeV: int, r: int) returns (half: int)
    requires ValidTask(t, qHeads, headSizeV) && 0 <= r < Rows(t)
    ensures (half == 0 || half == 1) && HalfStart(t, half) <= r < HalfStart(t, half) + HalfRows(t, half)
  {
    half := if r < SumFormer(t) then 0 else 1;
  }

  lemma RowInHalf(env: Env, lay: Layout, t: SplitNode, half: int, r: int)
    requires Ready(env, t) && HasBatch(lay, t) && NLen(t) >= 1 && (half == 0 || half == 1)
    requires 0 <= r < Rows(t) && HalfStart(t, half) <= r < HalfStart(t, half) + HalfRows(t, half)
    ensures Cell(RowIndex(t, env.qHeads, PrevQ(lay, t), r), MergedRow(env, t, r)) in HalfRowCells(env, lay, t, half)
    ensures Cell(LseIndex(lay, env.qHeads, t, r), LseVal(env, t, r)) in HalfLseCells(env, lay, t, half)
  {
    hide Ready, Rows, HalfStart, HalfRows, RowIndex, MergedRow, LseIndex, LseVal, NLen, PrevQ;
  }

  lemma HalfRowIs(env: Env, lay: Layout, t: SplitNode, half: int, c: Cell<Row>) returns (r: int)
    requires Ready(env, t) && HasBatch(lay, t) && NLen(t) >= 1 && (half == 0 || half == 1)
    requires c in HalfRowCells(env, lay, t, half)
    ensures 0 <= HalfStart(t, half) <= r < HalfStart(t, half) + HalfRows(t, half) <= Rows(t)
    ensures c == Cell(RowIndex(t, env.qHeads, PrevQ(lay, t), r), MergedRow(env, t, r))
  {
    HalfIn(env, t, half);
    hide Ready, Rows, HalfStart, HalfRows, RowIndex, MergedRow, NLen, PrevQ;
    r :| HalfStart(t, half) <= r < HalfStart(t, half) + HalfRows(t, half)
         && c == Cell(RowIndex(t, env.qHeads, PrevQ(lay, t), r), MergedRow(env, t, r));
  }

  lemma HalfLseIs(env: Env, lay: Layout, t: SplitNode, half: int, c: Cell<real>) returns (r: int)
    requires Ready(env, t) && HasBatch(lay, t) && NLen(t) >= 1 && (half == 0 || half == 1)
    requires c in HalfLseCells(env, lay, t, half)
    ensures 0 <= HalfStart(t, half) <= r < HalfStart(t, half) + HalfRows(t, half) <= Rows(t)
    ensures c == Cell(LseIndex(lay, env.qHeads, t, r), LseVal(env, t, r))
  {
    HalfIn(env, t, half);
    hide Ready, Rows, HalfStart, HalfRows, LseIndex, LseVal, NLen;
    r :| HalfStart(t, half) <= r < HalfStart(t, half) + HalfRows(t, half)
         && c == Cell(LseIndex(lay, env.qHeads, t, r), LseVal(env, t, r));
  }

  /** The halves of one task have no row in common, and rows have their own addresses. */
  lemma HalvesApart(env: Env, lay: Layout, t: SplitNode, outLen: int, lseLen: int, r: int, s: int)
    requires Placed(env, lay, t, outLen, lseLen) && 0 <= r < Rows(t) && 0 <= s < Rows(t) && r != s
    ensures Ready(env, t) && HasBatch(lay, t) && NLen(t) >= 1
    ensures RowIndex(t, env.qHeads, PrevQ(lay, t), r) != RowIndex(t, env.qHeads, PrevQ(lay, t), s)
    ensures LseIndex(lay, env.qHeads, t, r) != LseIndex(lay, env.qHeads, t, s)
  {
    PlacedIn(env, lay, t, outLen, lseLen);
    assert ValidTask(t, env.qHeads, env.headSizeV);
    hide *;
    var a, b := if r < s then r else s, if r < s then s else r;
    RowIndexAscends(t, env.qHeads, PrevQ(lay, t), env.headSizeV, a, b);
    LseIndexDiffers(lay, env.qHeads, env.headSizeV, t, lseLen, a, b);
  }

  lemma HalvesDisjoint(t: SplitNode, half: int, half': int, r: int, s: int)
    requires (half == 0 || half == 1) && half' == 1 - half
    requires HalfStart(t, half) <= r < HalfStart(t, half) + HalfRows(t, half)
    requires HalfStart(t, half') <= s < HalfStart(t, half') + HalfRows(t, half')
    ensures r != s
  {
  }

  lemma ApartAt(env: Env, lay: Layout, tasks: seq<SplitNode>, outLen: int, lseLen: int, i: int, j: int, r: int, s: int)
    requires AllPlaced(env, lay, tasks, outLen, lseLen) && TasksApart(env, lay, tasks, outLen, lseLen)
    requires 0 <= i < |tasks| && 0 <= j < |tasks| && i != j && 0 <= r < Rows(tasks[i]) && 0 <= s < Rows(tasks[j])
    requires NLen(tasks[i]) >= 1 && NLen(tasks[j]) >= 1 && HasBatch(lay, tasks[i]) && HasBatch(lay, tasks[j])
    ensures RowIndex(tasks[i], env.qHeads, PrevQ(lay, tasks[i]), r) != RowIndex(tasks[j], env.qHeads, PrevQ(lay, tasks[j]), s)
    ensures LseIndex(lay, env.qHeads, tasks[i], r) != LseIndex(lay, env.qHeads, tasks[j], s)
  {
    assert RowsApart(env, lay, tasks[i], tasks[j]) && LsesApart(env, lay, tasks[i], tasks[j]);
    hide AllPlaced, RowIndex, LseIndex, Rows, PrevQ;
  }

  /** Rows of different half tasks have different addresses. */
  lemma StepsDiffer(env: Env, lay: Layout, tasks: seq<SplitNode>, outLen: int, lseLen: int, p: int, q: int, r: int, s: int)
    requires AllPlaced(env, lay, tasks, outLen, lseLen) && TasksApart(env, lay, tasks, outLen, lseLen)
    requires 0 <= p < 2 * |tasks| && 0 <= q < 2 * |tasks| && p != q
    requires var t, u := tasks[p / 2], tasks[q / 2];
             && 0 <= r < Rows(t) && HalfStart(t, p % 2) <= r < HalfStart(t, p % 2) + HalfRows(t, p % 2)
             && 0 <= s < Rows(u) && HalfStart(u, q % 2) <= s < HalfStart(u, q % 2) + HalfRows(u, q % 2)
             && NLen(t) >= 1 && NLen(u) >= 1 && HasBatch(lay, t) && HasBatch(lay, u)
    ensures RowIndex(tasks[p / 2], env.qHeads, PrevQ(lay, tasks[p / 2]), r) != RowIndex(tasks[q / 2], env.qHeads, PrevQ(lay, tasks[q / 2]), s)
    ensures LseIndex(lay, env.qHeads, tasks[p / 2], r) != LseIndex(lay, env.qHeads, tasks[q / 2], s)
  {
    var t := tasks[p / 2];
    assert Placed(env, lay, t, outLen, lseLen);
    hide *;
    if p / 2 == q / 2 {
      assert q % 2 == 1 - p % 2;
      HalvesDisjoint(t, p % 2, q % 2, r, s);
      HalvesApart(env, lay, t, outLen, lseLen, r, s);
    } else {
      ApartAt(env, lay, tasks, outLen, lseLen, p / 2, q / 2, r, s);
    }
  }

  lemma StepsSeparate(env: Env, lay: Layout, tasks: seq<SplitNode>, outputLse: bool,
                      f: int -> iset<Cell<Row>>, g: int -> iset<Cell<real>>, outLen: int, lseLen: int)
    requires AllPlaced(env, lay, tasks, outLen, lseLen) && TasksApart(env, lay, tasks, outLen, lseLen)
    requires AreSteps(env, lay, tasks, outputLse, f, g, outLen, lseLen)
    ensures AllSeparate(f, 2 * |tasks|) && AllSeparate(g, 2 * |tasks|)
  {
    forall p, q | 0 <= p < 2 * |tasks| && 0 <= q < 2 * |tasks| && p != q
      ensures Separate(f(p), f(q)) && Separate(g(p), g(q))
    {
      StepsApart(env, lay, tasks, outputLse, f, g, outLen, lseLen, p, q);
    }
  }

  lemma StepsApart(env: Env, lay: Layout, tasks: seq<SplitNode>, outputLse: bool,
                   f: int -> iset<Cell<Row>>, g: int -> iset<Cell<real>>, outLen: int, lseLen: int, p: int, q: int)
    requires AllPlaced(env, lay, tasks, outLen, lseLen) && TasksApart(env, lay, tasks, outLen, lseLen)
    requires AreSteps(env, lay, tasks, outputLse, f, g, outLen, lseLen)
    requires 0 <= p < 2 * |tasks| && 0 <= q < 2 * |tasks| && p != q
    ensures Separate(f(p), f(q)) && Separate(g(p), g(q))
  {
    hide AllPlaced, TasksApart, AreSteps, HalfRowCells, HalfLseCells, Ready, NLen, HasBatch, Placed, RowIndex, LseIndex, MergedRow, LseVal, PrevQ, Rows, HalfStart, HalfRows;
    StepOf(env, lay, tasks, outputLse, f, g, outLen, lseLen, p);
    StepOf(env, lay, tasks, outputLse, f, g, outLen, lseLen, q);
    var t, u := tasks[p / 2], tasks[q / 2];
    forall c, d | c in f(p) && d in f(q)
      ensures c.at != d.at
    {
      var r := HalfRowIs(env, lay, t, p % 2, c);
      var s := HalfRowIs(env, lay, u, q % 2, d);
      StepsDiffer(env, lay, tasks, outLen, lseLen, p, q, r, s);
    }
    forall c, d | c in g(p) && d in g(q)
      ensures c.at != d.at
    {
      var r := HalfLseIs(env, lay, t, p % 2, c);
      var s := HalfLseIs(env, lay, u, q % 2, d);
      StepsDiffer(env, lay, tasks, outLen, lseLen, p, q, r, s);
    }
  }

  /** All processes together store every row of every task. */
  lemma StepsAreAll(env: Env, lay: Layout, tasks: seq<SplitNode>, outputLse: bool,
                    f: int -> iset<Cell<Row>>, g: int -> iset<Cell<real>>, outLen: int, lseLen: int, steps: set<int>)
    requires AllPlaced(env, lay, tasks, outLen, lseLen) && AreSteps(env, lay, tasks, outputLse, f, g, outLen, lseLen)
    requires forall p :: p in steps <==> 0 <= p < 2 * |tasks|
    ensures UnionOf(f, steps) == AllRowCells(env, lay, tasks, outLen, lseLen)
    ensures UnionOf(g, steps) == if outputLse then AllLseCells(env, lay, tasks, outLen, lseLen) else iset{}
  {
    RowStepsAreAll(env, lay, tasks, outputLse, f, g, outLen, lseLen, steps);
    LseStepsAreAll(env, lay, tasks, outputLse, f, g, outLen, lseLen, steps);
  }

  lemma TaskIn(env: Env, lay: Layout, tasks: seq<SplitNode>, outLen: int, lseLen: int, k: int)
    requires AllPlaced(env, lay, tasks, outLen, lseLen) && 0 <= k < |tasks|
    ensures Ready(env, tasks[k]) && HasBatch(lay, tasks[k]) && NLen(tasks[k]) >= 1
    ensures ValidTask(tasks[k], env.qHeads, env.headSizeV)
  {
    assert Placed(env, lay, tasks[k], outLen, lseLen);
  }

  lemma AllRowIs(env: Env, lay: Layout, tasks: seq<SplitNode>, outLen: int, lseLen: int, c: Cell<Row>) returns (k: int, r: int)
    requires AllPlaced(env, lay, tasks, outLen, lseLen) && c in AllRowCells(env, lay, tasks, outLen, lseLen)
    ensures 0 <= k < |tasks| && 0 <= r < Rows(tasks[k]) && ValidTask(tasks[k], env.qHeads, env.headSizeV)
    ensures Ready(env, tasks[k]) && HasBatch(lay, tasks[k]) && NLen(tasks[k]) >= 1
    ensures c == Cell(RowIndex(tasks[k], env.qHeads, PrevQ(lay, tasks[k]), r), MergedRow(env, tasks[k], r))
  {
    hide RowIndex, MergedRow, PrevQ, Rows, Fits;
    k, r :| 0 <= k < |tasks| && 0 <= r < Rows(tasks[k])
            && c == Cell(RowIndex(tasks[k], env.qHeads, PrevQ(lay, tasks[k]), r), MergedRow(env, tasks[k], r));
  }

  lemma AllLseIs(env: Env, lay: Layout, tasks: seq<SplitNode>, outLen: int, lseLen: int, c: Cell<real>) returns (k: int, r: int)
    requires AllPlaced(env, lay, tasks, outLen, lseLen) && c in AllLseCells(env, lay, tasks, outLen, lseLen)
    ensures 0 <= k < |tasks| && 0 <= r < Rows(tasks[k]) && ValidTask(tasks[k], env.qHeads, env.headSizeV)
    ensures Ready(env, tasks[k]) && HasBatch(lay, tasks[k]) && NLen(tasks[k]) >= 1
    ensures c == Cell(LseIndex(lay, env.qHeads, tasks[k], r), LseVal(env, tasks[k], r))
  {
    hide LseIndex, LseVal, Rows, Fits;
    k, r :| 0 <= k < |tasks| && 0 <= r < Rows(tasks[k])
            && c == Cell(LseIndex(lay, env.qHeads, tasks[k], r), LseVal(env, tasks[k], r));
  }

  lemma RowStepsAreAll(env: Env, lay: Layout, tasks: seq<SplitNode>, outputLse: bool,
                       f: int -> iset<Cell<Row>>, g: int -> iset<Cell<real>>, outLen: int, lseLen: int, steps: set<int>)
    requires AllPlaced(env, lay, tasks, outLen, lseLen) && AreSteps(env, lay, tasks, outputLse, f, g, outLen, lseLen)
    requires forall p :: p in steps <==> 0 <= p < 2 * |tasks|
    ensures UnionOf(f, steps) == AllRowCells(env, lay, tasks, outLen, lseLen)
  {
    hide AllPlaced, AreSteps, HalfRowCells, HalfLseCells, Ready, NLen, HasBatch, Placed, RowIndex, MergedRow, PrevQ, Rows, HalfStart, HalfRows;
    forall c | c in UnionOf(f, steps)
      ensures c in AllRowCells(env, lay, tasks, outLen, lseLen)
    {
      var p :| p in steps && c in f(p);
      StepOf(env, lay, tasks, outputLse, f, g, outLen, lseLen, p);
      var r := HalfRowIs(env, lay, tasks[p / 2], p % 2, c);
    }
    forall c | c in AllRowCells(env, lay, tasks, outLen, lseLen)
      ensures c in UnionOf(f, steps)
    {
      var k, r := AllRowIs(env, lay, tasks, outLen, lseLen, c);
      var half := HalvesCover(tasks[k], env.qHeads, env.headSizeV, r);
      RowInHalf(env, lay, tasks[k], half, r);
      StepOf(env, lay, tasks, outputLse, f, g, outLen, lseLen, 2 * k + half);
      assert 2 * k + half in steps;
    }
  }

  lemma LseStepsAreAll(env: Env, lay: Layout, tasks: seq<SplitNode>, outputLse: bool,
                       f: int -> iset<Cell<Row>>, g: int -> iset<Cell<real>>, outLen: int, lseLen: int, steps: set<int>)
    requires AllPlaced(env, lay, tasks, outLen, lseLen) && AreSteps(env, lay, tasks, outputLse, f, g, outLen, lseLen)
    requires forall p :: p in steps <==> 0 <= p < 2 * |tasks|
    ensures UnionOf(g, steps) == if outputLse then AllLseCells(env, lay, tasks, outLen, lseLen) else iset{}
  {
    hide AllPlaced, AreSteps, HalfRowCells, HalfLseCells, Ready, NLen, HasBatch, Placed, LseIndex, LseVal, Rows, HalfStart, HalfRows;
    forall c | c in UnionOf(g, steps)
      ensures outputLse && c in AllLseCells(env, lay, tasks, outLen, lseLen)
    {
      var p :| p in steps && c in g(p);
      StepOf(env, lay, tasks, outputLse, f, g, outLen, lseLen, p);
      var r := HalfLseIs(env, lay, tasks[p / 2], p % 2, c);
    }
    forall c | outputLse && c in AllLseCells(env, lay, tasks, outLen, lseLen)
      ensures c in UnionOf(g, steps)
    {
      var k, r := AllLseIs(env, lay, tasks, outLen, lseLen, c);
      var half := HalvesCover(tasks[k], env.qHeads, env.headSizeV, r);
      RowInHalf(env, lay, tasks[k], half, r);
      StepOf(env, lay, tasks, outputLse, f, g, outLen, lseLen, 2 * k + half);
      assert 2 * k + half in steps;
    }
  }

  /** The cells of process p, and none for numbers that are no process. */
  ghost function StepRowCells(env: Env, lay: Layout, tasks: seq<SplitNode>, p: int): iset<Cell<Row>> {
    if 0 <= p < 2 * |tasks| && Ready(env, tasks[p / 2]) && HasBatch(lay, tasks[p / 2]) && NLen(tasks[p / 2]) >= 1
    then HalfRowCells(env, lay, tasks[p / 2], p % 2) else iset{}
  }

  ghost function StepLseCells(env: Env, lay: Layout, tasks: seq<SplitNode>, p: int): iset<Cell<real>> {
    if 0 <= p < 2 * |tasks| && Ready(env, tasks[p / 2]) && HasBatch(lay, tasks[p / 2]) && NLen(tasks[p / 2]) >= 1
    then HalfLseCells(env, lay, tasks[p / 2], p % 2) else iset{}
  }

  lemma StepCells(env: Env, lay: Layout, tasks: seq<SplitNode>, outputLse: bool, outLen: int, lseLen: int)
    returns (f: int -> iset<Cell<Row>>, g: int -> iset<Cell<real>>)
    requires AllPlaced(env, lay, tasks, outLen, lseLen)
    ensures AreSteps(env, lay, tasks, outputLse, f, g, outLen, lseLen)
  {
    f := p => StepRowCells(env, lay, tasks, p);
    g := p => if outputLse then StepLseCells(env, lay, tasks, p) else iset{};
    forall p | 0 <= p < 2 * |tasks|
      ensures Ready(env, tasks[p / 2]) && HasBatch(lay, tasks[p / 2]) && NLen(tasks[p / 2]) >= 1
    {
      TaskIn(env, lay, tasks, outLen, lseLen, p / 2);
    }
    hide AllPlaced, Ready, HasBatch, NLen, HalfRowCells, HalfLseCells;
  }

  /** The combine step: afterwards every row of every split task is merged at its place in the
      output (and its log-sum-exp in the log-sum-exp output, if asked for); nothing else is
      changed. */
  method Combine(env: Env, lay: Layout, tasks: seq<SplitNode>, subBlockNum: int, outputLse: bool, oGm: array<Row>, lseOut: array<real>)
    requires subBlockNum > 0 && subBlockNum % 2 == 0
    requires AllPlaced(env, lay, tasks, oGm.Length, lseOut.Length) && TasksApart(env, lay, tasks, oGm.Length, lseOut.Length)
    modifies oGm, lseOut
    ensures Stored(old(oGm[..]), oGm[..], AllRowCells(env, lay, tasks, oGm.Length, lseOut.Length))
    ensures Stored(old(lseOut[..]), lseOut[..], if outputLse then AllLseCells(env, lay, tasks, oGm.Length, lseOut.Length) else iset{})
  {
    hide *;
    ghost var f, g := StepCells(env, lay, tasks, outputLse, oGm.Length, lseOut.Length);
    StepsSeparate(env, lay, tasks, outputLse, f, g, oGm.Length, lseOut.Length);
    RunSubBlocks(env, lay, tasks, subBlockNum, outputLse, oGm, lseOut, f, g);
    UpToAll(subBlockNum, 2 * |tasks|);
    StepsAreAll(env, lay, tasks, outputLse, f, g, oGm.Length, lseOut.Length, UpTo(subBlockNum, subBlockNum, 2 * |tasks|));
  }
}
