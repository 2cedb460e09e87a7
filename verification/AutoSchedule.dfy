/** The cost-balanced schedule: a budgeted odometer over (batch, head block, query block,
    KV block). The cover proof uses only that every step moves the position forward; it
    does not look at the costs, which wrap around at 32 bits as in the program. The
    accounting clauses (`Spent`) say what the steps cost when the estimates are exact. */
module AutoSchedule {
  import opened Arith
  import opened Cover
  import opened SplitParams
  import opened Workload

  /** A batch that has blocks. In any other batch only the batch index of a position counts. */
  ghost predicate Live(sh: Shape, b: int)
    requires WellShaped(sh)
  {
    0 <= b < |sh.n1| && sh.n1[b] > 0 && sh.s1[b] > 0 && sh.s2[b] > 0
  }

  /** A position between two cores: in range if its batch has blocks. */
  ghost predicate Tame(sh: Shape, x: Block)
    requires WellShaped(sh)
  {
    && Natural(x)
    && (x.b < |sh.s2| ==> x.s2 <= sh.s2[x.b])
    && (Live(sh, x.b) ==> ValidBlock(sh, x))
  }

  /** A position inside the odometer: at most one counter stands at its limit. */
  ghost predicate Loose(sh: Shape, x: Block)
    requires WellShaped(sh)
  {
    && Natural(x)
    && x.b < |sh.n1| && x.s2 <= sh.s2[x.b]
    && (Live(sh, x.b) ==>
          || (x.n1 < sh.n1[x.b] && x.s1 < sh.s1[x.b] && x.s2 <= sh.s2[x.b])
          || (x.n1 < sh.n1[x.b] && x.s1 == sh.s1[x.b] && x.s2 == 0)
          || (x.n1 == sh.n1[x.b] && x.s1 == 0 && x.s2 == 0))
  }

  /** The position is not in the very first tile. */
  predicate Moved(x: Block) { x.b > 0 || x.n1 > 0 || x.s1 > 0 }

  /** The program's 32-bit signed budget counter. */
  ghost predicate Int32(x: int) { -TWO_31 <= x < TWO_31 }

  const MAX_BLOCK_WORK := Q_TILE_CEIL * MAX_KV_STACK_LEN

  /** With exact estimates the budget goes down by the work passed. */
  ghost predicate Spent(ctx: Context, from: Block, to: Block, budget: int, res: int)
    requires ctx.Valid() && 0 <= from.b <= ctx.batchSize && 0 <= to.b <= ctx.batchSize
  {
    Exact(ctx) ==> res == budget - (Work(ctx, to) - Work(ctx, from))
  }

  /** Less is left of the budget than there is work up to `limit`. */
  ghost predicate Short(ctx: Context, at: Block, limit: Block, budget: int)
    requires ctx.Valid() && 0 <= at.b <= ctx.batchSize && 0 <= limit.b <= ctx.batchSize
  {
    Exact(ctx) && budget > 0 ==> budget < Work(ctx, limit) - Work(ctx, at)
  }

  lemma ExactIsLive(ctx: Context, b: int)
    requires Exact(ctx) && 0 <= b < ctx.batchSize
    ensures Live(ShapeOf(ctx), b)
  {
    ExactBlocks(ctx, b);
  }

  lemma TameIsValid(ctx: Context, x: Block)
    requires ctx.Valid() && Tame(ShapeOf(ctx), x) && x.b < ctx.batchSize
    ensures Exact(ctx) ==> ValidBlock(ShapeOf(ctx), x)
  {
    if Exact(ctx) {
      ExactIsLive(ctx, x.b);
    }
  }

  lemma Wrapped(x: int)
    ensures Int32(ToI32(x)) && (Int32(x) ==> ToI32(x) == x)
  {
  }

  /** The position with full counters carried over. */
  function Carried(p: BatchParams, x: Block): Block {
    var y := if x.s2 == p.curKSBlockNum then x.(s1 := x.s1 + 1, s2 := 0) else x;
    var z := if y.s1 == p.curQSBlockNum then y.(n1 := y.n1 + 1, s1 := 0, s2 := 0) else y;
    if z.n1 == p.curQNBlockNum then Block(z.b + 1, 0, 0, 0) else z
  }

  lemma LooseBatch(ctx: Context, now: Block)
    requires ctx.Valid() && Loose(ShapeOf(ctx), now)
    ensures 0 <= now.b < ctx.batchSize
  {
    hide GetBatchParams;
  }

  lemma CarriedTame(ctx: Context, now: Block)
    requires ctx.Valid() && Loose(ShapeOf(ctx), now) && 0 <= now.b < ctx.batchSize
    ensures var next := Carried(GetBatchParams(ctx, now.b), now);
            && Tame(ShapeOf(ctx), next) && next.b <= ctx.batchSize && !Before(next, now)
  {
    hide GetBatchParams;
  }

  lemma CarriedCut(ctx: Context, now: Block)
    requires ctx.Valid() && Loose(ShapeOf(ctx), now) && 0 <= now.b < ctx.batchSize
    ensures SameCut(ShapeOf(ctx), now, Carried(GetBatchParams(ctx, now.b), now))
  {
    hide GetBatchParams;
  }

  lemma CarriedMoves(ctx: Context, now: Block)
    requires ctx.Valid() && Loose(ShapeOf(ctx), now) && 0 <= now.b < ctx.batchSize
    ensures var p := GetBatchParams(ctx, now.b);
            var next := Carried(p, now);
            && (next.b == ctx.batchSize ==> next == Block(next.b, 0, 0, 0))
            && (now.s2 == p.curKSBlockNum || Moved(now) ==> Moved(next))
            && (now.s2 == p.curKSBlockNum ==> next.s2 == 0)
            && (ValidBlock(ShapeOf(ctx), now) ==> next == now)
  {
    hide GetBatchParams;
  }

  /** Carrying passes no work. */
  lemma CarrySpent(ctx: Context, now: Block)
    requires ctx.Valid() && Loose(ShapeOf(ctx), now) && 0 <= now.b < ctx.batchSize
    ensures var next := Carried(GetBatchParams(ctx, now.b), now);
            0 <= next.b <= ctx.batchSize && Spent(ctx, now, next, 0, 0)
  {
    if Exact(ctx) {
      ExactIsLive(ctx, now.b);
      CarryWork(ctx, now);
    }
    hide Work, Exact, GetBatchParams, ShapeOf;
  }

  method Advance(ctx: Context, p: BatchParams, now: Block) returns (next: Block)
    requires ctx.Valid() && Loose(ShapeOf(ctx), now) && p == GetBatchParams(ctx, now.b)
    ensures Tame(ShapeOf(ctx), next) && next.b <= ctx.batchSize && !Before(next, now)
    ensures SameCut(ShapeOf(ctx), now, next)
    ensures next.b == ctx.batchSize ==> next == Block(next.b, 0, 0, 0)
    ensures now.s2 == p.curKSBlockNum || Moved(now) ==> Moved(next)
    ensures now.s2 == p.curKSBlockNum ==> next.s2 == 0
    ensures ValidBlock(ShapeOf(ctx), now) ==> next == now
    ensures Spent(ctx, now, next, 0, 0)
  {
    hide Loose, Tame, SameCut, Spent, ValidBlock, Moved, ShapeOf, GetBatchParams, Before;
    next := now;
    if next.s2 == p.curKSBlockNum {
      next := next.(s1 := next.s1 + 1, s2 := 0);
    }
    if next.s1 == p.curQSBlockNum {
      next := next.(n1 := next.n1 + 1, s1 := 0, s2 := 0);
    }
    if next.n1 == p.curQNBlockNum {
      next := Block(next.b + 1, 0, 0, 0);
    }
    assert next == Carried(p, now);
    LooseBatch(ctx, now);
    CarrySpent(ctx, now);
    CarriedTame(ctx, now);
    CarriedCut(ctx, now);
    CarriedMoves(ctx, now);
  }

  /** Where the carries lead, and that they keep the accumulated work. */
  lemma CarryWork(ctx: Context, now: Block)
    requires Exact(ctx) && Loose(ShapeOf(ctx), now) && Live(ShapeOf(ctx), now.b)
    ensures var p := GetBatchParams(ctx, now.b);
            && (now.s2 == p.curKSBlockNum && now.s1 < p.curQSBlockNum ==>
                  Work(ctx, now) == Work(ctx, now.(s1 := now.s1 + 1, s2 := 0)))
            && Work(ctx, Block(now.b, now.n1, p.curQSBlockNum, 0)) == Work(ctx, Block(now.b, now.n1 + 1, 0, 0))
            && Work(ctx, Block(now.b, p.curQNBlockNum, 0, 0)) == Work(ctx, Block(now.b + 1, 0, 0, 0))
  {
    var p := GetBatchParams(ctx, now.b);
    if now.s1 < p.curQSBlockNum {
      KeyCarry(ctx, now.b, now.n1, now.s1);
    }
    HeadCarry(ctx, now.b, now.n1);
    BatchCarry(ctx, now.b);
    hide *;
    assert now == Block(now.b, now.n1, now.s1, now.s2);
  }

  method KvPhase(ctx: Context, now: Block, budget: int) returns (next: Block, res: int)
    requires ctx.Valid() && Tame(ShapeOf(ctx), now) && now.b < ctx.batchSize && Int32(budget)
    ensures next == now.(s2 := next.s2) && now.s2 <= next.s2
    ensures Loose(ShapeOf(ctx), next)
    ensures res > 0 ==> next.s2 == GetBatchParams(ctx, now.b).curKSBlockNum
    ensures budget > 0 && GetBatchParams(ctx, now.b).curKSBlockNum > now.s2 ==> next.s2 > now.s2
    ensures Int32(res) && Spent(ctx, now, next, budget, res)
    ensures Exact(ctx) && budget > 0 ==> res > -MAX_BLOCK_WORK
    ensures budget <= 0 ==> next == now && res == budget
  {
    hide Exact, Work, TileWork, ToU32, ToI32, ToI64, TileRows, TileKeys;
    next, res := now, budget;
    var p := GetBatchParams(ctx, next.b);
    while next.s2 < p.curKSBlockNum && res > 0
      invariant p == GetBatchParams(ctx, now.b)
      invariant next == now.(s2 := next.s2) && now.s2 <= next.s2
      invariant next.s2 <= p.curKSBlockNum || next == now
      invariant next == now ==> res == budget
      invariant budget <= 0 ==> next == now
      invariant Int32(res) && Spent(ctx, now, next, budget, res)
      invariant Exact(ctx) && budget > 0 ==> res > -MAX_BLOCK_WORK
    {
      p := GetBatchParams(ctx, next.b);
      var singleS2Task := TileRows(p, next.s1) * TileKeys(p, next.s2);
      KvSpent(ctx, now, next, budget, res);
      res := ToI32(res - ToI32(singleS2Task));
      next := next.(s2 := next.s2 + 1);
    }
  }

  lemma KvSpent(ctx: Context, from: Block, x: Block, budget: int, res: int)
    requires ctx.Valid() && Tame(ShapeOf(ctx), x) && x.b < ctx.batchSize && 0 <= from.b <= ctx.batchSize
    requires x.s2 < GetBatchParams(ctx, x.b).curKSBlockNum
    requires Int32(res) && res > 0 && Spent(ctx, from, x, budget, res)
    ensures var p := GetBatchParams(ctx, x.b);
            var left := ToI32(res - ToI32(TileRows(p, x.s1) * TileKeys(p, x.s2)));
            && Int32(left) && Spent(ctx, from, x.(s2 := x.s2 + 1), budget, left)
            && (Exact(ctx) ==> left > -MAX_BLOCK_WORK)
  {
    var p := GetBatchParams(ctx, x.b);
    var cost := TileRows(p, x.s1) * TileKeys(p, x.s2);
    Wrapped(res - ToI32(cost));
    if Exact(ctx) {
      ExactIsLive(ctx, x.b);
      KvCost(ctx, x);
      hide *;
      SmallIsUnwrapped(cost);
      assert Int32(res - cost) by { hide *; }
    }
  }

  method BatchPhase(ctx: Context, now: Block, budget: int) returns (next: Block, res: int)
    requires ctx.Valid() && Tame(ShapeOf(ctx), now) && now.b < ctx.batchSize && now.s2 == 0 && Int32(budget)
    ensures Tame(ShapeOf(ctx), next) && next.b <= ctx.batchSize && next.s2 == 0
    ensures next == now || (next == Block(next.b, 0, 0, 0) && now.b < next.b)
    ensures Int32(res) && Spent(ctx, now, next, budget, res)
    ensures Exact(ctx) && budget > 0 ==> res >= 0
    ensures next.b < ctx.batchSize ==> Short(ctx, next, Block(next.b + 1, 0, 0, 0), res)
  {
    hide Exact, Work, TileWork, ToU32, ToI32, ToI64, TileRows, TileKeys;
    next, res := now, budget;
    while next.b < ctx.batchSize && res > 0
      invariant Tame(ShapeOf(ctx), next) && next.b <= ctx.batchSize && next.s2 == 0
      invariant next == now || (next == Block(next.b, 0, 0, 0) && now.b < next.b)
      invariant Int32(res) && Spent(ctx, now, next, budget, res)
      invariant Exact(ctx) && budget > 0 ==> res >= 0
      decreases ctx.batchSize - next.b
    {
      var p := GetBatchParams(ctx, next.b);
      var remainingQ := ToU32(p.qSeqlen * (ctx.numHeads - p.curQNBlockTile * next.n1) - next.s1 * p.curQSBlockTile);
      var remainingInBatch := ToU32(remainingQ * p.kvSeqlen);
      BatchSpent(ctx, now, next, budget, res);
      if res >= ToI32(remainingInBatch) {
        res := ToI32(res - remainingInBatch);
        next := Block(next.b + 1, 0, 0, 0);
      } else {
        break;
      }
    }
  }

  lemma BatchSpent(ctx: Context, from: Block, x: Block, budget: int, res: int)
    requires ctx.Valid() && Tame(ShapeOf(ctx), x) && x.b < ctx.batchSize && 0 <= from.b <= ctx.batchSize
    requires Int32(res) && res > 0 && x.s2 == 0 && Spent(ctx, from, x, budget, res)
    ensures var p := GetBatchParams(ctx, x.b);
            var cost := ToU32(ToU32(p.qSeqlen * (ctx.numHeads - p.curQNBlockTile * x.n1) - x.s1 * p.curQSBlockTile) * p.kvSeqlen);
            var left := ToI32(res - cost);
            && Int32(left)
            && (res >= ToI32(cost) ==> Spent(ctx, from, Block(x.b + 1, 0, 0, 0), budget, left) && (Exact(ctx) ==> left >= 0))
            && (res < ToI32(cost) ==> Short(ctx, x, Block(x.b + 1, 0, 0, 0), res))
  {
    var p := GetBatchParams(ctx, x.b);
    var cost := ToU32(ToU32(p.qSeqlen * (ctx.numHeads - p.curQNBlockTile * x.n1) - x.s1 * p.curQSBlockTile) * p.kvSeqlen);
    Wrapped(res - cost);
    if Exact(ctx) {
      ExactIsLive(ctx, x.b);
      BatchCost(ctx, x);
      hide *;
    }
  }

  method HeadPhase(ctx: Context, p: BatchParams, now: Block, budget: int) returns (next: Block, res: int)
    requires ctx.Valid() && Tame(ShapeOf(ctx), now) && now.b < ctx.batchSize && now.s2 == 0 && Int32(budget)
    requires p == GetBatchParams(ctx, now.b)
    requires Short(ctx, now, Block(now.b + 1, 0, 0, 0), budget)
    ensures Loose(ShapeOf(ctx), next) && next.b == now.b
    ensures next == now || (next == Block(now.b, next.n1, 0, 0) && now.n1 < next.n1)
    ensures Int32(res) && Spent(ctx, now, next, budget, res)
    ensures Exact(ctx) ==> ValidBlock(ShapeOf(ctx), next) && (budget >= 0 ==> res >= 0)
    ensures Short(ctx, next, Block(next.b, next.n1 + 1, 0, 0), res)
  {
    hide Exact, Work, TileWork, ToU32, ToI32, ToI64, TileRows, TileKeys;
    TameIsValid(ctx, now);
    next, res := now, budget;
    while next.n1 < p.curQNBlockNum && res > 0
      invariant next == now || (next == Block(now.b, next.n1, 0, 0) && now.n1 < next.n1 <= p.curQNBlockNum)
      invariant Int32(res) && Spent(ctx, now, next, budget, res)
      invariant Short(ctx, next, Block(now.b + 1, 0, 0, 0), res)
      invariant Exact(ctx) ==> ValidBlock(ShapeOf(ctx), next) && (budget >= 0 ==> res >= 0)
      decreases p.curQNBlockNum - next.n1
    {
      var remainingQ := ToU32(p.qSeqlen * p.curQNBlockTile - next.s1 * p.curQSBlockTile);
      var remainingInN1 := ToU32(remainingQ * p.kvSeqlen);
      HeadSpent(ctx, now, next, budget, res);
      if res >= ToI32(remainingInN1) {
        res := ToI32(res - ToI32(remainingInN1));
        next := Block(next.b, next.n1 + 1, 0, 0);
      } else {
        break;
      }
    }
  }

  lemma HeadSpent(ctx: Context, from: Block, x: Block, budget: int, res: int)
    requires ctx.Valid() && 0 <= x.b < ctx.batchSize && 0 <= from.b <= ctx.batchSize
    requires Exact(ctx) ==> ValidBlock(ShapeOf(ctx), x)
    requires Int32(res) && res > 0 && x.s2 == 0 && Spent(ctx, from, x, budget, res)
    requires Short(ctx, x, Block(x.b + 1, 0, 0, 0), res)
    ensures var p := GetBatchParams(ctx, x.b);
            var cost := ToU32(ToU32(p.qSeqlen * p.curQNBlockTile - x.s1 * p.curQSBlockTile) * p.kvSeqlen);
            var next := Block(x.b, x.n1 + 1, 0, 0);
            var left := ToI32(res - ToI32(cost));
            && Int32(left)
            && (res >= ToI32(cost) ==>
                  && Spent(ctx, from, next, budget, left)
                  && Short(ctx, next, Block(x.b + 1, 0, 0, 0), left)
                  && (Exact(ctx) ==> left >= 0 && ValidBlock(ShapeOf(ctx), next)))
            && (res < ToI32(cost) ==> Short(ctx, x, next, res))
  {
    var p := GetBatchParams(ctx, x.b);
    var cost := ToU32(ToU32(p.qSeqlen * p.curQNBlockTile - x.s1 * p.curQSBlockTile) * p.kvSeqlen);
    Wrapped(res - ToI32(cost));
    if Exact(ctx) {
      ExactIsLive(ctx, x.b);
      HeadCost(ctx, x);
      BatchCarry(ctx, x.b);
      hide Exact, Work, GetBatchParams, ToU32, ToI32;
    }
  }

  method QueryPhase(ctx: Context, p: BatchParams, now: Block, budget: int) returns (next: Block, res: int)
    requires ctx.Valid() && Tame(ShapeOf(ctx), now) && now.b < ctx.batchSize && Int32(budget)
    requires p == GetBatchParams(ctx, now.b)
    requires Exact(ctx) && budget > 0 ==> now.s2 == 0
    requires Short(ctx, now, Block(now.b, now.n1 + 1, 0, 0), budget)
    ensures Loose(ShapeOf(ctx), next)
    ensures next == now || (next == Block(now.b, now.n1, next.s1, 0) && now.s1 < next.s1)
    ensures Int32(res) && Spent(ctx, now, next, budget, res)
    ensures Exact(ctx) ==> ValidBlock(ShapeOf(ctx), next) && (budget >= 0 ==> res >= 0)
    ensures Short(ctx, next, Block(next.b, next.n1, next.s1 + 1, 0), res)
  {
    hide Exact, Work, TileWork, ToU32, ToI32, ToI64, TileRows, TileKeys;
    TameIsValid(ctx, now);
    next, res := now, budget;
    while next.s1 < p.curQSBlockNum && res > 0
      invariant next == now || (next == Block(now.b, now.n1, next.s1, 0) && now.s1 < next.s1 <= p.curQSBlockNum)
      invariant Int32(res) && Spent(ctx, now, next, budget, res)
      invariant Exact(ctx) && res > 0 ==> next.s2 == 0
      invariant Short(ctx, next, Block(now.b, now.n1 + 1, 0, 0), res)
      invariant Exact(ctx) ==> ValidBlock(ShapeOf(ctx), next) && (budget >= 0 ==> res >= 0)
      decreases p.curQSBlockNum - next.s1
    {
      var remainingInS1 := TileRows(p, next.s1) * p.kvSeqlen;
      QuerySpent(ctx, now, next, budget, res);
      if res >= ToI64(remainingInS1) {
        res := ToI32(res - ToI32(remainingInS1));
        next := Block(next.b, next.n1, next.s1 + 1, 0);
      } else {
        break;
      }
    }
  }

  lemma QuerySpent(ctx: Context, from: Block, x: Block, budget: int, res: int)
    requires ctx.Valid() && 0 <= x.b < ctx.batchSize && 0 <= from.b <= ctx.batchSize
    requires Exact(ctx) ==> ValidBlock(ShapeOf(ctx), x) && x.s2 == 0
    requires Int32(res) && res > 0 && Spent(ctx, from, x, budget, res)
    requires Short(ctx, x, Block(x.b, x.n1 + 1, 0, 0), res)
    ensures var p := GetBatchParams(ctx, x.b);
            var cost := TileRows(p, x.s1) * p.kvSeqlen;
            var next := Block(x.b, x.n1, x.s1 + 1, 0);
            var left := ToI32(res - ToI32(cost));
            && Int32(left)
            && (res >= ToI64(cost) ==>
                  && Spent(ctx, from, next, budget, left)
                  && Short(ctx, next, Block(x.b, x.n1 + 1, 0, 0), left)
                  && (Exact(ctx) ==> left >= 0 && ValidBlock(ShapeOf(ctx), next)))
            && (res < ToI64(cost) ==> Short(ctx, x, next, res))
  {
    var p := GetBatchParams(ctx, x.b);
    var cost := TileRows(p, x.s1) * p.kvSeqlen;
    Wrapped(res - ToI32(cost));
    if Exact(ctx) {
      ExactIsLive(ctx, x.b);
      QueryCost(ctx, x);
      HeadCarry(ctx, x.b, x.n1);
      hide Exact, Work, GetBatchParams, TileRows, ToI64, ToI32;
    }
  }

  /** The end written for a core that stops at KV block 0: the whole previous tile. */
  method RollBack(ctx: Context, p: BatchParams, now: Block) returns (end: Block)
    requires ctx.Valid() && Loose(ShapeOf(ctx), now) && Moved(now) && now.s2 == 0
    requires p == GetBatchParams(ctx, now.b)
    ensures NeatEnd(ShapeOf(ctx), end)
    ensures SameCut(ShapeOf(ctx), end, now)
  {
    end := now;
    var pEnd := p;
    if end.s1 > 0 {
      end := end.(s1 := end.s1 - 1);
    } else {
      if end.n1 > 0 {
        end := end.(n1 := end.n1 - 1);
      } else {
        end := end.(b := end.b - 1);
        pEnd := GetBatchParams(ctx, end.b);
        end := end.(n1 := pEnd.curQNBlockNum - 1);
      }
      end := end.(s1 := pEnd.curQSBlockNum - 1);
    }
    end := end.(s2 := pEnd.curKSBlockNum);
  }

  /** The end that closes the whole space. */
  method FinishBatch(ctx: Context) returns (end: Block)
    requires ctx.Valid()
    ensures NeatEnd(ShapeOf(ctx), end)
    ensures end.b == ctx.batchSize - 1
    ensures SameCut(ShapeOf(ctx), end, Block(ctx.batchSize, 0, 0, 0))
  {
    var p := GetBatchParams(ctx, ctx.batchSize - 1);
    end := Block(ctx.batchSize - 1, p.curQNBlockNum - 1, p.curQSBlockNum - 1, p.curKSBlockNum);
  }

  /** The phases after the first tile: whole batches, whole head blocks, whole query
      blocks, then single KV blocks. */
  method SpendRest(ctx: Context, start: Block, budget: int) returns (end: Block, now: Block)
    requires ctx.Valid() && Tame(ShapeOf(ctx), start) && start.b < ctx.batchSize && Moved(start)
    requires start.s2 == 0 && Int32(budget) && budget > 0
    ensures NeatEnd(ShapeOf(ctx), end)
    ensures Tame(ShapeOf(ctx), now) && now.b <= ctx.batchSize && !Before(now, start)
    ensures now.b == ctx.batchSize ==> now == Block(ctx.batchSize, 0, 0, 0)
    ensures SameCut(ShapeOf(ctx), end, now)
    ensures Received(ctx, start, now, budget)
  {
    var res: int;
    now, res := BatchPhase(ctx, start, budget);
    if now.b == ctx.batchSize {
      end := FinishBatch(ctx);
      return end, now;
    }
    assert Moved(now) && !Before(now, start);
    ghost var at, left := now, res;
    end, now := SpendInBatch(ctx, now, res);
    assert Received(ctx, start, now, budget) by {
      hide *;
      ReceivedLater(ctx, start, at, now, budget, left);
    }
  }

  /** What a core gets with exact estimates: at least its budget unless it is the last,
      and less than one KV block more. */
  ghost predicate Received(ctx: Context, start: Block, now: Block, budget: int)
    requires ctx.Valid() && 0 <= start.b <= ctx.batchSize && 0 <= now.b <= ctx.batchSize
  {
    Exact(ctx) ==>
      && (now.b < ctx.batchSize ==> Work(ctx, now) - Work(ctx, start) >= budget)
      && Work(ctx, now) - Work(ctx, start) < Max(budget, 0) + MAX_BLOCK_WORK
  }

  lemma ReceivedLater(ctx: Context, start: Block, at: Block, now: Block, budget: int, res: int)
    requires ctx.Valid() && 0 <= start.b <= ctx.batchSize && 0 <= at.b <= ctx.batchSize && 0 <= now.b <= ctx.batchSize
    requires Spent(ctx, start, at, budget, res) && Received(ctx, at, now, res)
    requires Exact(ctx) ==> budget > 0 && res >= 0
    ensures Received(ctx, start, now, budget)
  {
    hide Exact, Work;
  }

  method SpendInBatch(ctx: Context, start: Block, budget: int) returns (end: Block, now: Block)
    requires ctx.Valid() && Tame(ShapeOf(ctx), start) && start.b < ctx.batchSize && Moved(start)
    requires start.s2 == 0 && Int32(budget) && (Exact(ctx) ==> budget >= 0)
    requires Short(ctx, start, Block(start.b + 1, 0, 0, 0), budget)
    ensures NeatEnd(ShapeOf(ctx), end)
    ensures Tame(ShapeOf(ctx), now) && now.b <= ctx.batchSize && !Before(now, start)
    ensures now.b == ctx.batchSize ==> now == Block(ctx.batchSize, 0, 0, 0)
    ensures SameCut(ShapeOf(ctx), end, now)
    ensures Received(ctx, start, now, budget)
  {
    var p := GetBatchParams(ctx, start.b);
    var res: int;
    now, res := HeadPhase(ctx, p, start, budget);
    ghost var at, left := now, res;
    assert Moved(now) && !Before(now, start);
    now := Advance(ctx, p, now);
    if now.b == ctx.batchSize {
      end := FinishBatch(ctx);
      return end, now;
    }
    assert Moved(now) && !Before(now, start);
    end, now := SpendInHead(ctx, now, res);
  }

  method SpendInHead(ctx: Context, start: Block, budget: int) returns (end: Block, now: Block)
    requires ctx.Valid() && Tame(ShapeOf(ctx), start) && start.b < ctx.batchSize && Moved(start)
    requires Int32(budget)
    requires Exact(ctx) ==> budget >= 0 && (budget > 0 ==> start.s2 == 0)
    requires Short(ctx, start, Block(start.b, start.n1 + 1, 0, 0), budget)
    ensures NeatEnd(ShapeOf(ctx), end)
    ensures Tame(ShapeOf(ctx), now) && now.b <= ctx.batchSize && !Before(now, start)
    ensures now.b == ctx.batchSize ==> now == Block(ctx.batchSize, 0, 0, 0)
    ensures SameCut(ShapeOf(ctx), end, now)
    ensures Received(ctx, start, now, budget)
  {
    var p := GetBatchParams(ctx, start.b);
    var res: int;
    now, res := QueryPhase(ctx, p, start, budget);
    ghost var tile, left := now, res;
    now := Advance(ctx, p, now);
    if now.b == ctx.batchSize {
      end := FinishBatch(ctx);
      return end, now;
    }
    assert Moved(now) && !Before(now, start);
    end, now := SpendInTile(ctx, now, res);
    assert Received(ctx, start, now, budget) by {
      hide Work, GetBatchParams;
    }
  }

  method SpendInTile(ctx: Context, start: Block, budget: int) returns (end: Block, now: Block)
    requires ctx.Valid() && Tame(ShapeOf(ctx), start) && start.b < ctx.batchSize && Moved(start)
    requires Int32(budget)
    requires Exact(ctx) ==> budget >= 0 && (budget > 0 ==> start.s2 == 0)
    requires Short(ctx, start, Block(start.b, start.n1, start.s1 + 1, 0), budget)
    ensures NeatEnd(ShapeOf(ctx), end)
    ensures Tame(ShapeOf(ctx), now) && now.b <= ctx.batchSize && !Before(now, start)
    ensures now.b == ctx.batchSize ==> now == Block(ctx.batchSize, 0, 0, 0)
    ensures SameCut(ShapeOf(ctx), end, now)
    ensures Received(ctx, start, now, budget)
  {
    hide *;
    BatchOfStart(ctx, start);
    var p := GetBatchParams(ctx, start.b);
    var mid, res := KvPhase(ctx, start, budget);
    NoneLeft(ctx, start, mid, budget, res);
    StillMoved(start, mid);
    if mid.s2 == 0 {
      end := RollBack(ctx, p, mid);
    } else {
      LooseIsNeat(ctx, mid);
      end := mid;
    }
    now := Advance(ctx, p, mid);
    BatchOfStart(ctx, now);
    TileReceived(ctx, start, mid, now, budget, res);
    TileCut(ShapeOf(ctx), start, end, mid, now);
    if now.b == ctx.batchSize {
      end := FinishBatch(ctx);
    }
  }

  lemma BatchOfStart(ctx: Context, start: Block)
    requires ctx.Valid() && Tame(ShapeOf(ctx), start)
    ensures start.b >= 0
  {
  }

  lemma StillMoved(start: Block, mid: Block)
    requires Moved(start) && mid == start.(s2 := mid.s2)
    ensures Moved(mid)
  {
  }

  lemma LooseIsNeat(ctx: Context, x: Block)
    requires ctx.Valid() && Loose(ShapeOf(ctx), x) && x.s2 != 0
    ensures NeatEnd(ShapeOf(ctx), x) && SameCut(ShapeOf(ctx), x, x)
  {
    hide GetBatchParams;
  }

  lemma TileCut(sh: Shape, start: Block, end: Block, mid: Block, now: Block)
    requires WellShaped(sh) && SameCut(sh, end, mid) && SameCut(sh, mid, now)
    requires mid == start.(s2 := mid.s2) && start.s2 <= mid.s2 && !Before(now, mid)
    ensures SameCut(sh, end, now) && !Before(now, start)
  {
    hide ValidBlock;
  }

  lemma TileReceived(ctx: Context, start: Block, mid: Block, now: Block, budget: int, res: int)
    requires ctx.Valid() && 0 <= start.b <= ctx.batchSize && 0 <= mid.b <= ctx.batchSize && 0 <= now.b <= ctx.batchSize
    requires Spent(ctx, start, mid, budget, res) && Spent(ctx, mid, now, 0, 0)
    requires Exact(ctx) ==> res <= 0 && budget >= 0
    requires Exact(ctx) && budget > 0 ==> res > -MAX_BLOCK_WORK
    requires budget <= 0 ==> res == budget
    ensures Received(ctx, start, now, budget)
  {
    hide Exact, Work;
  }

  /** With exact estimates the last phase uses the budget up. */
  lemma NoneLeft(ctx: Context, at: Block, next: Block, budget: int, res: int)
    requires ctx.Valid() && Tame(ShapeOf(ctx), at) && at.b < ctx.batchSize
    requires Exact(ctx) ==> budget >= 0 && (budget > 0 ==> at.s2 == 0)
    requires Short(ctx, at, Block(at.b, at.n1, at.s1 + 1, 0), budget)
    requires next == at.(s2 := next.s2) && Spent(ctx, at, next, budget, res)
    requires res > 0 ==> next.s2 == GetBatchParams(ctx, at.b).curKSBlockNum
    requires budget <= 0 ==> res == budget
    ensures Exact(ctx) ==> res <= 0
  {
    assert Exact(ctx) && budget > 0 ==> at == Block(at.b, at.n1, at.s1, 0);
    if Exact(ctx) && res > 0 {
      TameIsValid(ctx, at);
      KeyCarry(ctx, at.b, at.n1, at.s1);
      hide Exact, Work, GetBatchParams;
    }
  }

  /** One core: spend the budget from `start`, and say where the range ends and where the
      next core starts. */
  method ScheduleCore(ctx: Context, start: Block, budget: int) returns (end: Block, now: Block)
    requires ctx.Valid() && Tame(ShapeOf(ctx), start) && start.b < ctx.batchSize && Int32(budget)
    ensures NeatEnd(ShapeOf(ctx), end)
    ensures Tame(ShapeOf(ctx), now) && now.b <= ctx.batchSize && !Before(now, start)
    ensures now.b == ctx.batchSize ==> now == Block(ctx.batchSize, 0, 0, 0)
    ensures SameCut(ShapeOf(ctx), end, now)
    ensures budget > 0 ==> Received(ctx, start, now, budget)
  {
    var p := GetBatchParams(ctx, start.b);
    var res: int;
    now, res := KvPhase(ctx, start, budget);
    end := now;
    ghost var at, left := now, res;
    now := Advance(ctx, p, now);
    if now.b < ctx.batchSize && res <= 0 {
      return end, now;
    }
    if now.b == ctx.batchSize {
      end := FinishBatch(ctx);
      return end, now;
    }
    assert Moved(now) && !Before(now, start);
    ghost var mid := now;
    end, now := SpendRest(ctx, now, res);
    assert budget > 0 ==> Received(ctx, start, now, budget) by {
      hide *;
      assert Spent(ctx, start, mid, budget, left) by { hide Exact, Work; }
      if budget > 0 { ReceivedLater(ctx, start, mid, now, budget, left); }
    }
  }
}
