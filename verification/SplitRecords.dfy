/** The pass that finds the tiles shared by several cores, writes one record per such tile
    and hands out the scratch space for the partial results. */
module SplitRecords {
  import opened Cover
  import opened SplitParams
  import opened Tiles
  import opened SplitSegments

  datatype SplitNode = SplitNode(
    batchIdx: int, headStartIdx: int, headEndIdx: int, qStartIdx: int, qEndIdx: int,
    splitNum: int, lseTaskOffset: int, oTaskOffset: int)

  const NO_SPLIT := SplitNode(0, 0, 0, 0, 0, 0, 0, 0)

  ghost predicate InBatches(ctx: Context, segs: seq<Seg>) {
    forall i :: 0 <= i < |segs| ==> 0 <= segs[i].b < ctx.batchSize
  }

  /** Scratch rows of a list of segments: one per (head, row) pair of every segment. */
  ghost function SizeOf(ctx: Context, segs: seq<Seg>): int
    requires ctx.Valid() && InBatches(ctx, segs)
  {
    if segs == [] then 0
    else
      var n := |segs| - 1;
      SizeOf(ctx, segs[..n]) + TileSize(ctx, segs[n].b, segs[n].n1, segs[n].s1)
  }

  /** The record of the r-th run of segments. */
  ghost function RecordAt(ctx: Context, segs: seq<Seg>, r: int): SplitNode
    requires ctx.Valid() && InBatches(ctx, segs) && 0 <= r < |Runs(segs)|
  {
    var first := Runs(segs)[r];
    var t := segs[first];
    var p := GetBatchParams(ctx, t.b);
    var offset := SizeOf(ctx, segs[..first]);
    SplitNode(t.b, HeadStart(ctx, p, t.n1), HeadEnd(ctx, p, t.n1), QStart(p, t.s1), QEnd(p, t.s1),
              RunEnd(segs, r) - first, offset, offset * ctx.headSizeV)
  }

  ghost predicate HasCore(segs: seq<Seg>, c: int) {
    exists i :: 0 <= i < |segs| && segs[i].core == c
  }

  /** Scratch offset of the first segment of core c. */
  ghost function FirstOffset(ctx: Context, segs: seq<Seg>, c: int): int
    requires ctx.Valid() && InBatches(ctx, segs)
  {
    if segs == [] then 0
    else
      var n := |segs| - 1;
      if HasCore(segs[..n], c) then FirstOffset(ctx, segs[..n], c)
      else if segs[n].core == c then SizeOf(ctx, segs[..n])
      else 0
  }

  /** The variables of the pass that live across tiles. */
  datatype Cursor = Cursor(splitIdx: int, lse: int, o: int, prevB: int, prevN1: int, prevS1: int)

  /** Records and offsets after the segments `segs`. */
  ghost predicate Recorded(ctx: Context, segs: seq<Seg>, at: Cursor, nodes: seq<SplitNode>)
    requires ctx.Valid()
  {
    && InBatches(ctx, segs)
    && at.splitIdx == |Runs(segs)| - 1
    && at.lse == SizeOf(ctx, segs) && at.o == SizeOf(ctx, segs) * ctx.headSizeV
    && (segs == [] ==> at.prevB == -1 && at.prevN1 == -1 && at.prevS1 == -1)
    && (segs != [] ==> var t := segs[|segs| - 1]; at.prevB == t.b && at.prevN1 == t.n1 && at.prevS1 == t.s1)
    && Listed(ctx, segs, nodes)
  }

  /** Appending a segment keeps the earlier runs and closes or extends the last one. */
  lemma AppendRuns(segs: seq<Seg>, e: Seg)
    ensures var all := segs + [e];
            var isNew := segs == [] || !SameTile(segs[|segs| - 1], e);
            && Runs(all) == (if isNew then Runs(segs) + [|segs|] else Runs(segs))
            && (!isNew ==> |Runs(segs)| > 0)
  {
    var all := segs + [e];
    assert all[..|segs|] == segs;
  }

  lemma AppendSize(ctx: Context, segs: seq<Seg>, e: Seg)
    requires ctx.Valid() && InBatches(ctx, segs) && 0 <= e.b < ctx.batchSize
    ensures InBatches(ctx, segs + [e])
    ensures SizeOf(ctx, segs + [e]) == SizeOf(ctx, segs) + TileSize(ctx, e.b, e.n1, e.s1)
  {
    assert (segs + [e])[..|segs|] == segs;
  }

  lemma KeptRecord(ctx: Context, segs: seq<Seg>, e: Seg, r: int)
    requires ctx.Valid() && InBatches(ctx, segs) && 0 <= e.b < ctx.batchSize && 0 <= r < |Runs(segs)|
    ensures InBatches(ctx, segs + [e]) && r < |Runs(segs + [e])|
    ensures var isNew := segs == [] || !SameTile(segs[|segs| - 1], e);
            var was := RecordAt(ctx, segs, r);
            RecordAt(ctx, segs + [e], r)
              == if !isNew && r == |Runs(segs)| - 1 then was.(splitNum := was.splitNum + 1) else was
  {
    AppendRuns(segs, e);
    AppendSize(ctx, segs, e);
    var first := Runs(segs)[r];
    assert (segs + [e])[..first] == segs[..first];
    hide HeadStart, HeadEnd, QStart, QEnd, GetBatchParams, SizeOf, Runs;
  }

  lemma NewRecord(ctx: Context, segs: seq<Seg>, e: Seg)
    requires ctx.Valid() && InBatches(ctx, segs) && 0 <= e.b < ctx.batchSize
    requires segs == [] || !SameTile(segs[|segs| - 1], e)
    ensures InBatches(ctx, segs + [e]) && |Runs(segs + [e])| == |Runs(segs)| + 1
    ensures var p := GetBatchParams(ctx, e.b);
            RecordAt(ctx, segs + [e], |Runs(segs)|)
              == SplitNode(e.b, HeadStart(ctx, p, e.n1), HeadEnd(ctx, p, e.n1), QStart(p, e.s1), QEnd(p, e.s1),
                           1, SizeOf(ctx, segs), SizeOf(ctx, segs) * ctx.headSizeV)
  {
    AppendRuns(segs, e);
    AppendSize(ctx, segs, e);
    assert (segs + [e])[..|segs|] == segs;
    hide HeadStart, HeadEnd, QStart, QEnd, GetBatchParams, SizeOf, Runs;
  }

  lemma AppendFirst(ctx: Context, segs: seq<Seg>, e: Seg, c: int)
    requires ctx.Valid() && InBatches(ctx, segs) && 0 <= e.b < ctx.batchSize
    ensures InBatches(ctx, segs + [e])
    ensures HasCore(segs + [e], c) <==> HasCore(segs, c) || e.core == c
    ensures FirstOffset(ctx, segs + [e], c)
         == if HasCore(segs, c) then FirstOffset(ctx, segs, c)
            else if e.core == c then SizeOf(ctx, segs) else 0
    ensures !HasCore(segs, c) ==> FirstOffset(ctx, segs, c) == 0
  {
    var all := segs + [e];
    assert all[..|segs|] == segs;
    assert all[|segs|] == e;
    assert forall i :: 0 <= i < |segs| ==> all[i] == segs[i];
    NoFirst(ctx, segs, c);
  }

  lemma {:induction false} NoFirst(ctx: Context, segs: seq<Seg>, c: int)
    requires ctx.Valid() && InBatches(ctx, segs)
    ensures !HasCore(segs, c) ==> FirstOffset(ctx, segs, c) == 0
  {
    if segs != [] && !HasCore(segs, c) {
      var n := |segs| - 1;
      assert segs[n].core != c;
      assert !HasCore(segs[..n], c);
    }
  }

  /** The record part of one split tile: open a new record when the tile changes, then
      count the segment and hand out its scratch rows. */
  method CountSegment(ctx: Context, splitInfo: array<SplitNode>, at: Cursor, b: int, n1: int, s1: int,
                      ghost segs: seq<Seg>, ghost c: int)
    returns (next: Cursor)
    requires ctx.Valid() && splitInfo.Length >= ctx.blockDim + 1 && 0 <= b < ctx.batchSize
    requires b != -1 && Recorded(ctx, segs, at, splitInfo[..ctx.blockDim + 1])
    requires |Runs(segs + [Seg(c, b, n1, s1)])| <= ctx.blockDim + 1
    modifies splitInfo
    ensures Recorded(ctx, segs + [Seg(c, b, n1, s1)], next, splitInfo[..ctx.blockDim + 1])
    ensures forall r :: ctx.blockDim + 1 <= r < splitInfo.Length ==> splitInfo[r] == old(splitInfo[r])
  {
    ghost var e := Seg(c, b, n1, s1);
    ghost var nodes := splitInfo[..ctx.blockDim + 1];
    hide *;
    CursorIs(ctx, segs, e, at, nodes);
    var p := GetBatchParams(ctx, b);
    var headStart, headEnd := HeadStart(ctx, p, n1), HeadEnd(ctx, p, n1);
    var qStart, qEnd := QStart(p, s1), QEnd(p, s1);
    next := at;
    if b != at.prevB || n1 != at.prevN1 || s1 != at.prevS1 {
      next := Cursor(at.splitIdx + 1, at.lse, at.o, b, n1, s1);
      if next.splitIdx < ctx.blockDim + 1 {
        splitInfo[next.splitIdx] := SplitNode(b, headStart, headEnd, qStart, qEnd, 0, at.lse, at.o);
      }
    }
    if 0 <= next.splitIdx < ctx.blockDim + 1 {
      var node := splitInfo[next.splitIdx];
      splitInfo[next.splitIdx] := node.(splitNum := node.splitNum + 1);
      next := next.(lse := next.lse + (headEnd - headStart) * (qEnd - qStart),
                    o := next.o + (headEnd - headStart) * (qEnd - qStart) * ctx.headSizeV);
    }
    ScaleSum(SizeOf(ctx, segs), (headEnd - headStart) * (qEnd - qStart), ctx.headSizeV);
    RecordedNext(ctx, segs, e, at, next, nodes, splitInfo[..ctx.blockDim + 1]);
  }

  /** Where the pass stands, and what one more segment adds. */
  lemma CursorIs(ctx: Context, segs: seq<Seg>, e: Seg, at: Cursor, nodes: seq<SplitNode>)
    requires ctx.Valid() && Recorded(ctx, segs, at, nodes) && 0 <= e.b < ctx.batchSize
    ensures InBatches(ctx, segs) && InBatches(ctx, segs + [e]) && |Runs(segs)| <= |nodes|
    ensures at.splitIdx == |Runs(segs)| - 1 && at.lse == SizeOf(ctx, segs) && at.o == SizeOf(ctx, segs) * ctx.headSizeV
    ensures var isNew := segs == [] || !SameTile(segs[|segs| - 1], e);
            && (isNew <==> e.b != at.prevB || e.n1 != at.prevN1 || e.s1 != at.prevS1)
            && |Runs(segs + [e])| == (if isNew then |Runs(segs)| + 1 else |Runs(segs)|)
            && (!isNew ==> |Runs(segs)| > 0)
    ensures var p := GetBatchParams(ctx, e.b);
            SizeOf(ctx, segs + [e])
              == SizeOf(ctx, segs) + (HeadEnd(ctx, p, e.n1) - HeadStart(ctx, p, e.n1)) * (QEnd(p, e.s1) - QStart(p, e.s1))
  {
    AppendRuns(segs, e);
    AppendSize(ctx, segs, e);
    hide GetBatchParams, HeadStart, HeadEnd, QStart, QEnd, Runs, SizeOf, RecordAt;
  }

  lemma ScaleSum(a: int, b: int, k: int)
    ensures a * k + b * k == (a + b) * k
  {
  }

  /** What the record array holds after one more segment. */
  lemma RecordedNext(ctx: Context, segs: seq<Seg>, e: Seg, at: Cursor, next: Cursor, nodes: seq<SplitNode>, nodes': seq<SplitNode>)
    requires ctx.Valid() && Recorded(ctx, segs, at, nodes) && 0 <= e.b < ctx.batchSize
    requires |nodes'| == |nodes|
    requires InBatches(ctx, segs + [e]) && |Runs(segs + [e])| <= |nodes|
    requires next.lse == SizeOf(ctx, segs + [e]) && next.o == SizeOf(ctx, segs + [e]) * ctx.headSizeV
    requires next.prevB == e.b && next.prevN1 == e.n1 && next.prevS1 == e.s1
    requires next.splitIdx == |Runs(segs + [e])| - 1
    requires segs == [] || !SameTile(segs[|segs| - 1], e) ==>
               var p := GetBatchParams(ctx, e.b);
               nodes' == nodes[|Runs(segs)| := SplitNode(e.b, HeadStart(ctx, p, e.n1), HeadEnd(ctx, p, e.n1), QStart(p, e.s1), QEnd(p, e.s1), 1, at.lse, at.o)]
    requires segs != [] && SameTile(segs[|segs| - 1], e) ==>
               var i := |Runs(segs)| - 1; nodes' == nodes[i := nodes[i].(splitNum := nodes[i].splitNum + 1)]
    ensures Recorded(ctx, segs + [e], next, nodes')
  {
    if segs == [] || !SameTile(segs[|segs| - 1], e) {
      NodesAfterNew(ctx, segs, e, at, nodes, nodes');
    } else {
      NodesAfterSame(ctx, segs, e, nodes, nodes');
    }
    hide GetBatchParams, HeadStart, HeadEnd, QStart, QEnd, Runs, SizeOf, RecordAt;
    assert (segs + [e])[|segs|] == e;
  }

  /** The record array lists the runs of `segs`, and nothing after them. */
  ghost predicate Listed(ctx: Context, segs: seq<Seg>, nodes: seq<SplitNode>)
    requires ctx.Valid() && InBatches(ctx, segs)
  {
    && |Runs(segs)| <= |nodes|
    && (forall r :: 0 <= r < |Runs(segs)| ==> nodes[r] == RecordAt(ctx, segs, r))
    && (forall r :: |Runs(segs)| <= r < |nodes| ==> nodes[r] == NO_SPLIT)
  }

  lemma NodesAfterNew(ctx: Context, segs: seq<Seg>, e: Seg, at: Cursor, nodes: seq<SplitNode>, nodes': seq<SplitNode>)
    requires ctx.Valid() && 0 <= e.b < ctx.batchSize && InBatches(ctx, segs) && Listed(ctx, segs, nodes)
    requires |Runs(segs)| < |nodes| == |nodes'| && InBatches(ctx, segs + [e])
    requires at.lse == SizeOf(ctx, segs) && at.o == SizeOf(ctx, segs) * ctx.headSizeV
    requires segs == [] || !SameTile(segs[|segs| - 1], e)
    requires var p := GetBatchParams(ctx, e.b);
             nodes' == nodes[|Runs(segs)| := SplitNode(e.b, HeadStart(ctx, p, e.n1), HeadEnd(ctx, p, e.n1), QStart(p, e.s1), QEnd(p, e.s1), 1, at.lse, at.o)]
    ensures Listed(ctx, segs + [e], nodes')
  {
    NewRecord(ctx, segs, e);
    hide GetBatchParams, HeadStart, HeadEnd, QStart, QEnd, Runs, SizeOf, RecordAt;
    forall r | 0 <= r < |Runs(segs)|
      ensures nodes'[r] == RecordAt(ctx, segs + [e], r)
    {
      KeptRecord(ctx, segs, e, r);
    }
  }

  lemma NodesAfterSame(ctx: Context, segs: seq<Seg>, e: Seg, nodes: seq<SplitNode>, nodes': seq<SplitNode>)
    requires ctx.Valid() && 0 <= e.b < ctx.batchSize && InBatches(ctx, segs) && Listed(ctx, segs, nodes)
    requires |nodes| == |nodes'| && InBatches(ctx, segs + [e])
    requires segs != [] && SameTile(segs[|segs| - 1], e)
    requires var i := |Runs(segs)| - 1; nodes' == nodes[i := nodes[i].(splitNum := nodes[i].splitNum + 1)]
    ensures Listed(ctx, segs + [e], nodes')
  {
    AppendRuns(segs, e);
    hide GetBatchParams, HeadStart, HeadEnd, QStart, QEnd, Runs, SizeOf, RecordAt;
    forall r | 0 <= r < |Runs(segs)|
      ensures nodes'[r] == RecordAt(ctx, segs + [e], r)
    {
      KeptRecord(ctx, segs, e, r);
    }
  }

  /** The cores before `upto` carry the scratch offsets of their first split segments. */
  ghost predicate Offsets(ctx: Context, segs: seq<Seg>, cores: seq<CoreNode>, infos: seq<CoreNode>, upto: int)
    requires ctx.Valid() && InBatches(ctx, segs)
  {
    && |infos| == |cores|
    && forall c :: 0 <= c < |cores| ==> infos[c] == if c < upto then WithFirst(ctx, segs, cores[c], c) else cores[c]
  }

  ghost function WithFirst(ctx: Context, segs: seq<Seg>, core: CoreNode, c: int): CoreNode
    requires ctx.Valid() && InBatches(ctx, segs)
  {
    core.(firstLse := FirstOffset(ctx, segs, c), firstO := FirstOffset(ctx, segs, c) * ctx.headSizeV)
  }

  lemma OffsetsNext(ctx: Context, segs: seq<Seg>, e: Seg, cores: seq<CoreNode>, infos: seq<CoreNode>, infos': seq<CoreNode>)
    requires ctx.Valid() && InBatches(ctx, segs) && 0 <= e.b < ctx.batchSize && InBatches(ctx, segs + [e])
    requires 0 <= e.core < |cores| && Offsets(ctx, segs, cores, infos, e.core + 1)
    requires infos' == if HasCore(segs, e.core) then infos
                       else infos[e.core := infos[e.core].(firstLse := SizeOf(ctx, segs), firstO := SizeOf(ctx, segs) * ctx.headSizeV)]
    ensures Offsets(ctx, segs + [e], cores, infos', e.core + 1)
    ensures HasCore(segs + [e], e.core)
  {
    hide SizeOf, FirstOffset, HasCore;
    AppendFirst(ctx, segs, e, e.core);
    forall c | 0 <= c < |cores|
      ensures infos'[c] == if c < e.core + 1 then WithFirst(ctx, segs + [e], cores[c], c) else cores[c]
    {
      AppendFirst(ctx, segs, e, c);
    }
  }

  /** Everything the pass knows between two tiles of core c. */
  ghost predicate PassState(ctx: Context, cores: seq<CoreNode>, segs: seq<Seg>, limit: Seg, at: Cursor,
                            nodes: seq<SplitNode>, infos: seq<CoreNode>, upto: int)
    requires ctx.Valid()
  {
    && SegList(ShapeOf(ctx), cores, segs, limit)
    && Recorded(ctx, segs, at, nodes)
    && Offsets(ctx, segs, cores, infos, upto)
  }

  lemma PassMoves(ctx: Context, cores: seq<CoreNode>, segs: seq<Seg>, limit: Seg, limit': Seg, at: Cursor,
                  nodes: seq<SplitNode>, infos: seq<CoreNode>, upto: int)
    requires ctx.Valid() && PassState(ctx, cores, segs, limit, at, nodes, infos, upto)
    requires !SegLess(limit', limit)
    requires forall f :: IsSplit(ShapeOf(ctx), cores, f) && !SegLess(f, limit) ==> !SegLess(f, limit')
    ensures PassState(ctx, cores, segs, limit', at, nodes, infos, upto)
  {
    hide ShapeOf, IsSplit;
    SegListMoves(ShapeOf(ctx), cores, segs, limit, limit');
  }

  /** At most one record per core, so the guards on the record array never fail. */
  lemma RoomForRuns(sh: Shape, cores: seq<CoreNode>, segs: seq<Seg>, limit: Seg)
    requires WellShaped(sh) && SoundTable(sh, cores) && SegList(sh, cores, segs, limit)
    ensures |Runs(segs)| <= |cores|
  {
    if |Runs(segs)| > 0 {
      RunCore(sh, cores, segs, limit, |Runs(segs)| - 1);
    }
  }

  /** A split segment: count it, and note its offset if it is the first one of its core. */
  method TakeSegment(ctx: Context, coreInfo: array<CoreNode>, splitInfo: array<SplitNode>, c: int,
                     b: int, n1: int, s1: int, at: Cursor, found: bool, ghost cores: seq<CoreNode>, ghost segs: seq<Seg>)
    returns (next: Cursor)
    requires ctx.Valid() && |cores| == ctx.blockDim <= coreInfo.Length && splitInfo.Length >= ctx.blockDim + 1
    requires 0 <= c < ctx.blockDim && 0 <= b < ctx.batchSize
    requires Recorded(ctx, segs, at, splitInfo[..ctx.blockDim + 1])
    requires Offsets(ctx, segs, cores, coreInfo[..ctx.blockDim], c + 1)
    requires |Runs(segs + [Seg(c, b, n1, s1)])| <= ctx.blockDim
    requires found <==> HasCore(segs, c)
    modifies coreInfo, splitInfo
    ensures Recorded(ctx, segs + [Seg(c, b, n1, s1)], next, splitInfo[..ctx.blockDim + 1])
    ensures Offsets(ctx, segs + [Seg(c, b, n1, s1)], cores, coreInfo[..ctx.blockDim], c + 1)
    ensures HasCore(segs + [Seg(c, b, n1, s1)], c)
    ensures forall i :: ctx.blockDim <= i < coreInfo.Length ==> coreInfo[i] == old(coreInfo[i])
    ensures forall i :: ctx.blockDim + 1 <= i < splitInfo.Length ==> splitInfo[i] == old(splitInfo[i])
  {
    ghost var e, infos := Seg(c, b, n1, s1), coreInfo[..ctx.blockDim];
    next := CountSegment(ctx, splitInfo, at, b, n1, s1, segs, c);
    if !found {
      coreInfo[c] := coreInfo[c].(firstLse := at.lse, firstO := at.o);
    }
    hide Offsets, SizeOf, HasCore, Listed;
    OffsetsNext(ctx, segs, e, cores, infos, coreInfo[..ctx.blockDim]);
  }

  /** One tile of core c's walk. */
  method VisitTile(ctx: Context, coreInfo: array<CoreNode>, splitInfo: array<SplitNode>, c: int, core: CoreNode,
                   b: int, n1: int, s1: int, at: Cursor, found: bool, ghost cores: seq<CoreNode>, ghost segs: seq<Seg>)
    returns (next: Cursor, found': bool, ghost segs': seq<Seg>)
    requires ctx.Valid() && |cores| == ctx.blockDim <= coreInfo.Length && splitInfo.Length >= ctx.blockDim + 1
    requires 0 <= c < ctx.blockDim && core == cores[c] && 0 <= b < ctx.batchSize
    requires SoundTable(ShapeOf(ctx), cores) && Visits(ShapeOf(ctx), core, b, n1, s1)
    requires PassState(ctx, cores, segs, Seg(c, b, n1, s1), at, splitInfo[..ctx.blockDim + 1], coreInfo[..ctx.blockDim], c + 1)
    requires found <==> HasCore(segs, c)
    modifies coreInfo, splitInfo
    ensures PassState(ctx, cores, segs', Seg(c, b, n1, s1 + 1), next, splitInfo[..ctx.blockDim + 1], coreInfo[..ctx.blockDim], c + 1)
    ensures found' <==> HasCore(segs', c)
    ensures forall i :: ctx.blockDim <= i < coreInfo.Length ==> coreInfo[i] == old(coreInfo[i])
    ensures forall i :: ctx.blockDim + 1 <= i < splitInfo.Length ==> splitInfo[i] == old(splitInfo[i])
  {
    ghost var sh, e, limit := ShapeOf(ctx), Seg(c, b, n1, s1), Seg(c, b, n1, s1 + 1);
    var p := GetBatchParams(ctx, b);
    assert sh.s2[b] == p.curKSBlockNum;
    var curStartS2 := FirstS2(core, b, n1, s1);
    var curEndS2 := if b == core.endB && n1 == core.endN1 && s1 == core.endS1 then core.endS2 else p.curKSBlockNum;
    var isSplitKV := 0 < curEndS2 - curStartS2 < p.curKSBlockNum;
    assert isSplitKV <==> IsSplit(sh, cores, e);
    next, found', segs' := at, found, segs;
    hide GetBatchParams, ShapeOf, IsSplit, SoundTable, Visits, Recorded, Offsets;
    if isSplitKV {
      SegListExtends(sh, cores, segs, e, limit);
      segs' := segs + [e];
      RoomForRuns(sh, cores, segs', limit);
      next := TakeSegment(ctx, coreInfo, splitInfo, c, b, n1, s1, at, found, cores, segs);
      found' := true;
    } else {
      PassMoves(ctx, cores, segs, e, limit, at, splitInfo[..ctx.blockDim + 1], coreInfo[..ctx.blockDim], c + 1);
    }
  }

  /** The walk over one core's tiles: three nested loops over batches, head blocks and
      query blocks. */
  method WalkCore(ctx: Context, coreInfo: array<CoreNode>, splitInfo: array<SplitNode>, c: int, core: CoreNode,
                  start: Cursor, ghost cores: seq<CoreNode>, ghost before: seq<Seg>)
    returns (at: Cursor, ghost segs: seq<Seg>)
    requires ctx.Valid() && |cores| == ctx.blockDim <= coreInfo.Length && splitInfo.Length >= ctx.blockDim + 1
    requires 0 <= c < ctx.blockDim && core == cores[c] && SoundTable(ShapeOf(ctx), cores)
    requires PassState(ctx, cores, before, Seg(c, core.startB, 0, 0), start, splitInfo[..ctx.blockDim + 1], coreInfo[..ctx.blockDim], c + 1)
    requires !HasCore(before, c) && 0 <= core.startB && core.endB < ctx.batchSize
    modifies coreInfo, splitInfo
    ensures PassState(ctx, cores, segs, Seg(c, Max(core.startB, core.endB + 1), 0, 0), at, splitInfo[..ctx.blockDim + 1], coreInfo[..ctx.blockDim], c + 1)
    ensures forall i :: ctx.blockDim <= i < coreInfo.Length ==> coreInfo[i] == old(coreInfo[i])
    ensures forall i :: ctx.blockDim + 1 <= i < splitInfo.Length ==> splitInfo[i] == old(splitInfo[i])
  {
    hide PassState, SoundTable, HasCore, ShapeOf, GetBatchParams, NeatCore;
    at, segs := start, before;
    var found := false;
    var b := core.startB;
    while b <= core.endB
      invariant core.startB <= b <= Max(core.startB, core.endB + 1)
      invariant PassState(ctx, cores, segs, Seg(c, b, 0, 0), at, splitInfo[..ctx.blockDim + 1], coreInfo[..ctx.blockDim], c + 1)
      invariant found <==> HasCore(segs, c)
      invariant forall i :: ctx.blockDim <= i < coreInfo.Length ==> coreInfo[i] == old(coreInfo[i])
      invariant forall i :: ctx.blockDim + 1 <= i < splitInfo.Length ==> splitInfo[i] == old(splitInfo[i])
    {
      at, found, segs := WalkBatch(ctx, coreInfo, splitInfo, c, core, b, at, found, cores, segs);
      b := b + 1;
    }
  }

  method WalkBatch(ctx: Context, coreInfo: array<CoreNode>, splitInfo: array<SplitNode>, c: int, core: CoreNode, b: int,
                   start: Cursor, wasFound: bool, ghost cores: seq<CoreNode>, ghost before: seq<Seg>)
    returns (at: Cursor, found: bool, ghost segs: seq<Seg>)
    requires ctx.Valid() && |cores| == ctx.blockDim <= coreInfo.Length && splitInfo.Length >= ctx.blockDim + 1
    requires 0 <= c < ctx.blockDim && core == cores[c] && SoundTable(ShapeOf(ctx), cores)
    requires core.startB <= b <= core.endB && 0 <= b < ctx.batchSize
    requires PassState(ctx, cores, before, Seg(c, b, 0, 0), start, splitInfo[..ctx.blockDim + 1], coreInfo[..ctx.blockDim], c + 1)
    requires wasFound <==> HasCore(before, c)
    modifies coreInfo, splitInfo
    ensures PassState(ctx, cores, segs, Seg(c, b + 1, 0, 0), at, splitInfo[..ctx.blockDim + 1], coreInfo[..ctx.blockDim], c + 1)
    ensures found <==> HasCore(segs, c)
    ensures forall i :: ctx.blockDim <= i < coreInfo.Length ==> coreInfo[i] == old(coreInfo[i])
    ensures forall i :: ctx.blockDim + 1 <= i < splitInfo.Length ==> splitInfo[i] == old(splitInfo[i])
  {
    hide *;
    var p := GetBatchParams(ctx, b);
    var curStartN1 := FirstN1(core, b);
    var curEndN1 := if b == core.endB then core.endN1 else p.curQNBlockNum - 1;
    HeadLoop(ctx, core, b);
    FirstsNatural(ctx, cores, c, b, 0);
    at, found, segs := start, wasFound, before;
    SkipHeads(ctx, cores, segs, c, b, 0, curStartN1, at, splitInfo[..ctx.blockDim + 1], coreInfo[..ctx.blockDim]);
    var n1 := curStartN1;
    while n1 <= curEndN1
      invariant curStartN1 <= n1
      invariant PassState(ctx, cores, segs, Seg(c, b, n1, 0), at, splitInfo[..ctx.blockDim + 1], coreInfo[..ctx.blockDim], c + 1)
      invariant found <==> HasCore(segs, c)
      invariant forall i :: ctx.blockDim <= i < coreInfo.Length ==> coreInfo[i] == old(coreInfo[i])
      invariant forall i :: ctx.blockDim + 1 <= i < splitInfo.Length ==> splitInfo[i] == old(splitInfo[i])
    {
      at, found, segs := WalkHead(ctx, coreInfo, splitInfo, c, core, b, n1, at, found, cores, segs);
      n1 := n1 + 1;
    }
    SkipBatch(ctx, cores, segs, c, b, n1, at, splitInfo[..ctx.blockDim + 1], coreInfo[..ctx.blockDim]);
  }

  method WalkHead(ctx: Context, coreInfo: array<CoreNode>, splitInfo: array<SplitNode>, c: int, core: CoreNode, b: int, n1: int,
                  start: Cursor, wasFound: bool, ghost cores: seq<CoreNode>, ghost before: seq<Seg>)
    returns (at: Cursor, found: bool, ghost segs: seq<Seg>)
    requires ctx.Valid() && |cores| == ctx.blockDim <= coreInfo.Length && splitInfo.Length >= ctx.blockDim + 1
    requires 0 <= c < ctx.blockDim && core == cores[c] && SoundTable(ShapeOf(ctx), cores)
    requires core.startB <= b <= core.endB && 0 <= b < ctx.batchSize
    requires FirstN1(core, b) <= n1 <= LastN1(ShapeOf(ctx), core, b)
    requires PassState(ctx, cores, before, Seg(c, b, n1, 0), start, splitInfo[..ctx.blockDim + 1], coreInfo[..ctx.blockDim], c + 1)
    requires wasFound <==> HasCore(before, c)
    modifies coreInfo, splitInfo
    ensures PassState(ctx, cores, segs, Seg(c, b, n1 + 1, 0), at, splitInfo[..ctx.blockDim + 1], coreInfo[..ctx.blockDim], c + 1)
    ensures found <==> HasCore(segs, c)
    ensures forall i :: ctx.blockDim <= i < coreInfo.Length ==> coreInfo[i] == old(coreInfo[i])
    ensures forall i :: ctx.blockDim + 1 <= i < splitInfo.Length ==> splitInfo[i] == old(splitInfo[i])
  {
    hide *;
    var p := GetBatchParams(ctx, b);
    var curStartS1 := FirstS1(core, b, n1);
    var curEndS1 := if b == core.endB && n1 == core.endN1 then core.endS1 else p.curQSBlockNum - 1;
    RowLoop(ctx, core, b, n1);
    FirstsNatural(ctx, cores, c, b, n1);
    at, found, segs := start, wasFound, before;
    SkipRows(ctx, cores, segs, c, b, n1, 0, curStartS1, at, splitInfo[..ctx.blockDim + 1], coreInfo[..ctx.blockDim]);
    var s1 := curStartS1;
    while s1 <= curEndS1
      invariant curStartS1 <= s1
      invariant PassState(ctx, cores, segs, Seg(c, b, n1, s1), at, splitInfo[..ctx.blockDim + 1], coreInfo[..ctx.blockDim], c + 1)
      invariant found <==> HasCore(segs, c)
      invariant forall i :: ctx.blockDim <= i < coreInfo.Length ==> coreInfo[i] == old(coreInfo[i])
      invariant forall i :: ctx.blockDim + 1 <= i < splitInfo.Length ==> splitInfo[i] == old(splitInfo[i])
    {
      InLoops(ctx, core, b, n1, s1);
      at, found, segs := VisitTile(ctx, coreInfo, splitInfo, c, core, b, n1, s1, at, found, cores, segs);
      s1 := s1 + 1;
    }
    SkipHead(ctx, cores, segs, c, b, n1, s1, at, splitInfo[..ctx.blockDim + 1], coreInfo[..ctx.blockDim]);
  }

  /* Between the visited tiles of a core there are no split segments. */

  lemma SkipRows(ctx: Context, cores: seq<CoreNode>, segs: seq<Seg>, c: int, b: int, n1: int, s1: int, s1': int,
                 at: Cursor, nodes: seq<SplitNode>, infos: seq<CoreNode>)
    requires ctx.Valid() && 0 <= c < |cores| && 0 <= b < ctx.batchSize && SoundTable(ShapeOf(ctx), cores)
    requires PassState(ctx, cores, segs, Seg(c, b, n1, s1), at, nodes, infos, c + 1)
    requires s1 <= s1' == FirstS1(cores[c], b, n1)
    ensures PassState(ctx, cores, segs, Seg(c, b, n1, s1'), at, nodes, infos, c + 1)
  {
    hide ShapeOf, PassState, SoundTable;
    PassMoves(ctx, cores, segs, Seg(c, b, n1, s1), Seg(c, b, n1, s1'), at, nodes, infos, c + 1);
  }

  lemma SkipHead(ctx: Context, cores: seq<CoreNode>, segs: seq<Seg>, c: int, b: int, n1: int, s1: int,
                 at: Cursor, nodes: seq<SplitNode>, infos: seq<CoreNode>)
    requires ctx.Valid() && 0 <= c < |cores| && 0 <= b < ctx.batchSize && SoundTable(ShapeOf(ctx), cores)
    requires PassState(ctx, cores, segs, Seg(c, b, n1, s1), at, nodes, infos, c + 1)
    requires s1 > LastS1(ShapeOf(ctx), cores[c], b, n1)
    ensures PassState(ctx, cores, segs, Seg(c, b, n1 + 1, 0), at, nodes, infos, c + 1)
  {
    SplitsAreNatural(ShapeOf(ctx), cores);
    hide ShapeOf, PassState, SoundTable;
    PassMoves(ctx, cores, segs, Seg(c, b, n1, s1), Seg(c, b, n1 + 1, 0), at, nodes, infos, c + 1);
  }

  lemma SkipHeads(ctx: Context, cores: seq<CoreNode>, segs: seq<Seg>, c: int, b: int, n1: int, n1': int,
                  at: Cursor, nodes: seq<SplitNode>, infos: seq<CoreNode>)
    requires ctx.Valid() && 0 <= c < |cores| && 0 <= b < ctx.batchSize && SoundTable(ShapeOf(ctx), cores)
    requires PassState(ctx, cores, segs, Seg(c, b, n1, 0), at, nodes, infos, c + 1)
    requires n1 <= n1' == FirstN1(cores[c], b)
    ensures PassState(ctx, cores, segs, Seg(c, b, n1', 0), at, nodes, infos, c + 1)
  {
    SplitsAreNatural(ShapeOf(ctx), cores);
    hide ShapeOf, PassState, SoundTable;
    PassMoves(ctx, cores, segs, Seg(c, b, n1, 0), Seg(c, b, n1', 0), at, nodes, infos, c + 1);
  }

  lemma SkipBatch(ctx: Context, cores: seq<CoreNode>, segs: seq<Seg>, c: int, b: int, n1: int,
                  at: Cursor, nodes: seq<SplitNode>, infos: seq<CoreNode>)
    requires ctx.Valid() && 0 <= c < |cores| && 0 <= b < ctx.batchSize && SoundTable(ShapeOf(ctx), cores)
    requires PassState(ctx, cores, segs, Seg(c, b, n1, 0), at, nodes, infos, c + 1)
    requires n1 > LastN1(ShapeOf(ctx), cores[c], b)
    ensures PassState(ctx, cores, segs, Seg(c, b + 1, 0, 0), at, nodes, infos, c + 1)
  {
    SplitsAreNatural(ShapeOf(ctx), cores);
    hide ShapeOf, PassState, SoundTable;
    PassMoves(ctx, cores, segs, Seg(c, b, n1, 0), Seg(c, b + 1, 0, 0), at, nodes, infos, c + 1);
  }

  lemma SplitsAreNatural(sh: Shape, cores: seq<CoreNode>)
    requires WellShaped(sh) && SoundTable(sh, cores)
    ensures forall f :: IsSplit(sh, cores, f) ==> f.b >= 0 && f.n1 >= 0 && f.s1 >= 0
  {
    forall f | IsSplit(sh, cores, f)
      ensures f.b >= 0 && f.n1 >= 0 && f.s1 >= 0
    {
      HoldsIsCovering(sh, cores, f);
    }
  }

  method ClearSplits(splitInfo: array<SplitNode>, n: nat)
    requires n <= splitInfo.Length
    modifies splitInfo
    ensures forall r :: 0 <= r < splitInfo.Length ==> splitInfo[r] == if r < n then NO_SPLIT else old(splitInfo[r])
  {
    for r := 0 to n
      invariant forall i :: 0 <= i < splitInfo.Length ==> splitInfo[i] == if i < r then NO_SPLIT else old(splitInfo[i])
    {
      splitInfo[r] := NO_SPLIT;
    }
  }

  /** The cores before `upto` are walked. */
  ghost predicate PassedCores(ctx: Context, cores: seq<CoreNode>, segs: seq<Seg>, upto: int, at: Cursor,
                              nodes: seq<SplitNode>, infos: seq<CoreNode>)
    requires ctx.Valid()
  {
    PassState(ctx, cores, segs, Seg(upto, 0, 0, 0), at, nodes, infos, upto)
  }

  lemma EnterCore(ctx: Context, cores: seq<CoreNode>, segs: seq<Seg>, c: int, at: Cursor,
                  nodes: seq<SplitNode>, infos: seq<CoreNode>)
    requires ctx.Valid() && 0 <= c < |cores| == |infos| && SoundTable(ShapeOf(ctx), cores)
    requires PassedCores(ctx, cores, segs, c, at, nodes, infos)
    ensures infos[c] == cores[c] && 0 <= cores[c].startB && cores[c].endB < ctx.batchSize
    ensures !HasCore(segs, c)
    ensures PassState(ctx, cores, segs, Seg(c, cores[c].startB, 0, 0), at, nodes, infos[c := cores[c].(firstLse := 0, firstO := 0)], c + 1)
  {
    var core := cores[c];
    assert SoundCore(ShapeOf(ctx), core);
    assert 0 <= core.startB && core.endB < ctx.batchSize;
    hide ShapeOf, SoundTable, SoundCore, SizeOf, FirstOffset, IsSplit, Recorded;
    OffsetsEnter(ctx, segs, c, cores, infos);
    PassMovesIn(ctx, cores, segs, c, at, nodes, infos);
  }

  lemma OffsetsEnter(ctx: Context, segs: seq<Seg>, c: int, cores: seq<CoreNode>, infos: seq<CoreNode>)
    requires ctx.Valid() && InBatches(ctx, segs) && 0 <= c < |cores| && Offsets(ctx, segs, cores, infos, c)
    requires forall i :: 0 <= i < |segs| ==> segs[i].core < c
    ensures !HasCore(segs, c) && infos[c] == cores[c]
    ensures Offsets(ctx, segs, cores, infos[c := cores[c].(firstLse := 0, firstO := 0)], c + 1)
  {
    NoFirst(ctx, segs, c);
    hide FirstOffset;
  }

  lemma PassMovesIn(ctx: Context, cores: seq<CoreNode>, segs: seq<Seg>, c: int, at: Cursor,
                    nodes: seq<SplitNode>, infos: seq<CoreNode>)
    requires ctx.Valid() && 0 <= c < |cores| && 0 <= cores[c].startB && SoundTable(ShapeOf(ctx), cores)
    requires PassedCores(ctx, cores, segs, c, at, nodes, infos)
    ensures PassState(ctx, cores, segs, Seg(c, cores[c].startB, 0, 0), at, nodes, infos, c)
  {
    SplitsAreNatural(ShapeOf(ctx), cores);
    hide PassState, ShapeOf, SoundTable;
    PassMoves(ctx, cores, segs, Seg(c, 0, 0, 0), Seg(c, cores[c].startB, 0, 0), at, nodes, infos, c);
  }

  lemma LeaveCore(ctx: Context, cores: seq<CoreNode>, segs: seq<Seg>, c: int, b: int, at: Cursor,
                  nodes: seq<SplitNode>, infos: seq<CoreNode>)
    requires ctx.Valid() && 0 <= c < |cores| && SoundTable(ShapeOf(ctx), cores) && b > cores[c].endB
    requires PassState(ctx, cores, segs, Seg(c, b, 0, 0), at, nodes, infos, c + 1)
    ensures PassedCores(ctx, cores, segs, c + 1, at, nodes, infos)
  {
    SplitsAreNatural(ShapeOf(ctx), cores);
    hide ShapeOf, PassState, SoundTable;
    PassMoves(ctx, cores, segs, Seg(c, b, 0, 0), Seg(c + 1, 0, 0, 0), at, nodes, infos, c + 1);
  }

  lemma StartPass(ctx: Context, cores: seq<CoreNode>, nodes: seq<SplitNode>, infos: seq<CoreNode>)
    requires ctx.Valid() && infos == cores && SoundTable(ShapeOf(ctx), cores)
    requires forall r :: 0 <= r < |nodes| ==> nodes[r] == NO_SPLIT
    ensures PassedCores(ctx, cores, [], 0, Cursor(-1, 0, 0, -1, -1, -1), nodes, infos)
  {
  }

  /** The outputs of the pass besides the two arrays. */
  datatype Totals = Totals(totalSplitNodeNum: int, splitLseTotalSize: int, splitOTotalSize: int)

  const SIZE_OF_32BIT := 4

  /** One round of the loop over cores. */
  method PassCore(ctx: Context, coreInfo: array<CoreNode>, splitInfo: array<SplitNode>, c: int, before: Cursor,
                  ghost cores: seq<CoreNode>, ghost segs: seq<Seg>)
    returns (at: Cursor, ghost segs': seq<Seg>)
    requires ctx.Valid() && |cores| == ctx.blockDim <= coreInfo.Length && splitInfo.Length >= ctx.blockDim + 1
    requires 0 <= c < ctx.blockDim && SoundTable(ShapeOf(ctx), cores)
    requires PassedCores(ctx, cores, segs, c, before, splitInfo[..ctx.blockDim + 1], coreInfo[..ctx.blockDim])
    modifies coreInfo, splitInfo
    ensures PassedCores(ctx, cores, segs', c + 1, at, splitInfo[..ctx.blockDim + 1], coreInfo[..ctx.blockDim])
    ensures forall i :: ctx.blockDim <= i < coreInfo.Length ==> coreInfo[i] == old(coreInfo[i])
    ensures forall i :: ctx.blockDim + 1 <= i < splitInfo.Length ==> splitInfo[i] == old(splitInfo[i])
  {
    hide *;
    EnterCore(ctx, cores, segs, c, before, splitInfo[..ctx.blockDim + 1], coreInfo[..ctx.blockDim]);
    var core := coreInfo[c];
    ghost var infos := coreInfo[..ctx.blockDim];
    coreInfo[c] := core.(firstLse := 0, firstO := 0);
    assert coreInfo[..ctx.blockDim] == infos[c := core.(firstLse := 0, firstO := 0)];
    at, segs' := WalkCore(ctx, coreInfo, splitInfo, c, core, before, cores, segs);
    ghost var b := Max(core.startB, core.endB + 1);
    assert b > core.endB by { MaxIsAbove(core.startB, core.endB + 1); }
    LeaveCore(ctx, cores, segs', c, b, at, splitInfo[..ctx.blockDim + 1], coreInfo[..ctx.blockDim]);
  }

  lemma MaxIsAbove(a: int, b: int)
    ensures Max(a, b) >= a && Max(a, b) >= b
  {
  }

  /** Find the shared tiles, write their records and hand out scratch rows. The clamp of the
      record count at the end never changes it. */
  method FillSplitInfoForFlashDecode(ctx: Context, coreInfo: array<CoreNode>, splitInfo: array<SplitNode>)
    returns (totals: Totals, ghost segs: seq<Seg>)
    requires ctx.Valid() && coreInfo.Length >= ctx.blockDim && splitInfo.Length >= ctx.blockDim + 1
    requires SoundTable(ShapeOf(ctx), coreInfo[..ctx.blockDim])
    modifies coreInfo, splitInfo
    ensures AllSegs(ShapeOf(ctx), old(coreInfo[..ctx.blockDim]), segs) && InBatches(ctx, segs)
    ensures Listed(ctx, segs, splitInfo[..ctx.blockDim + 1])
    ensures Offsets(ctx, segs, old(coreInfo[..ctx.blockDim]), coreInfo[..ctx.blockDim], ctx.blockDim)
    ensures totals == Totals(|Runs(segs)|, SizeOf(ctx, segs) * 4, SizeOf(ctx, segs) * ctx.headSizeV * 4)
    ensures forall i :: ctx.blockDim <= i < coreInfo.Length ==> coreInfo[i] == old(coreInfo[i])
    ensures forall i :: ctx.blockDim + 1 <= i < splitInfo.Length ==> splitInfo[i] == old(splitInfo[i])
  {
    ghost var cores := coreInfo[..ctx.blockDim];
    ClearSplits(splitInfo, ctx.blockDim + 1);
    var at := Cursor(-1, 0, 0, -1, -1, -1);
    segs := [];
    StartPass(ctx, cores, splitInfo[..ctx.blockDim + 1], coreInfo[..ctx.blockDim]);
    hide SoundTable, PassedCores, ShapeOf;
    for c := 0 to ctx.blockDim
      invariant PassedCores(ctx, cores, segs, c, at, splitInfo[..ctx.blockDim + 1], coreInfo[..ctx.blockDim])
      invariant forall i :: ctx.blockDim <= i < coreInfo.Length ==> coreInfo[i] == old(coreInfo[i])
      invariant forall i :: ctx.blockDim + 1 <= i < splitInfo.Length ==> splitInfo[i] == old(splitInfo[i])
    {
      at, segs := PassCore(ctx, coreInfo, splitInfo, c, at, cores, segs);
    }
    PassEnds(ctx, cores, segs, at, splitInfo[..ctx.blockDim + 1], coreInfo[..ctx.blockDim]);
    var actualSplitNum := if at.splitIdx + 1 > ctx.blockDim then ctx.blockDim else at.splitIdx + 1;
    totals := Totals(actualSplitNum, at.lse * SIZE_OF_32BIT, at.o * SIZE_OF_32BIT);
  }

  lemma PassEnds(ctx: Context, cores: seq<CoreNode>, segs: seq<Seg>, at: Cursor, nodes: seq<SplitNode>, infos: seq<CoreNode>)
    requires ctx.Valid() && |cores| == ctx.blockDim && SoundTable(ShapeOf(ctx), cores)
    requires PassedCores(ctx, cores, segs, ctx.blockDim, at, nodes, infos)
    ensures AllSegs(ShapeOf(ctx), cores, segs) && InBatches(ctx, segs) && Listed(ctx, segs, nodes)
    ensures Offsets(ctx, segs, cores, infos, ctx.blockDim)
    ensures at.splitIdx + 1 == |Runs(segs)| <= ctx.blockDim
    ensures at.lse == SizeOf(ctx, segs) && at.o == SizeOf(ctx, segs) * ctx.headSizeV
  {
    hide ShapeOf, SoundTable;
    RoomForRuns(ShapeOf(ctx), cores, segs, Seg(|cores|, 0, 0, 0));
  }
}
