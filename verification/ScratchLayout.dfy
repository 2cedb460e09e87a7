/** What the records and offsets of the split pass mean: which tiles get a record, how many
    cores share them, and how the scratch rows are laid out. */
module ScratchLayout {
  import opened Arith
  import opened Cover
  import opened SplitParams
  import opened Tiles
  import opened SplitSegments
  import opened SplitRecords

  /** The record of run r counts the cores that share its tile, at least two. */
  lemma RecordCountsOwners(ctx: Context, cores: seq<CoreNode>, segs: seq<Seg>, r: int)
    requires ctx.Valid() && SoundTable(ShapeOf(ctx), cores) && InBatches(ctx, segs)
    requires AllSegs(ShapeOf(ctx), cores, segs) && 0 <= r < |Runs(segs)|
    ensures var t := segs[Runs(segs)[r]];
            && TileIn(ShapeOf(ctx), t.b, t.n1, t.s1)
            && RecordAt(ctx, segs, r).splitNum == |Owners(ShapeOf(ctx), cores, t)| >= 2
  {
    var first := Runs(segs)[r];
    RunIsOwners(ShapeOf(ctx), cores, segs, r);
    assert IsSplit(ShapeOf(ctx), cores, segs[first]);
    HoldsIsCovering(ShapeOf(ctx), cores, segs[first]);
    hide SizeOf, Runs, Owners, GetBatchParams, HeadStart, HeadEnd, QStart, QEnd;
  }

  /** A tile has a record if and only if at least two cores share it, and then only one. */
  lemma RecordIffShared(ctx: Context, cores: seq<CoreNode>, segs: seq<Seg>, t: Seg)
    requires ctx.Valid() && SoundTable(ShapeOf(ctx), cores) && AllSegs(ShapeOf(ctx), cores, segs)
    ensures |Owners(ShapeOf(ctx), cores, t)| >= 2
       <==> exists r :: 0 <= r < |Runs(segs)| && SameTile(segs[Runs(segs)[r]], t)
    ensures forall q, r :: 0 <= q < r < |Runs(segs)| && SameTile(segs[Runs(segs)[q]], t) ==>
                             !SameTile(segs[Runs(segs)[r]], t)
  {
    var sh := ShapeOf(ctx);
    hide ShapeOf, SoundTable, SegList;
    if |Owners(sh, cores, t)| >= 2 {
      var c, d := TwoOwners(sh, cores, t);
      var r := SharedHasRun(sh, cores, segs, t.(core := c), t.(core := d));
      assert SameTile(segs[Runs(segs)[r]], t);
    }
    forall r | 0 <= r < |Runs(segs)| && SameTile(segs[Runs(segs)[r]], t)
      ensures |Owners(sh, cores, t)| >= 2
    {
      RunIsOwners(sh, cores, segs, r);
      SameOwners(sh, cores, segs[Runs(segs)[r]], t);
    }
    forall q, r | 0 <= q < r < |Runs(segs)| && SameTile(segs[Runs(segs)[q]], t)
      ensures !SameTile(segs[Runs(segs)[r]], t)
    {
      RunsDiffer(sh, cores, segs, Seg(|cores|, 0, 0, 0), q, r);
    }
  }

  lemma SameOwners(sh: Shape, cores: seq<CoreNode>, t: Seg, t': Seg)
    requires WellShaped(sh) && SameTile(t, t')
    ensures Owners(sh, cores, t) == Owners(sh, cores, t')
  {
    assert forall d :: t.(core := d) == t'.(core := d);
  }

  lemma TwoOwners(sh: Shape, cores: seq<CoreNode>, t: Seg) returns (c: int, d: int)
    requires WellShaped(sh) && |Owners(sh, cores, t)| >= 2
    ensures c != d && Holds(sh, cores, t.(core := c)) && Holds(sh, cores, t.(core := d))
  {
    var o := Owners(sh, cores, t);
    c :| c in o;
    assert |o - {c}| >= 1;
    d :| d in o - {c};
  }

  /* The scratch rows. */

  /** Segment i owns the scratch rows [SlotStart(i), SlotStart(i + 1)). */
  ghost function SlotStart(ctx: Context, segs: seq<Seg>, i: int): int
    requires ctx.Valid() && InBatches(ctx, segs) && 0 <= i <= |segs|
  {
    SizeOf(ctx, segs[..i])
  }

  ghost predicate TilesIn(ctx: Context, segs: seq<Seg>)
    requires ctx.Valid()
  {
    forall i :: 0 <= i < |segs| ==> TileIn(ShapeOf(ctx), segs[i].b, segs[i].n1, segs[i].s1)
  }

  lemma ListedTilesIn(ctx: Context, cores: seq<CoreNode>, segs: seq<Seg>, limit: Seg)
    requires ctx.Valid() && SoundTable(ShapeOf(ctx), cores) && SegList(ShapeOf(ctx), cores, segs, limit)
    ensures TilesIn(ctx, segs)
  {
    forall i | 0 <= i < |segs|
      ensures TileIn(ShapeOf(ctx), segs[i].b, segs[i].n1, segs[i].s1)
    {
      assert IsSplit(ShapeOf(ctx), cores, segs[i]);
      HoldsIsCovering(ShapeOf(ctx), cores, segs[i]);
    }
  }

  lemma SlotStep(ctx: Context, segs: seq<Seg>, i: int)
    requires ctx.Valid() && InBatches(ctx, segs) && TilesIn(ctx, segs) && 0 <= i < |segs|
    ensures SlotStart(ctx, segs, i + 1) == SlotStart(ctx, segs, i) + TileSize(ctx, segs[i].b, segs[i].n1, segs[i].s1)
    ensures SlotStart(ctx, segs, i) < SlotStart(ctx, segs, i + 1)
  {
    assert segs[..i + 1][..i] == segs[..i];
    assert TileIn(ShapeOf(ctx), segs[i].b, segs[i].n1, segs[i].s1);
    TileShape(ctx, segs[i].b, segs[i].n1, segs[i].s1);
  }

  lemma {:induction false} SlotsAscend(ctx: Context, segs: seq<Seg>, i: int, j: int)
    requires ctx.Valid() && InBatches(ctx, segs) && TilesIn(ctx, segs) && 0 <= i <= j <= |segs|
    ensures SlotStart(ctx, segs, i) <= SlotStart(ctx, segs, j)
    decreases j
  {
    if i < j {
      SlotsAscend(ctx, segs, i, j - 1);
      SlotStep(ctx, segs, j - 1);
    }
  }

  /** The slots fill [0, total) without gap or overlap: every scratch row belongs to exactly
      one segment. */
  lemma {:induction false} RowHasOneSlot(ctx: Context, segs: seq<Seg>, y: int) returns (i: int)
    requires ctx.Valid() && InBatches(ctx, segs) && TilesIn(ctx, segs) && 0 <= y < SizeOf(ctx, segs)
    ensures 0 <= i < |segs| && SlotStart(ctx, segs, i) <= y < SlotStart(ctx, segs, i + 1)
    ensures forall j :: 0 <= j < |segs| && SlotStart(ctx, segs, j) <= y < SlotStart(ctx, segs, j + 1) ==> j == i
  {
    assert segs[..|segs|] == segs;
    i := FindSlot(ctx, segs, |segs|, y);
    forall j | 0 <= j < |segs| && SlotStart(ctx, segs, j) <= y < SlotStart(ctx, segs, j + 1)
      ensures j == i
    {
      if j < i { SlotsAscend(ctx, segs, j + 1, i); }
      if i < j { SlotsAscend(ctx, segs, i + 1, j); }
    }
  }

  lemma {:induction false} FindSlot(ctx: Context, segs: seq<Seg>, n: int, y: int) returns (i: int)
    requires ctx.Valid() && InBatches(ctx, segs) && 0 <= n <= |segs| && 0 <= y < SlotStart(ctx, segs, n)
    ensures 0 <= i < n && SlotStart(ctx, segs, i) <= y < SlotStart(ctx, segs, i + 1)
    decreases n
  {
    if SlotStart(ctx, segs, n - 1) <= y {
      i := n - 1;
    } else {
      i := FindSlot(ctx, segs, n - 1, y);
    }
  }

  /** Scratch rows of every segment of run r. */
  ghost function RunRows(ctx: Context, segs: seq<Seg>, r: int): int
    requires ctx.Valid() && InBatches(ctx, segs) && 0 <= r < |Runs(segs)|
  {
    var t := segs[Runs(segs)[r]];
    TileSize(ctx, t.b, t.n1, t.s1)
  }

  lemma SegmentRows(ctx: Context, segs: seq<Seg>, r: int, i: int)
    requires ctx.Valid() && InBatches(ctx, segs) && TilesIn(ctx, segs)
    requires 0 <= r < |Runs(segs)| && Runs(segs)[r] <= i < RunEnd(segs, r)
    ensures i < |segs| && SameTile(segs[i], segs[Runs(segs)[r]])
    ensures SlotStart(ctx, segs, i + 1) == SlotStart(ctx, segs, i) + RunRows(ctx, segs, r)
  {
    RunIsOneTile(segs, r, i);
    SlotStep(ctx, segs, i);
    hide SizeOf, SlotStart, TileSize, TilesIn, Runs;
  }

  lemma {:induction false} SlotInRun(ctx: Context, segs: seq<Seg>, r: int, j: nat)
    requires ctx.Valid() && InBatches(ctx, segs) && TilesIn(ctx, segs)
    requires 0 <= r < |Runs(segs)| && Runs(segs)[r] + j < RunEnd(segs, r)
    ensures 0 <= Runs(segs)[r] + j < |segs|
    ensures SlotStart(ctx, segs, Runs(segs)[r] + j) == SlotStart(ctx, segs, Runs(segs)[r]) + j * RunRows(ctx, segs, r)
  {
    RunEndBound(segs, r);
    hide *;
    if j > 0 {
      SlotInRun(ctx, segs, r, j - 1);
      SegmentRows(ctx, segs, r, Runs(segs)[r] + (j - 1));
      NextMultiple(j - 1, RunRows(ctx, segs, r));
    }
  }

  lemma RunEndBound(segs: seq<Seg>, r: int)
    requires 0 <= r < |Runs(segs)|
    ensures 0 <= Runs(segs)[r] && RunEnd(segs, r) <= |segs|
  {
  }

  /** The rectangle noted in a record has as many rows as each of its segments. */
  lemma RecordRows(ctx: Context, segs: seq<Seg>, r: int)
    requires ctx.Valid() && InBatches(ctx, segs) && 0 <= r < |Runs(segs)|
    ensures var rec := RecordAt(ctx, segs, r);
            && (rec.headEndIdx - rec.headStartIdx) * (rec.qEndIdx - rec.qStartIdx) == RunRows(ctx, segs, r)
            && rec.lseTaskOffset == SlotStart(ctx, segs, Runs(segs)[r])
            && rec.oTaskOffset == rec.lseTaskOffset * ctx.headSizeV
  {
    hide GetBatchParams, HeadStart, HeadEnd, QStart, QEnd, SizeOf, Runs;
  }

  /** The j-th segment of a record owns the rows that start at the record's offset plus j
      times the rows of the tile; the offsets of the outputs are `headSizeV` times those. */
  lemma SlotOfSegment(ctx: Context, segs: seq<Seg>, r: int, i: int)
    requires ctx.Valid() && InBatches(ctx, segs) && TilesIn(ctx, segs)
    requires 0 <= r < |Runs(segs)| && Runs(segs)[r] <= i < RunEnd(segs, r)
    ensures i < |segs| && SameTile(segs[i], segs[Runs(segs)[r]])
    ensures var rec := RecordAt(ctx, segs, r);
            var rows := (rec.headEndIdx - rec.headStartIdx) * (rec.qEndIdx - rec.qStartIdx);
            && SlotStart(ctx, segs, i) == rec.lseTaskOffset + (i - Runs(segs)[r]) * rows
            && SlotStart(ctx, segs, i + 1) == SlotStart(ctx, segs, i) + rows
            && rec.oTaskOffset == rec.lseTaskOffset * ctx.headSizeV
  {
    SegmentRows(ctx, segs, r, i);
    SlotInRun(ctx, segs, r, i - Runs(segs)[r]);
    RecordRows(ctx, segs, r);
    hide *;
  }

  /** The split segments of one core are consecutive, and the offset noted for the core is
      the slot of its first one. */
  lemma CoreSlots(ctx: Context, segs: seq<Seg>, i: int)
    requires ctx.Valid() && InBatches(ctx, segs) && Sorted(segs) && 0 <= i < |segs|
    requires i == 0 || segs[i - 1].core != segs[i].core
    ensures FirstOffset(ctx, segs, segs[i].core) == SlotStart(ctx, segs, i)
    ensures forall j, k :: i <= j <= k < |segs| && segs[k].core == segs[i].core ==> segs[j].core == segs[i].core
  {
    assert forall j :: 0 <= j < i ==> segs[j].core != segs[i].core by {
      assert forall j :: 0 <= j < i ==> segs[j].core <= segs[i - 1].core;
    }
    FirstAt(ctx, segs, i, |segs|);
    assert segs[..|segs|] == segs;
  }

  lemma {:induction false} FirstAt(ctx: Context, segs: seq<Seg>, i: int, n: int)
    requires ctx.Valid() && InBatches(ctx, segs) && 0 <= i < n <= |segs|
    requires forall j :: 0 <= j < i ==> segs[j].core != segs[i].core
    ensures FirstOffset(ctx, segs[..n], segs[i].core) == SizeOf(ctx, segs[..i])
    decreases n
  {
    assert segs[..n][..n - 1] == segs[..n - 1];
    if n - 1 > i {
      FirstAt(ctx, segs, i, n - 1);
      assert segs[..n - 1][i].core == segs[i].core;
      assert HasCore(segs[..n - 1], segs[i].core);
    }
  }
}
