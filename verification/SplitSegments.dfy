/** The split segments of a finished per-core table: the (core, tile) pairs where a core
    holds a part, but not all, of a tile's KV blocks. */
module SplitSegments {
  import opened Cover
  import opened SplitParams
  import opened Tiles

  datatype Seg = Seg(core: int, b: int, n1: int, s1: int)

  predicate SameTile(e: Seg, f: Seg) { e.b == f.b && e.n1 == f.n1 && e.s1 == f.s1 }

  predicate TileLess(e: Seg, f: Seg) {
    e.b < f.b || (e.b == f.b && (e.n1 < f.n1 || (e.n1 == f.n1 && e.s1 < f.s1)))
  }

  /** Order of the walk: by core, then by tile. */
  predicate SegLess(e: Seg, f: Seg) {
    e.core < f.core || (e.core == f.core && TileLess(e, f))
  }

  /** Number of KV blocks of the tile that the loops of core c reach. */
  function Covered(sh: Shape, c: CoreNode, b: int, n1: int, s1: int): int
    requires WellShaped(sh) && 0 <= b < |sh.n1|
  {
    LimitS2(sh, c, b, n1, s1) - FirstS2(c, b, n1, s1)
  }

  /** Core e.core holds some blocks of the tile. */
  ghost predicate Holds(sh: Shape, cores: seq<CoreNode>, e: Seg)
    requires WellShaped(sh)
  {
    && 0 <= e.core < |cores| && 0 <= e.b < |sh.n1|
    && Visits(sh, cores[e.core], e.b, e.n1, e.s1)
    && Covered(sh, cores[e.core], e.b, e.n1, e.s1) > 0
  }

  /** ... but not all of them. */
  ghost predicate IsSplit(sh: Shape, cores: seq<CoreNode>, e: Seg)
    requires WellShaped(sh)
  {
    Holds(sh, cores, e) && Covered(sh, cores[e.core], e.b, e.n1, e.s1) < sh.s2[e.b]
  }

  /** A core whose range ends in a batch with query blocks, or that has no range. */
  ghost predicate SoundCore(sh: Shape, c: CoreNode)
    requires WellShaped(sh)
  {
    NeatCore(sh, c) && (sh.s1[c.endB] > 0 || Start(c) == End(c))
  }

  /** A table the split pass is run on. */
  ghost predicate SoundTable(sh: Shape, cores: seq<CoreNode>)
    requires WellShaped(sh)
  {
    InOrderCover(sh, cores) && forall c :: 0 <= c < |cores| ==> SoundCore(sh, cores[c])
  }

  ghost predicate TileIn(sh: Shape, b: int, n1: int, s1: int)
    requires WellShaped(sh)
  {
    0 <= b < |sh.n1| && 0 <= n1 < sh.n1[b] && 0 <= s1 < sh.s1[b]
  }

  /** Holding some blocks of a tile is covering a block of it. */
  lemma HoldsIsCovering(sh: Shape, cores: seq<CoreNode>, e: Seg)
    requires WellShaped(sh) && SoundTable(sh, cores) && Holds(sh, cores, e)
    ensures TileIn(sh, e.b, e.n1, e.s1)
    ensures var k := FirstS2(cores[e.core], e.b, e.n1, e.s1);
            0 <= k < LimitS2(sh, cores[e.core], e.b, e.n1, e.s1) <= sh.s2[e.b]
            && Covers(sh, cores[e.core], Block(e.b, e.n1, e.s1, k))
  {
    assert SoundCore(sh, cores[e.core]);
  }

  lemma CoveringIsHolding(sh: Shape, cores: seq<CoreNode>, c: int, x: Block)
    requires WellShaped(sh) && 0 <= c < |cores| && Covers(sh, cores[c], x)
    ensures Holds(sh, cores, Seg(c, x.b, x.n1, x.s1))
  {
  }

  /** Segments of later cores lie in the same tile or later ones. */
  lemma TilesAscend(sh: Shape, cores: seq<CoreNode>, e: Seg, f: Seg)
    requires WellShaped(sh) && SoundTable(sh, cores)
    requires Holds(sh, cores, e) && Holds(sh, cores, f) && e.core < f.core
    ensures !TileLess(f, e)
  {
    HoldsIsCovering(sh, cores, e);
    HoldsIsCovering(sh, cores, f);
    var x := Block(e.b, e.n1, e.s1, FirstS2(cores[e.core], e.b, e.n1, e.s1));
    var y := Block(f.b, f.n1, f.s1, FirstS2(cores[f.core], f.b, f.n1, f.s1));
    assert Before(x, y);
  }

  /** The missing part of a split tile is held, as a split segment, by another core. */
  lemma OtherHolder(sh: Shape, cores: seq<CoreNode>, e: Seg, k: int) returns (d: int)
    requires WellShaped(sh) && SoundTable(sh, cores) && IsSplit(sh, cores, e)
    requires 0 <= k < sh.s2[e.b] && !Covers(sh, cores[e.core], Block(e.b, e.n1, e.s1, k))
    ensures d != e.core && IsSplit(sh, cores, e.(core := d))
    ensures Covers(sh, cores[d], Block(e.b, e.n1, e.s1, k))
  {
    HoldsIsCovering(sh, cores, e);
    var x := Block(e.b, e.n1, e.s1, k);
    assert ValidBlock(sh, x);
    d :| 0 <= d < |cores| && Covers(sh, cores[d], x);
    CoveringIsHolding(sh, cores, d, x);
    SharedIsSplit(sh, cores, e, e.(core := d));
  }

  /** Two cores that hold blocks of one tile both hold less than all of it. */
  lemma SharedIsSplit(sh: Shape, cores: seq<CoreNode>, e: Seg, f: Seg)
    requires WellShaped(sh) && SoundTable(sh, cores)
    requires Holds(sh, cores, e) && Holds(sh, cores, f) && SameTile(e, f) && e.core != f.core
    ensures IsSplit(sh, cores, e) && IsSplit(sh, cores, f)
  {
    NotAll(sh, cores, e, f);
    NotAll(sh, cores, f, e);
  }

  lemma NotAll(sh: Shape, cores: seq<CoreNode>, e: Seg, f: Seg)
    requires WellShaped(sh) && SoundTable(sh, cores)
    requires Holds(sh, cores, e) && Holds(sh, cores, f) && SameTile(e, f) && e.core != f.core
    ensures IsSplit(sh, cores, e)
  {
    HoldsIsCovering(sh, cores, e);
    HoldsIsCovering(sh, cores, f);
    var x := Block(f.b, f.n1, f.s1, FirstS2(cores[f.core], f.b, f.n1, f.s1));
    assert !Before(x, x);
  }

  /* The list of split segments, in the order of the walk. */

  ghost predicate Sorted(segs: seq<Seg>) {
    forall i, j :: 0 <= i < j < |segs| ==> SegLess(segs[i], segs[j])
  }

  /** `segs` lists, in order, exactly the split segments before `limit`. */
  ghost predicate SegList(sh: Shape, cores: seq<CoreNode>, segs: seq<Seg>, limit: Seg)
    requires WellShaped(sh)
  {
    && Sorted(segs)
    && (forall i :: 0 <= i < |segs| ==> IsSplit(sh, cores, segs[i]) && SegLess(segs[i], limit))
    && (forall e :: IsSplit(sh, cores, e) && SegLess(e, limit) ==> e in segs)
  }

  lemma SegListExtends(sh: Shape, cores: seq<CoreNode>, segs: seq<Seg>, e: Seg, limit: Seg)
    requires WellShaped(sh) && SegList(sh, cores, segs, e) && SegLess(e, limit)
    requires IsSplit(sh, cores, e)
    requires forall f :: IsSplit(sh, cores, f) && SegLess(e, f) ==> !SegLess(f, limit)
    ensures SegList(sh, cores, segs + [e], limit)
  {
    hide IsSplit;
    var all := segs + [e];
    forall f | IsSplit(sh, cores, f) && SegLess(f, limit)
      ensures f in all
    {
      if f == e {
        assert all[|segs|] == f;
      } else {
        assert SegLess(f, e);
        assert f in segs;
      }
    }
  }

  lemma SegListMoves(sh: Shape, cores: seq<CoreNode>, segs: seq<Seg>, limit: Seg, limit': Seg)
    requires WellShaped(sh) && SegList(sh, cores, segs, limit) && !SegLess(limit', limit)
    requires forall f :: IsSplit(sh, cores, f) && !SegLess(f, limit) ==> !SegLess(f, limit')
    ensures SegList(sh, cores, segs, limit')
  {
    hide IsSplit;
  }

  /** The tiles never go down along the list. */
  lemma TilesUp(sh: Shape, cores: seq<CoreNode>, segs: seq<Seg>, limit: Seg, i: int, j: int)
    requires WellShaped(sh) && SoundTable(sh, cores) && SegList(sh, cores, segs, limit)
    requires 0 <= i < j < |segs|
    ensures !TileLess(segs[j], segs[i])
  {
    assert SegLess(segs[i], segs[j]);
    assert IsSplit(sh, cores, segs[i]) && IsSplit(sh, cores, segs[j]);
    if segs[i].core < segs[j].core {
      TilesAscend(sh, cores, segs[i], segs[j]);
    }
  }

  /* Runs of segments of one tile. */

  /** Index of the first segment of every run of segments of the same tile. */
  ghost function Runs(segs: seq<Seg>): (g: seq<int>)
    ensures forall r :: 0 <= r < |g| ==> 0 <= g[r] < |segs|
    ensures |segs| > 0 ==> |g| > 0
  {
    if segs == [] then []
    else
      var n := |segs| - 1;
      var g := Runs(segs[..n]);
      if n > 0 && SameTile(segs[n - 1], segs[n]) then g else g + [n]
  }

  ghost function RunEnd(segs: seq<Seg>, r: int): int
    requires 0 <= r < |Runs(segs)|
  {
    if r + 1 < |Runs(segs)| then Runs(segs)[r + 1] else |segs|
  }

  ghost predicate StartsRun(segs: seq<Seg>, i: int)
    requires 0 <= i < |segs|
  {
    i == 0 || !SameTile(segs[i - 1], segs[i])
  }

  /** The runs are listed in order, and each starts where the tile changes. */
  lemma {:induction false} RunsAreStarts(segs: seq<Seg>)
    ensures forall q, r :: 0 <= q < r < |Runs(segs)| ==> Runs(segs)[q] < Runs(segs)[r]
    ensures forall i :: 0 <= i < |segs| ==> (i in Runs(segs) <==> StartsRun(segs, i))
  {
    if segs != [] {
      var n := |segs| - 1;
      RunsAreStarts(segs[..n]);
      forall i | 0 <= i < |segs|
        ensures i in Runs(segs) <==> StartsRun(segs, i)
      {
        if i < n {
          assert StartsRun(segs[..n], i) == StartsRun(segs, i);
        }
      }
    }
  }

  /** All segments of a run have the tile of its first one. */
  lemma {:induction false} RunIsOneTile(segs: seq<Seg>, r: int, i: int)
    requires 0 <= r < |Runs(segs)| && Runs(segs)[r] <= i < RunEnd(segs, r)
    ensures i < |segs| && SameTile(segs[Runs(segs)[r]], segs[i])
    decreases i
  {
    RunsAreStarts(segs);
    var g := Runs(segs);
    if i > g[r] {
      RunIsOneTile(segs, r, i - 1);
      forall q | 0 <= q < |g|
        ensures g[q] != i
      {
        assert q <= r ==> g[q] <= g[r];
        assert r + 1 < q ==> g[r + 1] < g[q];
      }
      assert i !in g;
    }
  }

  /** Every segment lies in a run. */
  lemma {:induction false} RunOf(segs: seq<Seg>, i: int) returns (r: int)
    requires 0 <= i < |segs|
    ensures 0 <= r < |Runs(segs)| && Runs(segs)[r] <= i < RunEnd(segs, r)
    decreases i
  {
    RunsAreStarts(segs);
    var g := Runs(segs);
    if StartsRun(segs, i) {
      r :| 0 <= r < |g| && g[r] == i;
    } else {
      r := RunOf(segs, i - 1);
      assert i != RunEnd(segs, r);
    }
  }

  /** Two segments of one tile lie in one run. */
  lemma SameRun(sh: Shape, cores: seq<CoreNode>, segs: seq<Seg>, limit: Seg, r: int, q: int, i: int, j: int)
    requires WellShaped(sh) && SoundTable(sh, cores) && SegList(sh, cores, segs, limit)
    requires 0 <= r < |Runs(segs)| && Runs(segs)[r] <= i < RunEnd(segs, r)
    requires 0 <= q < |Runs(segs)| && Runs(segs)[q] <= j < RunEnd(segs, q)
    requires i < |segs| && j < |segs| && SameTile(segs[i], segs[j])
    ensures r == q
  {
    RunsAreStarts(segs);
    if r < q {
      NoChangeBetween(sh, cores, segs, limit, r, q, i, j);
    } else if q < r {
      NoChangeBetween(sh, cores, segs, limit, q, r, j, i);
    }
  }

  lemma NoChangeBetween(sh: Shape, cores: seq<CoreNode>, segs: seq<Seg>, limit: Seg, r: int, q: int, i: int, j: int)
    requires WellShaped(sh) && SoundTable(sh, cores) && SegList(sh, cores, segs, limit)
    requires 0 <= r < q < |Runs(segs)|
    requires 0 <= i < RunEnd(segs, r) && Runs(segs)[q] <= j < |segs|
    ensures !SameTile(segs[i], segs[j])
  {
    hide SoundTable, SegList, WellShaped, SameTile, StartsRun;
    RunsAreStarts(segs);
    var s := Runs(segs)[q];
    assert s in Runs(segs) && StartsRun(segs, s);
    assert i < s;
    ChangeKeeps(sh, cores, segs, limit, i, s, j);
  }

  lemma ChangeKeeps(sh: Shape, cores: seq<CoreNode>, segs: seq<Seg>, limit: Seg, i: int, s: int, j: int)
    requires WellShaped(sh) && SoundTable(sh, cores) && SegList(sh, cores, segs, limit)
    requires 0 <= i < s <= j < |segs| && StartsRun(segs, s)
    ensures !SameTile(segs[i], segs[j])
  {
    TilesUp(sh, cores, segs, limit, s - 1, s);
    if i < s - 1 { TilesUp(sh, cores, segs, limit, i, s - 1); }
    if s < j { TilesUp(sh, cores, segs, limit, s, j); }
    hide SegList, SoundTable;
  }

  /* The cores that share a tile. */

  ghost function Owners(sh: Shape, cores: seq<CoreNode>, t: Seg): set<int>
    requires WellShaped(sh)
  {
    set d | 0 <= d < |cores| && Holds(sh, cores, t.(core := d))
  }

  ghost function CoresOf(segs: seq<Seg>): set<int> {
    set i | 0 <= i < |segs| :: segs[i].core
  }

  lemma {:induction false} DistinctCores(segs: seq<Seg>)
    requires forall i, j :: 0 <= i < j < |segs| ==> segs[i].core < segs[j].core
    ensures |CoresOf(segs)| == |segs|
  {
    if segs != [] {
      var n := |segs| - 1;
      DistinctCores(segs[..n]);
      assert CoresOf(segs) == CoresOf(segs[..n]) + {segs[n].core};
      assert segs[n].core !in CoresOf(segs[..n]);
    }
  }

  /** The complete list of split segments of the table. */
  ghost predicate AllSegs(sh: Shape, cores: seq<CoreNode>, segs: seq<Seg>)
    requires WellShaped(sh)
  {
    SegList(sh, cores, segs, Seg(|cores|, 0, 0, 0))
  }

  /** A run lists exactly the cores that share its tile, and they are at least two. */
  lemma RunIsOwners(sh: Shape, cores: seq<CoreNode>, segs: seq<Seg>, r: int)
    requires WellShaped(sh) && SoundTable(sh, cores) && AllSegs(sh, cores, segs)
    requires 0 <= r < |Runs(segs)|
    ensures Runs(segs)[r] < RunEnd(segs, r) <= |segs|
    ensures var first := Runs(segs)[r];
            && Owners(sh, cores, segs[first]) == CoresOf(segs[first..RunEnd(segs, r)])
            && |Owners(sh, cores, segs[first])| == RunEnd(segs, r) - first >= 2
  {
    RunCoresAscend(segs, r);
    var first, end := Runs(segs)[r], RunEnd(segs, r);
    var run, t := segs[first..end], segs[first];
    DistinctCores(run);
    OwnersListed(sh, cores, segs, r);
    assert IsSplit(sh, cores, t);
    hide Owners, CoresOf, Sorted;
    var d := SecondOwner(sh, cores, t);
    assert t == t.(core := t.core);
    var i := OwnerInRun(sh, cores, segs, r, t.core);
    var j := OwnerInRun(sh, cores, segs, r, d);
  }

  lemma OwnerHolds(sh: Shape, cores: seq<CoreNode>, t: Seg, d: int)
    requires WellShaped(sh) && d in Owners(sh, cores, t)
    ensures Holds(sh, cores, t.(core := d))
  {
    hide Holds;
  }

  lemma CoreListed(run: seq<Seg>, k: int)
    requires 0 <= k < |run|
    ensures run[k].core in CoresOf(run)
  {
  }

  lemma ListedAt(run: seq<Seg>, d: int) returns (k: int)
    requires d in CoresOf(run)
    ensures 0 <= k < |run| && run[k].core == d
  {
    k :| 0 <= k < |run| && run[k].core == d;
  }

  lemma OwnersListed(sh: Shape, cores: seq<CoreNode>, segs: seq<Seg>, r: int)
    requires WellShaped(sh) && SoundTable(sh, cores) && AllSegs(sh, cores, segs)
    requires 0 <= r < |Runs(segs)| && 0 <= Runs(segs)[r] < RunEnd(segs, r) <= |segs|
    ensures Owners(sh, cores, segs[Runs(segs)[r]]) == CoresOf(segs[Runs(segs)[r]..RunEnd(segs, r)])
  {
    hide *;
    var first, end := Runs(segs)[r], RunEnd(segs, r);
    var run, t := segs[first..end], segs[first];
    forall d | d in Owners(sh, cores, t)
      ensures d in CoresOf(run)
    {
      OwnerHolds(sh, cores, t, d);
      var i := OwnerInRun(sh, cores, segs, r, d);
      CoreListed(run, i - first);
    }
    forall d | d in CoresOf(run)
      ensures d in Owners(sh, cores, t)
    {
      var k := ListedAt(run, d);
      ListedIsOwner(sh, cores, segs, r, first + k);
    }
  }

  lemma ListedIsOwner(sh: Shape, cores: seq<CoreNode>, segs: seq<Seg>, r: int, i: int)
    requires WellShaped(sh) && AllSegs(sh, cores, segs)
    requires 0 <= r < |Runs(segs)| && Runs(segs)[r] <= i < RunEnd(segs, r) <= |segs|
    ensures segs[i].core in Owners(sh, cores, segs[Runs(segs)[r]])
  {
    RunIsOneTile(segs, r, i);
    assert IsSplit(sh, cores, segs[i]);
    assert segs[i] == segs[Runs(segs)[r]].(core := segs[i].core);
  }

  lemma RunCoresAscend(segs: seq<Seg>, r: int)
    requires Sorted(segs) && 0 <= r < |Runs(segs)|
    ensures 0 <= Runs(segs)[r] < RunEnd(segs, r) <= |segs|
    ensures forall i, j :: Runs(segs)[r] <= i < j < RunEnd(segs, r) ==> segs[i].core < segs[j].core
  {
    RunsAreStarts(segs);
    forall i, j | Runs(segs)[r] <= i < j < RunEnd(segs, r)
      ensures segs[i].core < segs[j].core
    {
      RunIsOneTile(segs, r, i);
      RunIsOneTile(segs, r, j);
    }
  }

  lemma SecondOwner(sh: Shape, cores: seq<CoreNode>, t: Seg) returns (d: int)
    requires WellShaped(sh) && SoundTable(sh, cores) && IsSplit(sh, cores, t)
    ensures d != t.core && Holds(sh, cores, t.(core := d))
  {
    HoldsIsCovering(sh, cores, t);
    var c := cores[t.core];
    var k := if FirstS2(c, t.b, t.n1, t.s1) > 0 then 0 else LimitS2(sh, c, t.b, t.n1, t.s1);
    d := OtherHolder(sh, cores, t, k);
  }

  lemma OwnerInRun(sh: Shape, cores: seq<CoreNode>, segs: seq<Seg>, r: int, d: int) returns (i: int)
    requires WellShaped(sh) && SoundTable(sh, cores) && AllSegs(sh, cores, segs)
    requires 0 <= r < |Runs(segs)| && Holds(sh, cores, segs[Runs(segs)[r]].(core := d))
    ensures Runs(segs)[r] <= i < RunEnd(segs, r) && i < |segs| && segs[i].core == d
  {
    var first := Runs(segs)[r];
    var t := segs[first];
    var e := t.(core := d);
    assert IsSplit(sh, cores, t);
    if d != t.core {
      SharedIsSplit(sh, cores, t, e);
    } else {
      assert e == t;
    }
    assert e in segs;
    i :| 0 <= i < |segs| && segs[i] == e;
    RunsAreStarts(segs);
    var q := RunOf(segs, i);
    SameRun(sh, cores, segs, Seg(|cores|, 0, 0, 0), r, q, first, i);
  }

  /** A tile shared by two cores has a run, and only one. */
  lemma SharedHasRun(sh: Shape, cores: seq<CoreNode>, segs: seq<Seg>, e: Seg, f: Seg) returns (r: int)
    requires WellShaped(sh) && SoundTable(sh, cores) && AllSegs(sh, cores, segs)
    requires Holds(sh, cores, e) && Holds(sh, cores, f) && SameTile(e, f) && e.core != f.core
    ensures 0 <= r < |Runs(segs)| && SameTile(segs[Runs(segs)[r]], e)
  {
    SharedIsSplit(sh, cores, e, f);
    assert e in segs;
    var i :| 0 <= i < |segs| && segs[i] == e;
    r := RunOf(segs, i);
    RunIsOneTile(segs, r, i);
  }

  lemma RunsDiffer(sh: Shape, cores: seq<CoreNode>, segs: seq<Seg>, limit: Seg, q: int, r: int)
    requires WellShaped(sh) && SoundTable(sh, cores) && SegList(sh, cores, segs, limit)
    requires 0 <= q < r < |Runs(segs)|
    ensures !SameTile(segs[Runs(segs)[q]], segs[Runs(segs)[r]])
  {
    RunsAreStarts(segs);
    NoChangeBetween(sh, cores, segs, limit, q, r, Runs(segs)[q], Runs(segs)[r]);
  }

  /* Every run starts on a later core than the run before it. */

  /** A core that goes on to a later tile misses only the head of a split tile, and the head
      belongs to an earlier core. */
  lemma HeadElsewhere(sh: Shape, cores: seq<CoreNode>, e: Seg, f: Seg) returns (d: int)
    requires WellShaped(sh) && SoundTable(sh, cores) && IsSplit(sh, cores, e) && IsSplit(sh, cores, f)
    requires e.core == f.core && TileLess(e, f)
    ensures d < e.core && IsSplit(sh, cores, e.(core := d))
  {
    HoldsIsCovering(sh, cores, e);
    HoldsIsCovering(sh, cores, f);
    var c := cores[e.core];
    assert LimitS2(sh, c, e.b, e.n1, e.s1) == sh.s2[e.b];
    var first := FirstS2(c, e.b, e.n1, e.s1);
    assert first > 0;
    var x, y := Block(e.b, e.n1, e.s1, 0), Block(e.b, e.n1, e.s1, first);
    d := OtherHolder(sh, cores, e, 0);
    assert Before(x, y) && !Before(y, x);
  }

  lemma RunStartsAscend(sh: Shape, cores: seq<CoreNode>, segs: seq<Seg>, limit: Seg, r: int)
    requires WellShaped(sh) && SoundTable(sh, cores) && SegList(sh, cores, segs, limit)
    requires 0 <= r && r + 1 < |Runs(segs)|
    ensures segs[Runs(segs)[r]].core < segs[Runs(segs)[r + 1]].core
  {
    RunsAreStarts(segs);
    RunsDiffer(sh, cores, segs, limit, r, r + 1);
    var i, j := Runs(segs)[r], Runs(segs)[r + 1];
    assert SegLess(segs[i], segs[j]) && IsSplit(sh, cores, segs[i]) && IsSplit(sh, cores, segs[j]);
    if segs[i].core == segs[j].core {
      var d := HeadElsewhere(sh, cores, segs[i], segs[j]);
      var e := segs[i].(core := d);
      assert SegLess(e, segs[i]);
      assert e in segs;
      var k :| 0 <= k < |segs| && segs[k] == e;
      var q := RunOf(segs, k);
      SameRun(sh, cores, segs, limit, r, q, i, k);
    }
  }

  lemma {:induction false} RunCore(sh: Shape, cores: seq<CoreNode>, segs: seq<Seg>, limit: Seg, r: int)
    requires WellShaped(sh) && SoundTable(sh, cores) && SegList(sh, cores, segs, limit)
    requires 0 <= r < |Runs(segs)|
    ensures r <= segs[Runs(segs)[r]].core < |cores|
  {
    if r > 0 {
      RunCore(sh, cores, segs, limit, r - 1);
      RunStartsAscend(sh, cores, segs, limit, r - 1);
    }
    assert IsSplit(sh, cores, segs[Runs(segs)[r]]);
  }

  /** There are fewer split tiles than used cores. */
  lemma RunsBound(sh: Shape, cores: seq<CoreNode>, segs: seq<Seg>, used: int)
    requires WellShaped(sh) && SoundTable(sh, cores) && AllSegs(sh, cores, segs)
    requires 1 <= used <= |cores| && forall c :: used <= c < |cores| ==> cores[c] == IDLE
    ensures |Runs(segs)| <= used - 1
  {
    var n := |Runs(segs)|;
    if n > 0 {
      RunCore(sh, cores, segs, Seg(|cores|, 0, 0, 0), n - 1);
      RunIsOwners(sh, cores, segs, n - 1);
      RunCoresAscend(segs, n - 1);
      var first, last := Runs(segs)[n - 1], RunEnd(segs, n - 1) - 1;
      assert segs[first].core < segs[last].core;
      assert IsSplit(sh, cores, segs[last]);
    }
  }

  /* The loop bounds of the passes over a table. */

  lemma RowLoop(ctx: Context, core: CoreNode, b: int, n1: int)
    requires ctx.Valid() && 0 <= b < ctx.batchSize
    ensures b < |ShapeOf(ctx).s1| && b < |ShapeOf(ctx).n1|
    ensures LastS1(ShapeOf(ctx), core, b, n1)
         == if b == core.endB && n1 == core.endN1 then core.endS1 else GetBatchParams(ctx, b).curQSBlockNum - 1
  {
    hide GetBatchParams;
  }

  lemma HeadLoop(ctx: Context, core: CoreNode, b: int)
    requires ctx.Valid() && 0 <= b < ctx.batchSize
    ensures b < |ShapeOf(ctx).n1|
    ensures LastN1(ShapeOf(ctx), core, b) == if b == core.endB then core.endN1 else GetBatchParams(ctx, b).curQNBlockNum - 1
  {
    hide GetBatchParams;
  }

  lemma FirstsNatural(ctx: Context, cores: seq<CoreNode>, c: int, b: int, n1: int)
    requires ctx.Valid() && SoundTable(ShapeOf(ctx), cores) && 0 <= c < |cores|
    ensures FirstN1(cores[c], b) >= 0 && FirstS1(cores[c], b, n1) >= 0
  {
    assert SoundCore(ShapeOf(ctx), cores[c]);
    hide GetBatchParams;
  }

  lemma InLoops(ctx: Context, core: CoreNode, b: int, n1: int, s1: int)
    requires ctx.Valid() && 0 <= b < ctx.batchSize && core.startB <= b <= core.endB
    requires b < |ShapeOf(ctx).n1| && b < |ShapeOf(ctx).s1|
    requires FirstN1(core, b) <= n1 <= LastN1(ShapeOf(ctx), core, b) && FirstS1(core, b, n1) <= s1 <= LastS1(ShapeOf(ctx), core, b, n1)
    ensures Visits(ShapeOf(ctx), core, b, n1, s1)
  {
    hide GetBatchParams, ShapeOf;
  }
}
