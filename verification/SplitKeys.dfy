/** The keys that the segments of a split tile stand for: consecutive stretches of the tile's
    KV blocks, in the order of the cores, from the first block to the last. */
module SplitKeys {
  import opened Cover
  import opened SplitSegments
  import opened CombineMath

  /** The keys of KV blocks lo, ..., hi - 1. */
  ghost function KeysBetween(block: int -> seq<Key>, lo: int, hi: int): seq<Key>
    decreases hi - lo
  {
    if hi <= lo then [] else KeysBetween(block, lo, hi - 1) + block(hi - 1)
  }

  lemma {:induction false} KeysJoin(block: int -> seq<Key>, a: int, b: int, c: int)
    requires a <= b <= c
    ensures KeysBetween(block, a, b) + KeysBetween(block, b, c) == KeysBetween(block, a, c)
    decreases c - b
  {
    if b < c {
      KeysJoin(block, a, b, c - 1);
      assert KeysBetween(block, a, b) + (KeysBetween(block, b, c - 1) + block(c - 1))
          == (KeysBetween(block, a, b) + KeysBetween(block, b, c - 1)) + block(c - 1);
    }
  }

  /** Stretches that follow each other make up the whole. */
  lemma {:induction false} StretchesJoin(block: int -> seq<Key>, cuts: seq<int>, parts: seq<seq<Key>>)
    requires |cuts| == |parts| + 1 && forall j :: 0 <= j < |parts| ==> Stretch(block, cuts, parts, j)
    ensures cuts[0] <= cuts[|parts|] && Flatten(parts) == KeysBetween(block, cuts[0], cuts[|parts|])
    decreases |parts|
  {
    var n := |parts|;
    if n > 0 {
      var cuts', parts' := cuts[..n], parts[..n - 1];
      forall j | 0 <= j < n - 1
        ensures Stretch(block, cuts', parts', j)
      {
        assert Stretch(block, cuts, parts, j);
      }
      StretchesJoin(block, cuts', parts');
      assert Stretch(block, cuts, parts, n - 1);
      KeysJoin(block, cuts[0], cuts[n - 1], cuts[n]);
    }
  }

  ghost predicate Stretch(block: int -> seq<Key>, cuts: seq<int>, parts: seq<seq<Key>>, j: int)
    requires |cuts| == |parts| + 1 && 0 <= j < |parts|
  {
    cuts[j] <= cuts[j + 1] && parts[j] == KeysBetween(block, cuts[j], cuts[j + 1])
  }

  /* The stretches of a run of segments. */

  function FirstBlock(cores: seq<CoreNode>, e: Seg): int
    requires 0 <= e.core < |cores|
  {
    FirstS2(cores[e.core], e.b, e.n1, e.s1)
  }

  function LimitBlock(sh: Shape, cores: seq<CoreNode>, e: Seg): int
    requires 0 <= e.core < |cores| && 0 <= e.b < |sh.s2|
  {
    LimitS2(sh, cores[e.core], e.b, e.n1, e.s1)
  }

  /** Segment i of the list lies in run r. */
  ghost predicate InRun(segs: seq<Seg>, r: int, i: int) {
    0 <= r < |Runs(segs)| && Runs(segs)[r] <= i < RunEnd(segs, r) && 0 <= i < |segs|
  }

  /** A segment's stretch is not empty and inside its tile. */
  lemma StretchIn(sh: Shape, cores: seq<CoreNode>, segs: seq<Seg>, i: int)
    requires WellShaped(sh) && SoundTable(sh, cores) && AllSegs(sh, cores, segs) && 0 <= i < |segs|
    ensures var e := segs[i];
            && 0 <= e.core < |cores| && 0 <= e.b < |sh.s2| && TileIn(sh, e.b, e.n1, e.s1)
            && 0 <= FirstBlock(cores, e) < LimitBlock(sh, cores, e) <= sh.s2[e.b]
    ensures forall k :: FirstBlock(cores, segs[i]) <= k < LimitBlock(sh, cores, segs[i]) ==>
                          Covers(sh, cores[segs[i].core], BlockOf(segs[i], k))
  {
    assert IsSplit(sh, cores, segs[i]);
    HoldsIsCovering(sh, cores, segs[i]);
  }

  function BlockOf(e: Seg, k: int): Block { Block(e.b, e.n1, e.s1, k) }

  /** Every block of the tile of a run lies in the stretch of one of its segments. */
  lemma BlockInRun(sh: Shape, cores: seq<CoreNode>, segs: seq<Seg>, r: int, k: int) returns (j: int)
    requires WellShaped(sh) && SoundTable(sh, cores) && AllSegs(sh, cores, segs) && 0 <= r < |Runs(segs)|
    requires 0 <= Runs(segs)[r] < |segs| && 0 <= segs[Runs(segs)[r]].b < |sh.s2|
    requires 0 <= k < sh.s2[segs[Runs(segs)[r]].b]
    ensures InRun(segs, r, j) && SameTile(segs[j], segs[Runs(segs)[r]])
    ensures 0 <= segs[j].core < |cores| && FirstBlock(cores, segs[j]) <= k < LimitBlock(sh, cores, segs[j])
  {
    var t := segs[Runs(segs)[r]];
    var x := BlockOf(t, k);
    StretchIn(sh, cores, segs, Runs(segs)[r]);
    assert ValidBlock(sh, x);
    var d :| 0 <= d < |cores| && Covers(sh, cores[d], x);
    CoveringIsHolding(sh, cores, d, x);
    assert t.(core := d) == Seg(d, x.b, x.n1, x.s1);
    hide SoundTable, AllSegs, Runs, RunEnd;
    j := OwnerInRun(sh, cores, segs, r, d);
    RunEndIn(segs, r, j);
    RunIsOneTile(segs, r, j);
  }

  lemma RunEndIn(segs: seq<Seg>, r: int, j: int)
    requires 0 <= r < |Runs(segs)| && Runs(segs)[r] <= j < RunEnd(segs, r) && j < |segs|
    ensures InRun(segs, r, j)
  {
  }

  /** Stretches of earlier segments of a run lie before those of later ones. */
  lemma StretchesAscend(sh: Shape, cores: seq<CoreNode>, segs: seq<Seg>, r: int, i: int, j: int)
    requires WellShaped(sh) && SoundTable(sh, cores) && AllSegs(sh, cores, segs)
    requires InRun(segs, r, i) && InRun(segs, r, j) && i < j
    ensures 0 <= segs[i].core < segs[j].core < |cores| && 0 <= segs[i].b < |sh.s2| && SameTile(segs[i], segs[j])
    ensures LimitBlock(sh, cores, segs[i]) <= FirstBlock(cores, segs[j])
  {
    RunIsOneTile(segs, r, i);
    RunIsOneTile(segs, r, j);
    RunCoresAscend(segs, r);
    StretchIn(sh, cores, segs, i);
    StretchIn(sh, cores, segs, j);
    var x, y := BlockOf(segs[i], LimitBlock(sh, cores, segs[i]) - 1), BlockOf(segs[j], FirstBlock(cores, segs[j]));
    assert Covers(sh, cores[segs[i].core], x) && Covers(sh, cores[segs[j].core], y);
    assert Before(x, y);
  }

  /** The first segment of a run starts at the first block. */
  lemma RunStarts(sh: Shape, cores: seq<CoreNode>, segs: seq<Seg>, r: int, first: int)
    requires WellShaped(sh) && SoundTable(sh, cores) && AllSegs(sh, cores, segs)
    requires InRun(segs, r, first) && first == Runs(segs)[r]
    ensures 0 <= segs[first].core < |cores| && FirstBlock(cores, segs[first]) == 0
  {
    StretchIn(sh, cores, segs, first);
    hide SoundTable, AllSegs, Covers, FirstBlock, LimitBlock, ValidBlock, InRun;
    var j := BlockInRun(sh, cores, segs, r, 0);
    RunFrom(segs, r, j);
    if j > first {
      StretchesAscend(sh, cores, segs, r, first, j);
    }
  }

  lemma RunFrom(segs: seq<Seg>, r: int, i: int)
    requires InRun(segs, r, i)
    ensures 0 <= r < |Runs(segs)| && Runs(segs)[r] <= i < RunEnd(segs, r) && 0 <= i < |segs|
    ensures 0 <= Runs(segs)[r] && segs[Runs(segs)[r]].b == segs[i].b
  {
    RunIsOneTile(segs, r, i);
  }

  /** A segment of a run starts where the one before it stops. */
  lemma RunFollows(sh: Shape, cores: seq<CoreNode>, segs: seq<Seg>, r: int, i: int)
    requires WellShaped(sh) && SoundTable(sh, cores) && AllSegs(sh, cores, segs)
    requires InRun(segs, r, i) && InRun(segs, r, i + 1)
    ensures 0 <= segs[i].core < |cores| && 0 <= segs[i + 1].core < |cores| && 0 <= segs[i].b < |sh.s2|
    ensures LimitBlock(sh, cores, segs[i]) == FirstBlock(cores, segs[i + 1])
  {
    StretchesAscend(sh, cores, segs, r, i, i + 1);
    StretchIn(sh, cores, segs, i);
    StretchIn(sh, cores, segs, i + 1);
    RunFrom(segs, r, i);
    hide SoundTable, AllSegs, Covers, FirstBlock, LimitBlock, ValidBlock, InRun;
    var k := LimitBlock(sh, cores, segs[i]);
    var j := BlockInRun(sh, cores, segs, r, k);
    if j < i {
      StretchesAscend(sh, cores, segs, r, j, i);
    } else if j > i + 1 {
      StretchesAscend(sh, cores, segs, r, i + 1, j);
    }
  }

  /** The last segment of a run stops at the last block. */
  lemma RunStops(sh: Shape, cores: seq<CoreNode>, segs: seq<Seg>, r: int, last: int)
    requires WellShaped(sh) && SoundTable(sh, cores) && AllSegs(sh, cores, segs)
    requires InRun(segs, r, last) && last == RunEnd(segs, r) - 1
    ensures 0 <= segs[last].core < |cores| && 0 <= segs[last].b < |sh.s2|
    ensures LimitBlock(sh, cores, segs[last]) == sh.s2[segs[last].b]
  {
    StretchIn(sh, cores, segs, last);
    RunFrom(segs, r, last);
    hide SoundTable, AllSegs, Covers, FirstBlock, LimitBlock, ValidBlock, InRun;
    var k := LimitBlock(sh, cores, segs[last]);
    if k < sh.s2[segs[last].b] {
      var j := BlockInRun(sh, cores, segs, r, k);
      RunFrom(segs, r, j);
      if j < last {
        StretchesAscend(sh, cores, segs, r, j, last);
      }
    }
  }

  /** `parts` are the keys of the stretches of the segments of run r, in order. */
  ghost predicate PartsOfRun(sh: Shape, cores: seq<CoreNode>, segs: seq<Seg>, r: int, block: int -> seq<Key>, parts: seq<seq<Key>>)
    requires WellShaped(sh) && 0 <= r < |Runs(segs)|
  {
    && |parts| == RunEnd(segs, r) - Runs(segs)[r]
    && forall j :: 0 <= j < |parts| ==> PartOfRun(sh, cores, segs, r, block, parts, j)
  }

  ghost predicate PartOfRun(sh: Shape, cores: seq<CoreNode>, segs: seq<Seg>, r: int, block: int -> seq<Key>, parts: seq<seq<Key>>, j: int)
    requires WellShaped(sh) && 0 <= r < |Runs(segs)| && 0 <= j < |parts|
  {
    var i := Runs(segs)[r] + j;
    && 0 <= i < |segs| && 0 <= segs[i].core < |cores| && 0 <= segs[i].b < |sh.s2|
    && parts[j] == KeysBetween(block, FirstBlock(cores, segs[i]), LimitBlock(sh, cores, segs[i]))
  }

  /** Where segment j of run r starts, and at the end where the tile stops. */
  ghost function CutAt(sh: Shape, cores: seq<CoreNode>, segs: seq<Seg>, r: int, j: int): int
    requires WellShaped(sh) && 0 <= r < |Runs(segs)|
  {
    var i := Runs(segs)[r] + j;
    if 0 <= i < RunEnd(segs, r) && i < |segs| && 0 <= segs[i].core < |cores| then FirstBlock(cores, segs[i])
    else if 0 <= segs[Runs(segs)[r]].b < |sh.s2| then sh.s2[segs[Runs(segs)[r]].b] else 0
  }

  lemma CutInside(sh: Shape, cores: seq<CoreNode>, segs: seq<Seg>, r: int, i: int)
    requires WellShaped(sh) && InRun(segs, r, i) && 0 <= segs[i].core < |cores|
    ensures CutAt(sh, cores, segs, r, i - Runs(segs)[r]) == FirstBlock(cores, segs[i])
  {
    hide FirstBlock;
  }

  lemma CutBehind(sh: Shape, cores: seq<CoreNode>, segs: seq<Seg>, r: int, i: int)
    requires WellShaped(sh) && InRun(segs, r, i) && i == RunEnd(segs, r) - 1 && 0 <= segs[i].b < |sh.s2|
    ensures CutAt(sh, cores, segs, r, i - Runs(segs)[r] + 1) == sh.s2[segs[i].b]
  {
    RunFrom(segs, r, i);
    hide FirstBlock;
  }

  lemma SegmentCuts(sh: Shape, cores: seq<CoreNode>, segs: seq<Seg>, r: int, i: int)
    requires WellShaped(sh) && SoundTable(sh, cores) && AllSegs(sh, cores, segs) && InRun(segs, r, i)
    ensures 0 <= segs[i].core < |cores| && 0 <= segs[i].b < |sh.s2|
    ensures CutAt(sh, cores, segs, r, i - Runs(segs)[r]) == FirstBlock(cores, segs[i])
    ensures CutAt(sh, cores, segs, r, i - Runs(segs)[r] + 1) == LimitBlock(sh, cores, segs[i])
    ensures FirstBlock(cores, segs[i]) <= LimitBlock(sh, cores, segs[i])
  {
    RunFrom(segs, r, i);
    hide *;
    StretchIn(sh, cores, segs, i);
    CutInside(sh, cores, segs, r, i);
    if i + 1 < RunEnd(segs, r) {
      RunEndBelow(segs, r, i + 1);
      RunFollows(sh, cores, segs, r, i);
      CutInside(sh, cores, segs, r, i + 1);
    } else {
      RunStops(sh, cores, segs, r, i);
      CutBehind(sh, cores, segs, r, i);
    }
  }

  lemma PartIsStretch(sh: Shape, cores: seq<CoreNode>, segs: seq<Seg>, r: int, block: int -> seq<Key>, parts: seq<seq<Key>>, j: int)
    requires WellShaped(sh) && SoundTable(sh, cores) && AllSegs(sh, cores, segs) && 0 <= r < |Runs(segs)|
    requires 0 <= j < |parts| == RunEnd(segs, r) - Runs(segs)[r] && PartOfRun(sh, cores, segs, r, block, parts, j)
    ensures CutAt(sh, cores, segs, r, j) <= CutAt(sh, cores, segs, r, j + 1)
    ensures parts[j] == KeysBetween(block, CutAt(sh, cores, segs, r, j), CutAt(sh, cores, segs, r, j + 1))
  {
    hide SoundTable, AllSegs, FirstBlock, LimitBlock, CutAt, Runs, RunEnd, KeysBetween;
    RunEndBelow(segs, r, Runs(segs)[r] + j);
    SegmentCuts(sh, cores, segs, r, Runs(segs)[r] + j);
  }

  lemma RunEndBelow(segs: seq<Seg>, r: int, i: int)
    requires 0 <= r < |Runs(segs)| && Runs(segs)[r] <= i < RunEnd(segs, r)
    ensures InRun(segs, r, i)
  {
    RunIsOneTile(segs, r, i);
  }

  /** The segments of a run stand for all keys of their tile, each once and in order. */
  lemma RunHasAllKeys(sh: Shape, cores: seq<CoreNode>, segs: seq<Seg>, r: int, block: int -> seq<Key>, parts: seq<seq<Key>>)
    requires WellShaped(sh) && SoundTable(sh, cores) && AllSegs(sh, cores, segs) && 0 <= r < |Runs(segs)|
    requires PartsOfRun(sh, cores, segs, r, block, parts)
    ensures 0 <= Runs(segs)[r] < |segs| && 0 <= segs[Runs(segs)[r]].b < |sh.s2|
    ensures Flatten(parts) == KeysBetween(block, 0, sh.s2[segs[Runs(segs)[r]].b])
  {
    var first, n := Runs(segs)[r], |parts|;
    RunIsOwners(sh, cores, segs, r);
    StretchIn(sh, cores, segs, first);
    assert InRun(segs, r, first);
    RunStarts(sh, cores, segs, r, first);
    hide *;
    var cuts := seq(n + 1, j => CutAt(sh, cores, segs, r, j));
    forall j | 0 <= j < n
      ensures Stretch(block, cuts, parts, j)
    {
      PartAt(sh, cores, segs, r, block, parts, j);
      PartIsStretch(sh, cores, segs, r, block, parts, j);
      StretchIs(block, cuts, parts, j);
    }
    CutEnds(sh, cores, segs, r, n);
    StretchesJoin(block, cuts, parts);
  }

  lemma StretchIs(block: int -> seq<Key>, cuts: seq<int>, parts: seq<seq<Key>>, j: int)
    requires |cuts| == |parts| + 1 && 0 <= j < |parts|
    requires cuts[j] <= cuts[j + 1] && parts[j] == KeysBetween(block, cuts[j], cuts[j + 1])
    ensures Stretch(block, cuts, parts, j)
  {
  }

  lemma PartAt(sh: Shape, cores: seq<CoreNode>, segs: seq<Seg>, r: int, block: int -> seq<Key>, parts: seq<seq<Key>>, j: int)
    requires WellShaped(sh) && 0 <= r < |Runs(segs)| && PartsOfRun(sh, cores, segs, r, block, parts) && 0 <= j < |parts|
    ensures |parts| == RunEnd(segs, r) - Runs(segs)[r] && PartOfRun(sh, cores, segs, r, block, parts, j)
  {
    hide PartOfRun;
  }

  lemma CutEnds(sh: Shape, cores: seq<CoreNode>, segs: seq<Seg>, r: int, n: int)
    requires WellShaped(sh) && 0 <= r < |Runs(segs)| && n == RunEnd(segs, r) - Runs(segs)[r] > 0
    requires 0 <= Runs(segs)[r] < |segs| && 0 <= segs[Runs(segs)[r]].b < |sh.s2| && 0 <= segs[Runs(segs)[r]].core < |cores|
    ensures CutAt(sh, cores, segs, r, 0) == FirstBlock(cores, segs[Runs(segs)[r]])
    ensures CutAt(sh, cores, segs, r, n) == sh.s2[segs[Runs(segs)[r]].b]
  {
    hide FirstBlock;
  }
}
