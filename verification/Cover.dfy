/** Positions in the four-level block space (batch, head block, query block, KV block),
    the ranges the per-core loops walk, and what it means for a list of cores to cover
    the space exactly once and in order. */
module Cover {

  /** Number of head blocks, query blocks and KV blocks of every batch. */
  datatype Shape = Shape(n1: seq<int>, s1: seq<int>, s2: seq<int>)

  /** A position; it denotes the block that starts there. */
  datatype Block = Block(b: int, n1: int, s1: int, s2: int)

  /** One entry of the per-core table: the first block and the (half-open) last block. */
  datatype CoreNode = CoreNode(
    startB: int, startN1: int, startS1: int, startS2: int,
    endB: int, endN1: int, endS1: int, endS2: int,
    firstLse: int, firstO: int)

  const IDLE := CoreNode(0, 0, 0, 0, 0, 0, 0, 0, 0, 0)

  ghost predicate WellShaped(sh: Shape) {
    |sh.n1| == |sh.s1| == |sh.s2| && forall b :: 0 <= b < |sh.s2| ==> sh.s2[b] >= 0
  }

  predicate ValidBlock(sh: Shape, x: Block)
    requires WellShaped(sh)
  {
    && 0 <= x.b < |sh.n1|
    && 0 <= x.n1 < sh.n1[x.b]
    && 0 <= x.s1 < sh.s1[x.b]
    && 0 <= x.s2 < sh.s2[x.b]
  }

  /** Strict lexicographic order of positions. */
  predicate Before(x: Block, y: Block) {
    x.b < y.b || (x.b == y.b &&
                  (x.n1 < y.n1 || (x.n1 == y.n1 &&
                                   (x.s1 < y.s1 || (x.s1 == y.s1 && x.s2 < y.s2)))))
  }

  function Start(c: CoreNode): Block { Block(c.startB, c.startN1, c.startS1, c.startS2) }

  function End(c: CoreNode): Block { Block(c.endB, c.endN1, c.endS1, c.endS2) }

  /* The bounds of the four nested loops that walk a core's range. */

  function FirstN1(c: CoreNode, b: int): int { if b == c.startB then c.startN1 else 0 }

  function LastN1(sh: Shape, c: CoreNode, b: int): int
    requires 0 <= b < |sh.n1|
  {
    if b == c.endB then c.endN1 else sh.n1[b] - 1
  }

  function FirstS1(c: CoreNode, b: int, n1: int): int {
    if b == c.startB && n1 == c.startN1 then c.startS1 else 0
  }

  function LastS1(sh: Shape, c: CoreNode, b: int, n1: int): int
    requires 0 <= b < |sh.s1|
  {
    if b == c.endB && n1 == c.endN1 then c.endS1 else sh.s1[b] - 1
  }

  function FirstS2(c: CoreNode, b: int, n1: int, s1: int): int {
    if b == c.startB && n1 == c.startN1 && s1 == c.startS1 then c.startS2 else 0
  }

  function LimitS2(sh: Shape, c: CoreNode, b: int, n1: int, s1: int): int
    requires 0 <= b < |sh.s2|
  {
    if b == c.endB && n1 == c.endN1 && s1 == c.endS1 then c.endS2 else sh.s2[b]
  }

  /** The outer three loops of core c reach the tile (b, n1, s1). */
  predicate Visits(sh: Shape, c: CoreNode, b: int, n1: int, s1: int)
    requires WellShaped(sh) && 0 <= b < |sh.n1|
  {
    && c.startB <= b <= c.endB
    && FirstN1(c, b) <= n1 <= LastN1(sh, c, b)
    && FirstS1(c, b, n1) <= s1 <= LastS1(sh, c, b, n1)
  }

  /** The four nested loops of core c reach the block x. */
  predicate Covers(sh: Shape, c: CoreNode, x: Block)
    requires WellShaped(sh)
  {
    && ValidBlock(sh, x)
    && Visits(sh, c, x.b, x.n1, x.s1)
    && FirstS2(c, x.b, x.n1, x.s1) <= x.s2 < LimitS2(sh, c, x.b, x.n1, x.s1)
  }

  /** The nested loops reach exactly the lexicographic half-open interval [Start, End). */
  lemma CoversIsInterval(sh: Shape, c: CoreNode, x: Block)
    requires WellShaped(sh) && ValidBlock(sh, x)
    ensures Covers(sh, c, x) <==> !Before(x, Start(c)) && Before(x, End(c))
  {
  }

  /** The end lies in a tile of its batch, if the batch has blocks at all. */
  ghost predicate NeatEnd(sh: Shape, e: Block)
    requires WellShaped(sh)
  {
    && 0 <= e.b < |sh.n1|
    && e.s2 <= sh.s2[e.b]
    && (sh.s1[e.b] > 0 && sh.s2[e.b] > 0 ==> e.n1 < sh.n1[e.b] && e.s1 < sh.s1[e.b])
  }

  ghost predicate Natural(x: Block) {
    x.b >= 0 && x.n1 >= 0 && x.s1 >= 0 && x.s2 >= 0
  }

  ghost predicate NeatCore(sh: Shape, c: CoreNode)
    requires WellShaped(sh)
  {
    Natural(Start(c)) && NeatEnd(sh, End(c))
  }

  /** Every block of the space is covered, and the cores take the blocks in ascending
      order; so no block is covered twice. */
  ghost predicate InOrderCover(sh: Shape, cores: seq<CoreNode>)
    requires WellShaped(sh)
  {
    && (forall x :: ValidBlock(sh, x) ==> exists c :: 0 <= c < |cores| && Covers(sh, cores[c], x))
    && Ordered(sh, cores)
  }

  ghost predicate Ordered(sh: Shape, cores: seq<CoreNode>)
    requires WellShaped(sh)
  {
    forall c, d, x, y ::
      0 <= c < d < |cores| && Covers(sh, cores[c], x) && Covers(sh, cores[d], y) ==> Before(x, y)
  }

  /** The first cores cover exactly the blocks before `limit`, in order. */
  ghost predicate PrefixCover(sh: Shape, cores: seq<CoreNode>, limit: Block)
    requires WellShaped(sh)
  {
    && (forall x :: ValidBlock(sh, x) && Before(x, limit) ==> exists c :: 0 <= c < |cores| && Covers(sh, cores[c], x))
    && (forall c, x :: 0 <= c < |cores| && Covers(sh, cores[c], x) ==> Before(x, limit))
    && Ordered(sh, cores)
  }

  /** No block lies between the two positions: they cut the space at the same place. */
  ghost predicate SameCut(sh: Shape, p: Block, q: Block)
    requires WellShaped(sh)
  {
    forall x :: ValidBlock(sh, x) ==> (Before(x, p) <==> Before(x, q))
  }

  /** A core that starts where its predecessors stopped extends the cover. */
  lemma ExtendCover(sh: Shape, cores: seq<CoreNode>, c: CoreNode, limit: Block, limit': Block)
    requires WellShaped(sh) && PrefixCover(sh, cores, limit)
    requires SameCut(sh, Start(c), limit) && SameCut(sh, End(c), limit')
    requires forall x :: ValidBlock(sh, x) && Before(x, limit) ==> Before(x, limit')
    ensures PrefixCover(sh, cores + [c], limit')
  {
    var all := cores + [c];
    forall x | ValidBlock(sh, x)
      ensures Covers(sh, c, x) <==> !Before(x, limit) && Before(x, limit')
    {
      CoversIsInterval(sh, c, x);
    }
    forall x | ValidBlock(sh, x) && Before(x, limit')
      ensures exists i :: 0 <= i < |all| && Covers(sh, all[i], x)
    {
      if Before(x, limit) {
        var i :| 0 <= i < |cores| && Covers(sh, cores[i], x);
        assert all[i] == cores[i];
      } else {
        assert all[|cores|] == c;
      }
    }
    forall i, x | 0 <= i < |all| && Covers(sh, all[i], x)
      ensures Before(x, limit')
    {
      if i < |cores| { assert all[i] == cores[i]; }
    }
    forall i, j, x, y | 0 <= i < j < |all| && Covers(sh, all[i], x) && Covers(sh, all[j], y)
      ensures Before(x, y)
    {
      assert all[i] == cores[i];
      if j < |cores| { assert all[j] == cores[j]; }
    }
  }

  /** Cores with an empty range may follow a complete prefix. */
  lemma IdleTail(sh: Shape, cores: seq<CoreNode>, idle: seq<CoreNode>, limit: Block)
    requires WellShaped(sh) && PrefixCover(sh, cores, limit)
    requires forall x :: ValidBlock(sh, x) ==> Before(x, limit)
    requires forall i :: 0 <= i < |idle| ==> Start(idle[i]) == End(idle[i])
    ensures InOrderCover(sh, cores + idle)
  {
    var all := cores + idle;
    forall x | ValidBlock(sh, x)
      ensures exists i :: 0 <= i < |all| && Covers(sh, all[i], x)
    {
      var i :| 0 <= i < |cores| && Covers(sh, cores[i], x);
      assert all[i] == cores[i];
    }
    forall i, x | |cores| <= i < |all| && ValidBlock(sh, x)
      ensures !Covers(sh, all[i], x)
    {
      assert all[i] == idle[i - |cores|];
      CoversIsInterval(sh, all[i], x);
    }
    forall i, j, x, y | 0 <= i < j < |all| && Covers(sh, all[i], x) && Covers(sh, all[j], y)
      ensures Before(x, y)
    {
      assert i < |cores| && j < |cores|;
      assert all[i] == cores[i] && all[j] == cores[j];
    }
  }

  /** In an in-order cover every block belongs to exactly one core. */
  lemma OneOwner(sh: Shape, cores: seq<CoreNode>, x: Block)
    requires WellShaped(sh) && InOrderCover(sh, cores) && ValidBlock(sh, x)
    ensures exists c ::
              && 0 <= c < |cores| && Covers(sh, cores[c], x)
              && forall d :: 0 <= d < |cores| && Covers(sh, cores[d], x) ==> d == c
  {
    var c :| 0 <= c < |cores| && Covers(sh, cores[c], x);
    forall d | 0 <= d < |cores| && Covers(sh, cores[d], x)
      ensures d == c
    {
      assert !Before(x, x);
    }
  }
}
