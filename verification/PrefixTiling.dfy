/** Tiling of the backward pass on the host: endpoints of uniform sequences reconstructed from
    the totals alone, and a first-in-first-out cache of tilings. */
module PrefixTiling {
  import opened Arith
  import opened Wrappers
  import opened SplitParams

  /** Cumulative lengths as the device holds them: segments of at most `max` tokens that add
      up to `total`, all 32-bit values. */
  ghost predicate Prefixes(cu: seq<int>, batch: nat, max: nat, total: int) {
    && |cu| == batch + 1 && cu[0] == 0 && cu[batch] == total <= 0x7fff_ffff
    && forall i :: 0 <= i < batch ==> SegmentIn(cu, i, max)
  }

  predicate SegmentIn(cu: seq<int>, i: int, max: nat)
    requires 0 <= i < |cu| - 1
  {
    0 <= cu[i + 1] - cu[i] <= max
  }

  lemma {:induction false} PrefixAtMost(cu: seq<int>, batch: nat, max: nat, total: int, i: nat)
    requires Prefixes(cu, batch, max, total) && i <= batch
    ensures cu[i] <= i * max
    decreases i
  {
    if i > 0 {
      PrefixAtMost(cu, batch, max, total, i - 1);
      var j := i - 1;
      assert SegmentIn(cu, j, max);
      assert i * max == j * max + max;
    }
  }

  lemma {:induction false} PrefixAtLeast(cu: seq<int>, batch: nat, max: nat, total: int, i: nat)
    requires Prefixes(cu, batch, max, total) && i <= batch
    ensures cu[i] >= total - (batch - i) * max
    decreases batch - i
  {
    if i < batch {
      PrefixAtLeast(cu, batch, max, total, i + 1);
      assert SegmentIn(cu, i, max);
      assert (batch - i) * max == (batch - (i + 1)) * max + max;
    }
  }

  /** If the total is the largest possible one, there is only one way to place the segments. */
  lemma UniformPrefixes(cu: seq<int>, batch: nat, max: nat)
    requires Prefixes(cu, batch, max, batch * max)
    ensures forall i :: 0 <= i <= batch ==> cu[i] == i * max
  {
    forall i: nat | i <= batch
      ensures cu[i] == i * max
    {
      PrefixAtMost(cu, batch, max, batch * max, i);
      PrefixAtLeast(cu, batch, max, batch * max, i);
      assert (batch - i) * max == batch * max - i * max;
    }
  }

  /** Endpoints of `batch` segments of `max` tokens. */
  method Reconstruct(batch: nat, max: nat) returns (uniform: seq<int>)
    ensures |uniform| == batch && forall i :: 0 <= i < batch ==> uniform[i] == EndOf(i, max)
  {
    uniform := [];
    for i := 0 to batch
      invariant |uniform| == i && forall j :: 0 <= j < i ==> uniform[j] == EndOf(j, max)
    {
      uniform := uniform + [ToI32((i + 1) * max)];
    }
  }

  function EndOf(i: int, max: int): int { ToI32((i + 1) * max) }

  function Ends(batch: nat, max: nat): seq<int> { seq(batch, i requires 0 <= i < batch => EndOf(i, max)) }

  /** The reconstructed endpoints are the ones on the device. */
  lemma ReconstructedEnds(cu: seq<int>, batch: nat, max: nat)
    requires Prefixes(cu, batch, max, batch * max)
    ensures Ends(batch, max) == cu[1..]
  {
    UniformPrefixes(cu, batch, max);
    forall i | 0 <= i < batch
      ensures EndOf(i, max) == cu[1..][i]
    {
      MulMono(0, i + 1, max);
      MulMono(i + 1, batch, max);
    }
  }

  /* Requests. */

  datatype MaskType = NoMask | MaskCausal | MaskBand

  /** Everything but the sequence endpoints that enters a tiling; also the cache key. */
  datatype Key = Key(
    device: int, stream: int, batch: nat, totalQ: int, totalK: int, nheads: int, nheadsK: int, qHeadDim: int, vHeadDim: int,
    maxQ: int, maxK: int, scale: real, softcap: real, pDropout: real, maskType: MaskType, left: int, right: int,
    deterministic: bool, alibiStride: int, blockDim: int, aivNum: int, ubSize: int)

  /** A launch: packed sequences come with cumulative lengths on the device. */
  datatype Request = Request(key: Key, packed: bool, cuQ: seq<int>, cuK: seq<int>)

  /** What the tiling function is given. */
  datatype Info = Info(
    scale: real, softcap: real, keepProb: real, maskType: MaskType, packed: bool, batch: int, qSeqlen: int, qHeads: int,
    qkHeadDim: int, kvSeqlen: int, kvHeads: int, vHeadDim: int, left: int, right: int, deterministic: bool, alibiStride: int,
    qList: seq<int>, kvList: seq<int>, blockDim: int, aivNum: int, ubSize: int)

  datatype Tiling = Tiling(data: int, dropMaskMaxQ: int, dropMaskMaxK: int, workspace: int)

  function InfoOf(k: Key, packed: bool, qList: seq<int>, kvList: seq<int>): Info {
    Info(k.scale, k.softcap, 1.0 - k.pDropout, k.maskType, packed, k.batch, k.maxQ, k.nheads, k.qHeadDim, k.maxK, k.nheadsK,
         k.vHeadDim, k.left, if k.maskType == MaskCausal then 0 else k.right, k.deterministic, k.alibiStride,
         qList, kvList, k.blockDim, k.aivNum, k.ubSize)
  }

  /** The description of a launch, field by field. The list entries are the device endpoints. */
  ghost predicate Describes(i: Info, r: Request) {
    && i.qHeads == r.key.nheads && i.kvHeads == r.key.nheadsK && i.qkHeadDim == r.key.qHeadDim && i.vHeadDim == r.key.vHeadDim
    && i.batch == r.key.batch && i.qSeqlen == r.key.maxQ && i.kvSeqlen == r.key.maxK && i.packed == r.packed
    && i.scale == r.key.scale && i.softcap == r.key.softcap && i.keepProb + r.key.pDropout == 1.0
    && i.maskType == r.key.maskType && i.left == r.key.left
    && (r.key.maskType == MaskCausal ==> i.right == 0) && (r.key.maskType != MaskCausal ==> i.right == r.key.right)
    && i.deterministic == r.key.deterministic && i.alibiStride == r.key.alibiStride
    && i.blockDim == r.key.blockDim && i.aivNum == r.key.aivNum && i.ubSize == r.key.ubSize
    && EndsOf(i.qList, r.packed, r.cuQ) && EndsOf(i.kvList, r.packed, r.cuK)
  }

  predicate EndsOf(list: seq<int>, packed: bool, cu: seq<int>) {
    if packed then |cu| == |list| + 1 && forall j :: 0 <= j < |list| ==> list[j] == cu[j + 1] else list == []
  }

  /** A launch gets what the tiling function makes of its description, with the longest sequences
      noted beside it. */
  ghost predicate Answers(compute: Compute, r: Request, tiling: Option<Tiling>) {
    exists i :: Describes(i, r) && Holds(compute(i), r, tiling)
  }

  predicate Holds(made: Option<(int, int)>, r: Request, tiling: Option<Tiling>) {
    && (tiling.Some? <==> made.Some?)
    && (tiling.Some? ==>
          && tiling.value.data == made.value.0 && tiling.value.workspace == made.value.1
          && tiling.value.dropMaskMaxQ == r.key.maxQ && tiling.value.dropMaskMaxK == r.key.maxK)
  }

  lemma FreshAnswers(compute: Compute, r: Request)
    requires WellFormed(r)
    ensures Answers(compute, r, Fresh(compute, r))
  {
    var i := InfoOf(r.key, r.packed, if r.packed then r.cuQ[1..] else [], if r.packed then r.cuK[1..] else []);
    assert Describes(i, r);
  }

  /** There is only one description. */
  lemma OneDescription(i: Info, j: Info, r: Request)
    requires Describes(i, r) && Describes(j, r)
    ensures i == j
  {
    assert i.qList == j.qList && i.kvList == j.kvList;
  }

  /** Only the totals are looked at. */
  predicate Uniform(r: Request) {
    && r.packed && r.key.batch > 0 && r.key.maxQ > 0 && r.key.maxK > 0
    && r.key.totalQ == r.key.batch * r.key.maxQ && r.key.totalK == r.key.batch * r.key.maxK
  }

  /** Device prefixes are valid for the maxima and the totals of a packed request. */
  ghost predicate WellFormed(r: Request) {
    r.packed ==>
      && r.key.maxQ >= 0 && r.key.maxK >= 0
      && Prefixes(r.cuQ, r.key.batch, r.key.maxQ, r.key.totalQ) && Prefixes(r.cuK, r.key.batch, r.key.maxK, r.key.totalK)
  }

  lemma {:induction false} FullSegments(cu: seq<int>, batch: nat, max: nat, i: nat)
    requires |cu| == batch + 1 && cu[0] == 0 && i <= batch && forall j :: 0 <= j < batch ==> FullAt(cu, j, max)
    ensures cu[i] == i * max
    decreases i
  {
    if i > 0 {
      var j := i - 1;
      FullSegments(cu, batch, max, j);
      assert FullAt(cu, j, max);
      NextMultiple(j, max);
    }
  }

  predicate FullAt(cu: seq<int>, j: int, max: int)
    requires 0 <= j < |cu| - 1
  {
    cu[j + 1] - cu[j] == max
  }

  /** The totals tell exactly whether every sequence has the maximal length. */
  lemma UniformExactly(r: Request)
    requires WellFormed(r) && r.packed && r.key.batch > 0 && r.key.maxQ > 0 && r.key.maxK > 0
    ensures Uniform(r) <==> forall j :: 0 <= j < r.key.batch ==> FullAt(r.cuQ, j, r.key.maxQ) && FullAt(r.cuK, j, r.key.maxK)
  {
    var n := r.key.batch;
    if Uniform(r) {
      UniformPrefixes(r.cuQ, n, r.key.maxQ);
      UniformPrefixes(r.cuK, n, r.key.maxK);
      forall j | 0 <= j < n
        ensures FullAt(r.cuQ, j, r.key.maxQ) && FullAt(r.cuK, j, r.key.maxK)
      {
        NextMultiple(j, r.key.maxQ);
        NextMultiple(j, r.key.maxK);
        var k := j + 1;
        assert r.cuQ[k] == k * r.key.maxQ && r.cuK[k] == k * r.key.maxK;
      }
    }
    if forall j :: 0 <= j < n ==> FullAt(r.cuQ, j, r.key.maxQ) && FullAt(r.cuK, j, r.key.maxK) {
      FullSegments(r.cuQ, n, r.key.maxQ, n);
      FullSegments(r.cuK, n, r.key.maxK, n);
    }
  }

  /** The tiling function: deterministic, otherwise unknown; it may fail. */
  type Compute = Info -> Option<(int, int)>

  function Finish(k: Key, t: Option<(int, int)>): Option<Tiling> {
    match t
    case Some((data, workspace)) => Some(Tiling(data, k.maxQ, k.maxK, workspace))
    case None => None
  }

  /** What a launch gets when everything is computed afresh from the device prefixes. */
  ghost function Fresh(compute: Compute, r: Request): Option<Tiling>
    requires WellFormed(r)
  {
    Finish(r.key, compute(InfoOf(r.key, r.packed, if r.packed then r.cuQ[1..] else [], if r.packed then r.cuK[1..] else [])))
  }

  /** For uniform requests the key says it all. */
  function FromKey(compute: Compute, k: Key): Option<Tiling>
    requires k.maxQ >= 0 && k.maxK >= 0
  {
    Finish(k, compute(InfoOf(k, true, Ends(k.batch, k.maxQ), Ends(k.batch, k.maxK))))
  }

  lemma UniformFromKey(compute: Compute, r: Request)
    requires WellFormed(r) && Uniform(r)
    ensures FromKey(compute, r.key) == Fresh(compute, r)
  {
    ReconstructedEnds(r.cuQ, r.key.batch, r.key.maxQ);
    ReconstructedEnds(r.cuK, r.key.batch, r.key.maxK);
  }

  const CAPACITY := 32

  datatype Entry = Entry(key: Key, tiling: Tiling)

  class TilingCache {
    var entries: seq<Entry>
    const compute: Compute

    ghost predicate Valid()
      reads this
    {
      |entries| <= CAPACITY && forall i :: 0 <= i < |entries| ==> EntryHolds(entries[i])
    }

    predicate EntryHolds(e: Entry) {
      e.key.maxQ >= 0 && e.key.maxK >= 0 && FromKey(compute, e.key) == Some(e.tiling)
    }

    constructor (compute: Compute)
      ensures Valid() && entries == [] && this.compute == compute
    {
      this.compute := compute;
      entries := [];
    }

    /** The first entry with the key. */
    method Find(key: Key) returns (r: Option<Tiling>)
      requires Valid()
      ensures r.Some? ==> exists i :: 0 <= i < |entries| && entries[i] == Entry(key, r.value)
      ensures r.None? ==> forall i :: 0 <= i < |entries| ==> entries[i].key != key
    {
      for i := 0 to |entries|
        invariant forall j :: 0 <= j < i ==> entries[j].key != key
      {
        if entries[i].key == key { return Some(entries[i].tiling); }
      }
      r := None;
    }

    /** The tiling of a launch, whatever was launched before. */
    method Launch(r: Request) returns (tiling: Option<Tiling>)
      requires Valid() && WellFormed(r)
      modifies this
      ensures Valid() && |entries| <= 32 && tiling == Fresh(compute, r) && Answers(compute, r, tiling)
      ensures !Uniform(r) ==> entries == old(entries)
      ensures Uniform(r) && (exists i :: 0 <= i < |old(entries)| && old(entries)[i].key == r.key) ==> entries == old(entries)
      ensures Uniform(r) && (forall i :: 0 <= i < |old(entries)| ==> old(entries)[i].key != r.key) ==>
                entries == if tiling.None? then old(entries) else Pushed(old(entries), Entry(r.key, tiling.value))
    {
      FreshAnswers(compute, r);
      hide Answers;
      var uniform := Uniform(r);
      tiling := None;
      if uniform {
        UniformFromKey(compute, r);
        tiling := Find(r.key);
      }
      if tiling.None? {
        var qList, kvList := [], [];
        if uniform {
          qList := Reconstruct(r.key.batch, r.key.maxQ);
          kvList := Reconstruct(r.key.batch, r.key.maxK);
          assert qList == Ends(r.key.batch, r.key.maxQ) && kvList == Ends(r.key.batch, r.key.maxK);
        } else if r.packed {
          qList, kvList := r.cuQ[1..], r.cuK[1..];
        }
        hide Ends, EndOf, WellFormed, InfoOf;
        tiling := Finish(r.key, compute(InfoOf(r.key, r.packed, qList, kvList)));
        if uniform && tiling.Some? {
          if |entries| == CAPACITY {
            entries := entries[1..];
          }
          entries := entries + [Entry(r.key, tiling.value)];
        }
      }
    }
  }

  /** Append, dropping the oldest of 32 entries. */
  function Pushed(entries: seq<Entry>, e: Entry): seq<Entry> {
    (if |entries| == 32 then entries[1..] else entries) + [e]
  }

  /** After any further entries. */
  function PushedAll(entries: seq<Entry>, more: seq<Entry>): seq<Entry> {
    if more == [] then entries
    else
      var n := |more| - 1;
      Pushed(PushedAll(entries, more[..n]), more[n])
  }

  /** The cache holds the last 32 entries ever made, in the order in which they were made. */
  lemma {:induction false} LastEntriesStay(entries: seq<Entry>, more: seq<Entry>)
    requires |entries| <= 32
    ensures var all := entries + more; PushedAll(entries, more) == if |all| <= 32 then all else all[|all| - 32..]
  {
    if more == [] {
      assert entries + more == entries;
    } else {
      var n := |more| - 1;
      var before := entries + more[..n];
      LastEntriesStay(entries, more[..n]);
      assert entries + more == before + [more[n]];
    }
  }
}
