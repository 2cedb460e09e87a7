/** Requests with the same key that recomputation tells apart: on a new cache, every one of them
    gets a wrong answer. Two such inputs. */
module SparseCollision {
  import opened Arith
  import opened Wrappers
  import opened SparseLists
  import opened SparseGrid
  import opened SparsePacked
  import opened SparseRequest
  import opened SparseAlike
  import opened SparseCache
  import opened SparseAnswers

  /* A request from its tensors. */

  function RequestOf(p: Pattern, ids: seq<Id>, s: Scalars): Request
    requires |ids| == Supplied(p)
  {
    var a := 2 + One(p.fullCnt);
    var b := a + One(p.fullIdx);
    var d := b + One(p.cuRows);
    var e := d + One(p.cuIdx);
    Request(ids[0], ids[1], Item(p.fullCnt, ids, 2), Item(p.fullIdx, ids, a), Item(p.cuRows, ids, b), Item(p.cuIdx, ids, d),
            Item(p.cuQ, ids, e), Item(p.cuK, ids, e + One(p.cuQ)), s)
  }

  function First(ids: seq<Id>, n: nat): seq<Id>
    requires n <= |ids|
  {
    ids[..n]
  }

  lemma OneMore(ids: seq<Id>, given: bool, at: nat)
    requires at + One(given) <= |ids|
    ensures First(ids, at) + Given(Item(given, ids, at)) == First(ids, at + One(given))
  {
  }

  lemma InputsJoin(r: Request, ids: seq<Id>, a: nat, b: nat, d: nat, e: nat, f: nat, n: nat)
    requires 2 <= a <= b <= d <= e <= f <= n <= |ids| && [r.maskCnt, r.maskIdx] == First(ids, 2)
    requires First(ids, 2) + Given(r.fullCnt) == First(ids, a) && First(ids, a) + Given(r.fullIdx) == First(ids, b)
    requires First(ids, b) + Given(r.cuRows) == First(ids, d) && First(ids, d) + Given(r.cuIdx) == First(ids, e)
    requires First(ids, e) + Given(r.cuQ) == First(ids, f) && First(ids, f) + Given(r.cuK) == First(ids, n)
    ensures Inputs(r) == First(ids, n)
  {
    hide Given;
  }

  lemma RequestParts(p: Pattern, ids: seq<Id>, s: Scalars)
    requires |ids| == Supplied(p)
    ensures var r := RequestOf(p, ids, s); Inputs(r) == ids && PatternOf(r) == p && r.scalars == s
  {
    var r, a := RequestOf(p, ids, s), 2 + One(p.fullCnt);
    var b := a + One(p.fullIdx);
    var d := b + One(p.cuRows);
    var e := d + One(p.cuIdx);
    var f := e + One(p.cuQ);
    var n := f + One(p.cuK);
    assert n == |ids|;
    PartsAre(p, ids, s);
    hide *;
    OneMore(ids, p.fullCnt, 2);
    OneMore(ids, p.fullIdx, a);
    OneMore(ids, p.cuRows, b);
    OneMore(ids, p.cuIdx, d);
    OneMore(ids, p.cuQ, e);
    OneMore(ids, p.cuK, f);
    InputsJoin(r, ids, a, b, d, e, f, n);
    FirstAll(ids);
  }

  /** The fields, one by one. */
  lemma PartsAre(p: Pattern, ids: seq<Id>, s: Scalars)
    requires |ids| == Supplied(p)
    ensures var r, a := RequestOf(p, ids, s), 2 + One(p.fullCnt);
            var b := a + One(p.fullIdx);
            var d := b + One(p.cuRows);
            var e := d + One(p.cuIdx);
            && [r.maskCnt, r.maskIdx] == First(ids, 2) && r.fullCnt == Item(p.fullCnt, ids, 2) && r.fullIdx == Item(p.fullIdx, ids, a)
            && r.cuRows == Item(p.cuRows, ids, b) && r.cuIdx == Item(p.cuIdx, ids, d)
            && r.cuQ == Item(p.cuQ, ids, e) && r.cuK == Item(p.cuK, ids, e + One(p.cuQ))
    ensures PatternOf(RequestOf(p, ids, s)) == p && RequestOf(p, ids, s).scalars == s
  {
  }

  lemma FirstAll(ids: seq<Id>)
    ensures First(ids, |ids|) == ids
  {
  }

  /* Two requests on a new cache. */

  lemma NothingAnswers(cache: NormalizeCache, q: Request)
    requires cache.Valid() && cache.entries == [] && cache.InStore(Inputs(q))
    ensures cache.Hit(q).None? && cache.PatternUsed(q) == PatternOf(q)
  {
  }

  lemma OneEntryAnswers(cache: NormalizeCache, key: Key, ids: seq<Id>)
    requires Cacheable(key) && |key.inputs| == |key.versions| && cache.InStore(key.inputs)
    requires key.versions == VersionsOf(cache.tensors, key.inputs)
    requires cache.Kept([], key, Some(ids))
    ensures AnsweredBy(cache.tensors, cache.entries, key) == Some(0)
  {
    var e := EntryFor(cache.tensors, key, ids);
    assert cache.entries == [e];
    var n := |key.inputs|;
    forall i | 0 <= i < |e.saved|
      ensures e.saved[i].0 < |cache.tensors| && cache.tensors[e.saved[i].0].version == Some(e.saved[i].1)
    {
      if i < n { assert e.saved[i] == (key.inputs[i], key.versions[i].value); }
      else { assert e.saved[i] == (ids[i - n], cache.tensors[ids[i - n]].version.value); }
    }
  }

  lemma NextHits(cache: NormalizeCache, k: Request, key: Key, ids: seq<Id>)
    requires cache.Valid() && cache.InStore(Inputs(k)) && cache.KeyOf(k) == key && Cacheable(key)
    requires cache.Kept([], key, Some(ids)) && key in cache.patterns
    requires cache.check(PatternOf(k), k.scalars, ContentsOf(cache.tensors, Inputs(k)))
    ensures cache.Hit(k).Some? && cache.PatternUsed(k) == cache.patterns[key]
  {
    OneEntryAnswers(cache, key, ids);
    hide AnsweredBy, Sound, Inputs;
  }

  /** Tensors c, requested with pattern p and then with pattern k: the second answer is right if and
      only if the first one serves. So wherever it does not serve, a cached answer is wrong. */
  method AnswerBoth(cpu: bool, p: Pattern, k: Pattern, s: Scalars, c: seq<Content>)
    returns (cache: NormalizeCache, r: Request, second: Option<seq<Id>>)
    requires |c| == Supplied(p) == Supplied(k) && Normalisation(cpu)(p, s, c).Some? && FirstChecks()(k, s, c)
    ensures cache.Valid() && cache.canonical == Normalisation(cpu) && cache.check == FirstChecks()
    ensures PatternOf(r) == k && r.scalars == s && cache.InStore(Inputs(r)) && ContentsOf(cache.tensors, Inputs(r)) == c
    ensures second.Some?
    ensures (Agrees(cache.tensors, second, Normalisation(cpu)(k, s, c))) <==> Serves(cpu, p, k, s, c)
  {
    ChecksFirst(cpu);
    hide Normalisation, FirstChecks, Serves, AllSound, Recorded, KeysDiffer, Checks, Grows, Agrees;
    cache := new NormalizeCache(Normalisation(cpu), FirstChecks());
    var ids := cache.NewTensors(c);
    var q := RequestOf(p, ids, s);
    r := RequestOf(k, ids, s);
    RequestParts(p, ids, s);
    RequestParts(k, ids, s);
    assert ContentsOf(cache.tensors, ids) == c;
    assert Cacheable(cache.KeyOf(q));
    hide *;
    second := AskBoth(cache, q, r);
    AnswerServes(cpu, p, k, s, c, second, cache.tensors);
  }

  /** Two requests with one key. */
  method AskBoth(cache: NormalizeCache, q: Request, k: Request) returns (second: Option<seq<Id>>)
    requires cache.Valid() && cache.entries == [] && cache.patterns == map[] && cache.InStore(Inputs(q))
    requires Inputs(q) == Inputs(k) && q.scalars == k.scalars && Cacheable(cache.KeyOf(q))
    requires var c := ContentsOf(cache.tensors, Inputs(q));
             cache.canonical(PatternOf(q), q.scalars, c).Some? && cache.check(PatternOf(k), q.scalars, c)
    modifies cache
    ensures cache.Valid() && |old(cache.tensors)| <= |cache.tensors| && cache.tensors[..|old(cache.tensors)|] == old(cache.tensors)
    ensures second.Some?
    ensures Agrees(cache.tensors, second, cache.canonical(PatternOf(q), q.scalars, ContentsOf(old(cache.tensors), Inputs(q))))
  {
    ghost var was, key := cache.tensors, cache.KeyOf(q);
    NothingAnswers(cache, q);
    hide Agrees, Inputs, PatternOf, Cacheable, AllSound, Recorded, KeysDiffer, Grows, Checks;
    var first := cache.Normalize(q);
    AgreesSome(cache.tensors, first, cache.canonical(PatternOf(q), q.scalars, ContentsOf(was, Inputs(q))));
    hide *;
    PrefixSame(was, cache.tensors, Inputs(q));
    SameKey(cache, q, k, key, was);
    NextHits(cache, k, key, first.value);
    second := cache.Normalize(k);
  }

  lemma SameKey(cache: NormalizeCache, q: Request, k: Request, key: Key, was: seq<Tensor>)
    requires Inputs(q) == Inputs(k) && q.scalars == k.scalars && forall i :: 0 <= i < |Inputs(q)| ==> Inputs(q)[i] < |was| <= |cache.tensors|
    requires key == Key(Inputs(q), VersionsOf(was, Inputs(q)), q.scalars)
    requires VersionsOf(cache.tensors, Inputs(q)) == VersionsOf(was, Inputs(q))
    ensures cache.InStore(Inputs(k)) && cache.KeyOf(k) == key
  {
    hide Inputs, VersionsOf;
  }

  lemma AgreesSome(tensors: seq<Tensor>, answer: Option<seq<Id>>, now: Option<seq<Content>>)
    requires Agrees(tensors, answer, now)
    ensures answer.Some? <==> now.Some?
  {
  }

  /* Two inputs. */

  function OneHead(seqQ: int, seqK: int, backward: bool): Scalars { Scalars(1, 1, seqQ, seqK, backward, None) }

  /** Packed lists with one row, naming columns 0 and 1; the boundary allows one row block of two,
      or one column block of two. */
  function PackedFields(): Fields {
    Volumes(1, 1, 0, 0);
    Volumes(1, 2, 0, 0);
    Fields(Data([1, 1], [2]), Data([1, 2], [0, 1]), None, None, Some(Line([0, 1])), Some(Line([0, 2])), Some(Line([0, 128])), None)
  }

  lemma PackedAccepted(cpu: bool, backward: bool)
    ensures Accepted(cpu, PackedFields(), OneHead(256, 256, backward))
    ensures Accepted(cpu, Swapped(PackedFields()), OneHead(256, 256, backward))
  {
  }

  lemma PackedRow(g: Fields, s: Scalars)
    requires (s == OneHead(256, 256, false) || s == OneHead(256, 256, true)) && (g == PackedFields() || g == Swapped(PackedFields()))
    ensures Sensible(s) && Validated(g, s) && BothFit(g, s) && PairFits(g.maskCnt, g.maskIdx, g, s)
    ensures ReaderOf(g, s) == if RowBoundary(g, s).Some? then Reader([1], [2], [0, 1], [0, 2]) else Reader([2], [1], [0, 1], [0, 2])
    ensures HeadOf(g.maskCnt, 0) == [2] && HeadOf(g.maskIdx, 0) == [0, 1] && RowBlocks(s) == ColBlocks(s) == 2
  {
    PackedAccepted(true, s.backward);
  }

  /** Row 0 of both readings: the second slot is read only if two columns are allowed. */
  lemma PackedReads(g: Fields, s: Scalars)
    requires (s == OneHead(256, 256, false) || s == OneHead(256, 256, true)) && (g == PackedFields() || g == Swapped(PackedFields()))
    ensures Sensible(s) && Validated(g, s) && BothFit(g, s) && UnpackPair(g.maskCnt, g.maskIdx, g, s).Some?
    ensures var a := UnpackPair(g.maskCnt, g.maskIdx, g, s).value;
            && a.batch == a.heads == 1 && a.rows == a.width == 2 && Cnt(a, 0, 0, 0) == 2
            && Live(a, 0, 0, 0) == if RowBoundary(g, s).Some? then [0, 1] else [0, 0]
  {
    PackedRow(g, s);
    PackedShape(g.maskCnt, g.maskIdx, g, s);
    PackedCells(g.maskCnt, g.maskIdx, g, s, 0, 0, 0);
    hide UnpackPair, PairFits, ReaderOf, HeadOf, Cnt, Idx, BothFit, Validated, CountPlace, SlotPlace, Live, RowBoundary;
    assert g.cuRows.Some?;
    RowZero(UnpackPair(g.maskCnt, g.maskIdx, g, s).value, ReaderOf(g, s));
  }

  lemma RowZero(a: Grid, r: Reader)
    requires a.width == 2 && (r == Reader([1], [2], [0, 1], [0, 2]) || r == Reader([2], [1], [0, 1], [0, 2]))
    requires Cnt(a, 0, 0, 0) == At([2], CountPlace(r.rows, r.cuRows, 0, 0, 1))
    requires Idx(a, 0, 0, 0, 0) == At([0, 1], SlotPlace(r.rows, r.cols, r.cuIdx, 0, 0, 0, 2))
    requires Idx(a, 0, 0, 0, 1) == At([0, 1], SlotPlace(r.rows, r.cols, r.cuIdx, 0, 0, 1, 2))
    ensures Cnt(a, 0, 0, 0) == 2 && Live(a, 0, 0, 0) == if r.rows == [1] then [0, 1] else [0, 0]
  {
    hide Cnt, Idx;
  }

  /** The boundary of the queries given for the keys: both are accepted, and they differ. */
  lemma PackedDiffer(cpu: bool, backward: bool)
    ensures var g, s := PackedFields(), OneHead(256, 256, backward);
            && Accepted(cpu, g, s) && Accepted(cpu, Swapped(g), s)
            && Normalised(cpu, Swapped(g), s) != Normalised(cpu, g, s)
  {
    var g, s := PackedFields(), OneHead(256, 256, backward);
    var k := Swapped(g);
    PackedAccepted(cpu, backward);
    PackedReads(g, s);
    PackedReads(k, s);
    PartialIs(g, s);
    PartialIs(k, s);
    assert g.cuQ.Some? && k.cuQ.None? && g.cuK.None? && k.cuK.Some?;
    assert g.maskCnt == k.maskCnt && g.maskIdx == k.maskIdx;
    assert (RowBoundary(g, s).Some?) != (RowBoundary(k, s).Some?);
    hide *;
    SwapAlike(cpu, g, s);
    AlikeIs(g, s);
    NotSameReading(UnpackPair(g.maskCnt, g.maskIdx, g, s).value, UnpackPair(g.maskCnt, g.maskIdx, k, s).value, s);
  }

  lemma PartialIs(g: Fields, s: Scalars)
    requires Sensible(s) && Validated(g, s) && BothFit(g, s) && g.fullCnt.None? && UnpackPair(g.maskCnt, g.maskIdx, g, s).Some?
    ensures UnpackBoth(g, s).Some? && UnpackBoth(g, s).value.0 == UnpackPair(g.maskCnt, g.maskIdx, g, s).value
  {
    hide UnpackPair;
  }

  lemma NotSameReading(a: Grid, b: Grid, s: Scalars)
    requires Sensible(s) && s.seqQ == s.seqK == 256 && a.batch == a.heads == b.batch == b.heads == 1 && a.rows == b.rows == 2
    requires (Live(a, 0, 0, 0) == [0, 1] && Live(b, 0, 0, 0) == [0, 0]) || (Live(a, 0, 0, 0) == [0, 0] && Live(b, 0, 0, 0) == [0, 1])
    ensures !SameReading(a, b, s)
  {
    assert InGrid(a, 0, 0, 0) && ColBlocks(s) == 2;
    assert Live(a, 0, 0, 0) != Live(b, 0, 0, 0);
    assert 1 in [0, 1] && 1 !in [0, 0];
    assert Names(a, 0, 0, 0, 1) <==> 1 in Live(a, 0, 0, 0);
    assert Names(b, 0, 0, 0, 1) <==> 1 in Live(b, 0, 0, 0);
    hide Live, Names;
  }

  /** Fixed lists of two query blocks and one key block, for at most 200 queries and 100 keys. */
  function FixedFields(): Fields {
    Volumes(1, 1, 2, 1);
    Fields(Data([1, 1, 2], [1, 1]), Data([1, 1, 2, 1], [0, 0]), None, None, None, None, Some(Line([0, 200])), None)
  }

  /** A boundary that the queries allow and the keys do not: the second one is refused. */
  lemma FixedDiffer()
    ensures var g, s := FixedFields(), OneHead(200, 100, false);
            && Accepted(true, g, s) && !Accepted(true, Swapped(g), s)
            && Normalised(true, g, s).Some? && Normalised(true, Swapped(g), s).None?
  {
    var g, s := FixedFields(), OneHead(200, 100, false);
    AcceptedIff(true, g, s);
    AcceptedIff(true, Swapped(g), s);
    hide Normalised;
    assert g.cuQ.value.values == [0, 200] && !SegmentFits([0, 200], 0, 100);
  }

  function WithQueries(packed: bool): Pattern { Pattern(false, false, packed, packed, true, false) }

  function WithKeys(packed: bool): Pattern { Pattern(false, false, packed, packed, false, true) }

  function PackedTensors(): seq<Content> {
    var g := PackedFields();
    [g.maskCnt, g.maskIdx, g.cuRows.value, g.cuIdx.value, g.cuQ.value]
  }

  function FixedTensors(): seq<Content> {
    var g := FixedFields();
    [g.maskCnt, g.maskIdx, g.cuQ.value]
  }

  lemma PackedAt()
    ensures |PackedTensors()| == Supplied(WithQueries(true)) == Supplied(WithKeys(true))
    ensures FieldsAt(WithQueries(true), PackedTensors()) == PackedFields()
    ensures FieldsAt(WithKeys(true), PackedTensors()) == Swapped(PackedFields())
  {
  }

  lemma FixedAt()
    ensures |FixedTensors()| == Supplied(WithQueries(false)) == Supplied(WithKeys(false))
    ensures FieldsAt(WithQueries(false), FixedTensors()) == FixedFields()
    ensures FieldsAt(WithKeys(false), FixedTensors()) == Swapped(FixedFields())
  {
  }

  /** Rows and columns that differ from those of recomputation, on any device, in either direction. */
  method WrongLists(cpu: bool, backward: bool) returns (cache: NormalizeCache, r: Request, answer: Option<seq<Id>>)
    ensures cache.Valid() && cache.canonical == Normalisation(cpu) && cache.InStore(Inputs(r))
    ensures Accepted(cpu, FieldsNow(cache.tensors, r), r.scalars)
    ensures !Agrees(cache.tensors, answer, Normalisation(cpu)(PatternOf(r), r.scalars, ContentsOf(cache.tensors, Inputs(r))))
  {
    var p, k, s, c := WithQueries(true), WithKeys(true), OneHead(256, 256, backward), PackedTensors();
    PackedAt();
    PackedDiffer(cpu, backward);
    Differs(cpu, p, k, s, c);
    hide *;
    cache, r, answer := AnswerBoth(cpu, p, k, s, c);
    InputPlaces(r);
    NowIs(cache.tensors, r, c);
  }

  lemma NowIs(tensors: seq<Tensor>, r: Request, c: seq<Content>)
    requires (forall i :: 0 <= i < |Inputs(r)| ==> Inputs(r)[i] < |tensors|) && ContentsOf(tensors, Inputs(r)) == c
    ensures |c| == Supplied(PatternOf(r)) && FieldsNow(tensors, r) == FieldsAt(PatternOf(r), c)
  {
    InputPlaces(r);
    hide Inputs, FieldsAt, Supplied;
  }

  lemma Differs(cpu: bool, p: Pattern, k: Pattern, s: Scalars, c: seq<Content>)
    requires |c| == Supplied(p) == Supplied(k) && Accepted(cpu, FieldsAt(p, c), s)
    requires Normalised(cpu, FieldsAt(k, c), s) != Normalised(cpu, FieldsAt(p, c), s) && Validated(FieldsAt(k, c), s)
    ensures Normalisation(cpu)(p, s, c).Some? && FirstChecks()(k, s, c) && !Serves(cpu, p, k, s, c)
  {
    SameResult(cpu, p, k, s, c);
    assert FirstChecks()(k, s, c);
    hide *;
    ServesExactly(cpu, p, k, s, c);
  }

  /** An answer where recomputation refuses the request. */
  method WrongAcceptance() returns (cache: NormalizeCache, r: Request, answer: Option<seq<Id>>)
    ensures cache.Valid() && cache.canonical == Normalisation(true) && cache.InStore(Inputs(r))
    ensures answer.Some? && !Accepted(true, FieldsNow(cache.tensors, r), r.scalars)
  {
    var p, k, s, c := WithQueries(false), WithKeys(false), OneHead(200, 100, false), FixedTensors();
    FixedAt();
    FixedDiffer();
    assert Validated(FieldsAt(k, c), s);
    Differs(true, p, k, s, c);
    hide *;
    cache, r, answer := AnswerBoth(true, p, k, s, c);
    NowIs(cache.tensors, r, c);
  }
}
