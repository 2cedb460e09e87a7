/** The cache with the normalisation it is used for: when an answer is the one that recomputation
    gives, and an input for which it is not. */
module SparseAnswers {
  import opened Wrappers
  import opened SparseGrid
  import opened SparsePacked
  import opened SparseRequest
  import opened SparseAlike
  import opened SparseCache

  /* The request behind a list of tensors. */

  function One(given: bool): nat { if given then 1 else 0 }

  /** Number of tensors that a request with this pattern supplies. */
  function Supplied(p: Pattern): nat {
    2 + One(p.fullCnt) + One(p.fullIdx) + One(p.cuRows) + One(p.cuIdx) + One(p.cuQ) + One(p.cuK)
  }

  function Item<T>(given: bool, c: seq<T>, at: nat): Option<T>
    requires given ==> at < |c|
  {
    if given then Some(c[at]) else None
  }

  /** The fields, given the supplied tensors in field order. */
  function FieldsAt(p: Pattern, c: seq<Content>): Fields
    requires |c| == Supplied(p)
  {
    var a := 2 + One(p.fullCnt);
    var b := a + One(p.fullIdx);
    var d := b + One(p.cuRows);
    var e := d + One(p.cuIdx);
    Fields(c[0], c[1], Item(p.fullCnt, c, 2), Item(p.fullIdx, c, a), Item(p.cuRows, c, b), Item(p.cuIdx, c, d),
           Item(p.cuQ, c, e), Item(p.cuK, c, e + One(p.cuQ)))
  }

  /** Where each tensor of a request is found. */
  lemma InputPlaces(r: Request)
    ensures |Inputs(r)| == Supplied(PatternOf(r)) && Inputs(r)[0] == r.maskCnt && Inputs(r)[1] == r.maskIdx
    ensures var p := PatternOf(r);
            var a := 2 + One(p.fullCnt);
            var b := a + One(p.fullIdx);
            var d := b + One(p.cuRows);
            var e := d + One(p.cuIdx);
            && (r.fullCnt.Some? ==> Inputs(r)[2] == r.fullCnt.value)
            && (r.fullIdx.Some? ==> Inputs(r)[a] == r.fullIdx.value)
            && (r.cuRows.Some? ==> Inputs(r)[b] == r.cuRows.value)
            && (r.cuIdx.Some? ==> Inputs(r)[d] == r.cuIdx.value)
            && (r.cuQ.Some? ==> Inputs(r)[e] == r.cuQ.value)
            && (r.cuK.Some? ==> Inputs(r)[e + One(p.cuQ)] == r.cuK.value)
  {
    var a := [r.maskCnt, r.maskIdx];
    var b := a + Given(r.fullCnt);
    var c := b + Given(r.fullIdx);
    var d := c + Given(r.cuRows);
    var e := d + Given(r.cuIdx);
    var f := e + Given(r.cuQ);
    Appended(a, r.fullCnt);
    Appended(b, r.fullIdx);
    Appended(c, r.cuRows);
    Appended(d, r.cuIdx);
    Appended(e, r.cuQ);
    Appended(f, r.cuK);
    assert Inputs(r) == f + Given(r.cuK);
    hide Inputs, Given;
  }

  lemma Appended(a: seq<Id>, t: Option<Id>)
    ensures |a + Given(t)| == |a| + One(t.Some?) && forall i :: 0 <= i < |a| ==> (a + Given(t))[i] == a[i]
    ensures t.Some? ==> (a + Given(t))[|a|] == t.value
  {
  }

  /** The fields of a request, as the tensors are now. */
  ghost function FieldsNow(tensors: seq<Tensor>, r: Request): (g: Fields)
    requires forall i :: 0 <= i < |Inputs(r)| ==> Inputs(r)[i] < |tensors|
  {
    InputPlaces(r);
    FieldsAt(PatternOf(r), ContentsOf(tensors, Inputs(r)))
  }

  /** They are the tensors that the request names. */
  lemma FieldsOfRequest(tensors: seq<Tensor>, r: Request)
    requires forall i :: 0 <= i < |Inputs(r)| ==> Inputs(r)[i] < |tensors|
    ensures r.maskCnt < |tensors| && r.maskIdx < |tensors|
    ensures var g := FieldsNow(tensors, r);
            && g.maskCnt == tensors[r.maskCnt].content && g.maskIdx == tensors[r.maskIdx].content
            && Holds(tensors, r.fullCnt, g.fullCnt) && Holds(tensors, r.fullIdx, g.fullIdx)
            && Holds(tensors, r.cuRows, g.cuRows) && Holds(tensors, r.cuIdx, g.cuIdx)
            && Holds(tensors, r.cuQ, g.cuQ) && Holds(tensors, r.cuK, g.cuK)
  {
    InputPlaces(r);
    hide Inputs;
  }

  predicate Holds(tensors: seq<Tensor>, t: Option<Id>, c: Option<Content>) {
    (t.Some? <==> c.Some?) && (t.Some? ==> t.value < |tensors| && c.value == tensors[t.value].content)
  }

  /* The normalisation, over lists of tensors. */

  function Tensors(x: (Grid, Grid)): seq<Content>
    requires Shaped(x.0) && Shaped(x.1)
  {
    [CountTensor(x.0), IndexTensor(x.0), CountTensor(x.1), IndexTensor(x.1)]
  }

  function Normalisation(cpu: bool): Canonical {
    (p, s, c) =>
      if |c| != Supplied(p) then None
      else
        match Normalised(cpu, FieldsAt(p, c), s)
        case None => None
        case Some(x) => Some(Tensors(x))
  }

  function FirstChecks(): Check {
    (p, s, c) => |c| == Supplied(p) && Validated(FieldsAt(p, c), s)
  }

  lemma ChecksFirst(cpu: bool)
    ensures Checks(Normalisation(cpu), FirstChecks())
  {
    forall p, s, c | Normalisation(cpu)(p, s, c).Some?
      ensures FirstChecks()(p, s, c)
    {
      hide UnpackBoth, Finished, Tensors;
    }
  }

  /** A request that comes with both tensors of a pair or none, one-dimensional offsets and no block
      size but 128 x 128. */
  predicate WellMade(tensors: seq<Tensor>, r: Request) {
    && (r.scalars.blockSize.None? || r.scalars.blockSize == Some((128, 128)))
    && (r.fullCnt.Some? <==> r.fullIdx.Some?) && (r.cuRows.Some? <==> r.cuIdx.Some?)
    && Flat(tensors, r.cuRows) && Flat(tensors, r.cuIdx)
  }

  predicate Flat(tensors: seq<Tensor>, t: Option<Id>) {
    t.Some? ==> t.value < |tensors| && |tensors[t.value].content.shape| == 1
  }

  /** The first checks accept exactly such requests; all others are refused, and the cache is not
      asked. */
  lemma RefusedFirst(cache: NormalizeCache, cpu: bool, req: Request)
    requires cache.InStore(Inputs(req)) && cache.check == FirstChecks()
    ensures var p, c := PatternOf(req), ContentsOf(cache.tensors, Inputs(req));
            && (cache.check(p, req.scalars, c) <==> WellMade(cache.tensors, req))
            && (!WellMade(cache.tensors, req) ==> Normalisation(cpu)(p, req.scalars, c).None? && cache.Hit(req).None?)
  {
    FirstChecksAre(cache.tensors, req);
    hide *;
    ChecksFirst(cpu);
    NeededFirst(Normalisation(cpu), FirstChecks(), PatternOf(req), req.scalars, ContentsOf(cache.tensors, Inputs(req)));
    HitsChecked(cache, req);
  }

  lemma FirstChecksAre(tensors: seq<Tensor>, req: Request)
    requires forall i :: 0 <= i < |Inputs(req)| ==> Inputs(req)[i] < |tensors|
    ensures (FirstChecks()(PatternOf(req), req.scalars, ContentsOf(tensors, Inputs(req)))) <==> WellMade(tensors, req)
  {
    InputPlaces(req);
    FieldsOfRequest(tensors, req);
    hide Inputs, FieldsAt;
  }

  lemma NeededFirst(canonical: Canonical, check: Check, p: Pattern, s: Scalars, c: seq<Content>)
    requires Checks(canonical, check)
    ensures !check(p, s, c) ==> canonical(p, s, c).None?
  {
  }

  lemma HitsChecked(cache: NormalizeCache, req: Request)
    requires cache.InStore(Inputs(req))
    ensures !cache.check(PatternOf(req), req.scalars, ContentsOf(cache.tensors, Inputs(req))) ==> cache.Hit(req).None?
  {
    hide Inputs;
  }

  lemma TensorsApart(x: (Grid, Grid), y: (Grid, Grid))
    requires Shaped(x.0) && Shaped(x.1) && Shaped(y.0) && Shaped(y.1)
    ensures Tensors(x) == Tensors(y) <==> x == y
  {
    if Tensors(x) == Tensors(y) {
      GridApart(x.0, y.0);
      GridApart(x.1, y.1);
      assert Tensors(x)[0] == Tensors(y)[0] && Tensors(x)[1] == Tensors(y)[1] && Tensors(x)[2] == Tensors(y)[2] && Tensors(x)[3] == Tensors(y)[3];
    }
  }

  lemma GridApart(a: Grid, b: Grid)
    requires Shaped(a) && Shaped(b)
    ensures CountTensor(a) == CountTensor(b) && IndexTensor(a) == IndexTensor(b) ==> a == b
  {
    if CountTensor(a) == CountTensor(b) && IndexTensor(a) == IndexTensor(b) {
      var x, y := IndexTensor(a), IndexTensor(b);
      assert x.shape[0] == y.shape[0] && x.shape[1] == y.shape[1] && x.shape[2] == y.shape[2] && x.shape[3] == y.shape[3];
    }
  }

  lemma SameResult(cpu: bool, p: Pattern, k: Pattern, s: Scalars, c: seq<Content>)
    requires |c| == Supplied(p) == Supplied(k)
    ensures Normalisation(cpu)(p, s, c).Some? <==> Accepted(cpu, FieldsAt(p, c), s)
    ensures Normalisation(cpu)(p, s, c) == Normalisation(cpu)(k, s, c)
       <==> Normalised(cpu, FieldsAt(p, c), s) == Normalised(cpu, FieldsAt(k, c), s)
  {
    AcceptedIff(cpu, FieldsAt(p, c), s);
    NormalisationIs(cpu, p, s, c);
    NormalisationIs(cpu, k, s, c);
    hide *;
    var x, y := Normalised(cpu, FieldsAt(p, c), s), Normalised(cpu, FieldsAt(k, c), s);
    if x.Some? && y.Some? {
      TensorsApart(x.value, y.value);
    }
  }

  lemma NormalisationIs(cpu: bool, p: Pattern, s: Scalars, c: seq<Content>)
    requires |c| == Supplied(p)
    ensures var x := Normalised(cpu, FieldsAt(p, c), s);
            && (x.Some? ==> Shaped(x.value.0) && Shaped(x.value.1))
            && Normalisation(cpu)(p, s, c) == if x.None? then None else Some(Tensors(x.value))
  {
    hide FieldsAt, Supplied, Tensors, Checked, UnpackBoth, Finished;
  }

  /* Requests with the same key. */

  /** Two accepted requests over the same tensors supply the same fields, or one gives for the keys
      the boundary that the other one gives for the queries. */
  lemma SameOrSwapped(cpu: bool, p: Pattern, k: Pattern, s: Scalars, c: seq<Content>)
    requires |c| == Supplied(p) == Supplied(k) && Accepted(cpu, FieldsAt(p, c), s) && Accepted(cpu, FieldsAt(k, c), s)
    ensures p == k || (FieldsAt(k, c) == Swapped(FieldsAt(p, c)) && FieldsAt(p, c).cuRows == FieldsAt(k, c).cuRows)
  {
    var g, h := FieldsAt(p, c), FieldsAt(k, c);
    Ranks(cpu, g, s);
    Ranks(cpu, h, s);
    hide Accepted;
    assert g.maskCnt == h.maskCnt == c[0];
  }

  /** What the shapes of an accepted request tell about its fields. */
  lemma Ranks(cpu: bool, g: Fields, s: Scalars)
    requires Accepted(cpu, g, s)
    ensures |g.maskCnt.shape| == if g.cuRows.Some? then 2 else 3
    ensures g.fullCnt.Some? <==> g.fullIdx.Some?
    ensures g.cuRows.Some? <==> g.cuIdx.Some?
    ensures g.fullCnt.Some? ==> |g.fullCnt.value.shape| >= 2
    ensures g.cuRows.Some? ==> |g.cuRows.value.shape| == 1 && |g.cuIdx.value.shape| == 1
    ensures g.cuQ.Some? ==> |g.cuQ.value.shape| == 1
    ensures g.cuK.Some? ==> |g.cuK.value.shape| == 1
  {
    hide OutBatch, OutHeads, OutWidth;
  }

  /* When a cached answer is right. */

  /** Fixed lists, or packed lists that both readings of the boundary read alike. */
  ghost predicate ReadsAlike(g: Fields, s: Scalars) {
    g.cuRows.None? || (Sensible(s) && Validated(g, s) && BothFit(g, s) && BothFit(Swapped(g), s) && Alike(g, s))
  }

  /** An answer made for pattern p serves a request with pattern k. */
  ghost predicate Serves(cpu: bool, p: Pattern, k: Pattern, s: Scalars, c: seq<Content>) {
    p == k || (|c| == Supplied(p) == Supplied(k) && Accepted(cpu, FieldsAt(k, c), s) && ReadsAlike(FieldsAt(p, c), s))
  }

  lemma ServesExactly(cpu: bool, p: Pattern, k: Pattern, s: Scalars, c: seq<Content>)
    requires |c| == Supplied(p) == Supplied(k) && Normalisation(cpu)(p, s, c).Some?
    ensures Normalisation(cpu)(p, s, c) == Normalisation(cpu)(k, s, c) <==> Serves(cpu, p, k, s, c)
  {
    SameResult(cpu, p, k, s, c);
    SameResult(cpu, k, p, s, c);
    var g, h := FieldsAt(p, c), FieldsAt(k, c);
    if p != k && Accepted(cpu, h, s) {
      SameOrSwapped(cpu, p, k, s, c);
      hide Normalised, Normalisation, FieldsAt, Supplied, Alike, Swapped;
      if g.cuRows.None? {
        FixedAlike(cpu, g, s);
      } else {
        AcceptedParts(cpu, g, s);
        SwapAlike(cpu, g, s);
      }
      hide Accepted;
    }
    hide Accepted, Normalised, Normalisation, FieldsAt, Supplied, ReadsAlike;
  }

  /** Metadata that the request's own lengths fit. */
  ghost predicate WellFormed(cpu: bool, g: Fields, s: Scalars) {
    Accepted(cpu, g, s) && (g.cuRows.Some? ==> Sensible(s) && Validated(g, s) && OffsetsMatch(g, s))
  }

  /** Well-formed requests with the same tensors can share an answer. */
  lemma WellFormedServes(cpu: bool, p: Pattern, k: Pattern, s: Scalars, c: seq<Content>)
    requires |c| == Supplied(p) == Supplied(k) && WellFormed(cpu, FieldsAt(p, c), s) && WellFormed(cpu, FieldsAt(k, c), s)
    ensures Serves(cpu, p, k, s, c)
  {
    var g := FieldsAt(p, c);
    SameOrSwapped(cpu, p, k, s, c);
    AcceptedParts(cpu, g, s);
    hide FieldsAt, Supplied, Accepted, OffsetsMatch, Alike, Swapped, Validated;
    if p != k && g.cuRows.Some? {
      SameShapes(g, s);
      MatchingAlike(g, s);
    }
  }

  /** So can requests whose boundaries place the rows and slots of the lists alike. */
  lemma PlacesServe(cpu: bool, p: Pattern, k: Pattern, s: Scalars, c: seq<Content>)
    requires |c| == Supplied(p) == Supplied(k) && Accepted(cpu, FieldsAt(p, c), s) && Accepted(cpu, FieldsAt(k, c), s)
    requires var g := FieldsAt(p, c);
             g.cuRows.Some? ==> Sensible(s) && Validated(g, s) && BothFit(g, s) && PlacesAgree(g, s)
    ensures Serves(cpu, p, k, s, c)
  {
    var g := FieldsAt(p, c);
    SameOrSwapped(cpu, p, k, s, c);
    AcceptedParts(cpu, g, s);
    hide FieldsAt, Supplied, Accepted, PlacesAgree, Alike, Swapped, Validated;
    if p != k && g.cuRows.Some? {
      PlacesSuffice(g, s);
    }
  }

  /** An answer made for pattern p is what recomputation gives for pattern k exactly if it serves. */
  lemma AnswerServes(cpu: bool, p: Pattern, k: Pattern, s: Scalars, c: seq<Content>, answer: Option<seq<Id>>, tensors: seq<Tensor>)
    requires Agrees(tensors, answer, Normalisation(cpu)(p, s, c)) && |c| == Supplied(k) && (answer.None? ==> p == k)
    ensures Agrees(tensors, answer, Normalisation(cpu)(k, s, c)) <==> Serves(cpu, p, k, s, c)
  {
    hide *;
    AgreesOnce(tensors, answer, Normalisation(cpu)(p, s, c), Normalisation(cpu)(k, s, c));
    if answer.Some? {
      SuppliedBy(cpu, p, s, c, answer, tensors);
      ServesExactly(cpu, p, k, s, c);
    } else {
      SamePattern(cpu, p, s, c);
    }
  }

  /** Normalise, in any state of the cache. The answer is what recomputation gives if and only if it
      was made for the same pattern of fields, or the request is accepted by itself and reads its
      lists in the same way. */
  method NormalizeLists(cache: NormalizeCache, cpu: bool, req: Request) returns (answer: Option<seq<Id>>)
    requires cache.Valid() && cache.InStore(Inputs(req)) && cache.canonical == Normalisation(cpu)
    modifies cache
    ensures cache.Valid() && |old(cache.tensors)| <= |cache.tensors| && cache.tensors[..|old(cache.tensors)|] == old(cache.tensors)
    ensures var c := ContentsOf(old(cache.tensors), Inputs(req));
            (Agrees(cache.tensors, answer, Normalisation(cpu)(PatternOf(req), req.scalars, c)))
              <==> Serves(cpu, old(cache.PatternUsed(req)), PatternOf(req), req.scalars, c)
    ensures Grows(old(cache.history), cache.history)
    ensures cache.patterns == if old(cache.Hit(req)).None? && answer.Some? && Cacheable(old(cache.KeyOf(req)))
                              then old(cache.patterns)[old(cache.KeyOf(req)) := PatternOf(req)] else old(cache.patterns)
  {
    ghost var p, k, c := cache.PatternUsed(req), PatternOf(req), ContentsOf(cache.tensors, Inputs(req));
    ghost var hit := cache.Hit(req);
    UsedOnHit(cache, req);
    InputPlaces(req);
    assert |c| == Supplied(k);
    hide *;
    answer := cache.Normalize(req);
    AnswerServes(cpu, p, k, req.scalars, c, answer, cache.tensors);
  }

  lemma UsedOnHit(cache: NormalizeCache, req: Request)
    requires cache.Valid() && cache.InStore(Inputs(req))
    ensures cache.Hit(req).None? ==> cache.PatternUsed(req) == PatternOf(req)
  {
  }

  lemma SamePattern(cpu: bool, p: Pattern, s: Scalars, c: seq<Content>)
    ensures Serves(cpu, p, p, s, c)
  {
  }

  lemma SuppliedBy(cpu: bool, p: Pattern, s: Scalars, c: seq<Content>, answer: Option<seq<Id>>, tensors: seq<Tensor>)
    requires Agrees(tensors, answer, Normalisation(cpu)(p, s, c)) && answer.Some?
    ensures Normalisation(cpu)(p, s, c).Some? && |c| == Supplied(p)
  {
    hide Normalised, FieldsAt;
  }

  lemma AgreesOnce(tensors: seq<Tensor>, answer: Option<seq<Id>>, now: Option<seq<Content>>, other: Option<seq<Content>>)
    requires Agrees(tensors, answer, now)
    ensures Agrees(tensors, answer, other) <==> now == other
  {
  }

  /* Runs of well-formed requests. */

  /** Every pattern was recorded for a request that was well formed. */
  ghost predicate StoredWell(cpu: bool, patterns: map<Key, Pattern>, history: History) {
    forall key :: key in patterns ==> KeyWell(cpu, key, patterns[key], history)
  }

  ghost predicate KeyWell(cpu: bool, key: Key, p: Pattern, history: History) {
    && Known(history, key.inputs, key.versions) && |key.inputs| == Supplied(p)
    && WellFormed(cpu, FieldsAt(p, ContentsAt(history, key.inputs, key.versions)), key.scalars)
  }

  /** New tensors and changes in place leave that so. */
  lemma StoredWellGrows(cpu: bool, patterns: map<Key, Pattern>, history: History, grown: History)
    requires StoredWell(cpu, patterns, history) && Grows(history, grown)
    ensures StoredWell(cpu, patterns, grown)
  {
    hide WellFormed, FieldsAt;
    forall key | key in patterns
      ensures KeyWell(cpu, key, patterns[key], grown)
    {
      assert KeyWell(cpu, key, patterns[key], history);
      KnownGrows(history, grown, key.inputs, key.versions);
    }
  }

  /** The contents that a key of current versions stands for. */
  lemma KeyContents(tensors: seq<Tensor>, history: History, key: Key)
    requires Recorded(tensors, history) && Cacheable(key) && |key.inputs| == |key.versions|
    requires forall i :: 0 <= i < |key.inputs| ==> key.inputs[i] < |tensors|
    requires key.versions == VersionsOf(tensors, key.inputs)
    ensures Known(history, key.inputs, key.versions)
    ensures ContentsAt(history, key.inputs, key.versions) == ContentsOf(tensors, key.inputs)
  {
  }

  lemma UsedWell(cache: NormalizeCache, cpu: bool, req: Request)
    requires cache.Valid() && cache.InStore(Inputs(req)) && StoredWell(cpu, cache.patterns, cache.history)
    ensures var c, p := ContentsOf(cache.tensors, Inputs(req)), cache.PatternUsed(req);
            cache.Hit(req).Some? ==> |c| == Supplied(p) && WellFormed(cpu, FieldsAt(p, c), req.scalars)
  {
    if cache.Hit(req).Some? {
      var key := cache.KeyOf(req);
      HitKnown(cache, req);
      KeyContents(cache.tensors, cache.history, key);
      assert KeyWell(cpu, key, cache.patterns[key], cache.history);
      hide WellFormed, FieldsAt, Supplied, EntrySound;
    }
  }

  lemma HitKnown(cache: NormalizeCache, req: Request)
    requires cache.Valid() && cache.InStore(Inputs(req)) && cache.Hit(req).Some?
    ensures Cacheable(cache.KeyOf(req)) && cache.KeyOf(req) in cache.patterns
    ensures cache.PatternUsed(req) == cache.patterns[cache.KeyOf(req)]
  {
    assert EntrySound(cache.canonical, cache.history, cache.entries[cache.Hit(req).value], cache.patterns, cache.outs);
    hide Sound, Inputs;
  }

  /** If all requests of a run are well formed, every answer is what recomputation gives. */
  method NormalizeWellFormed(cache: NormalizeCache, cpu: bool, req: Request) returns (answer: Option<seq<Id>>)
    requires cache.Valid() && cache.InStore(Inputs(req)) && cache.canonical == Normalisation(cpu)
    requires StoredWell(cpu, cache.patterns, cache.history)
    requires WellFormed(cpu, FieldsNow(cache.tensors, req), req.scalars)
    modifies cache
    ensures cache.Valid() && StoredWell(cpu, cache.patterns, cache.history)
    ensures |old(cache.tensors)| <= |cache.tensors| && cache.tensors[..|old(cache.tensors)|] == old(cache.tensors)
    ensures Agrees(cache.tensors, answer, Normalisation(cpu)(PatternOf(req), req.scalars, ContentsOf(old(cache.tensors), Inputs(req))))
  {
    ghost var p, k, c := cache.PatternUsed(req), PatternOf(req), ContentsOf(cache.tensors, Inputs(req));
    ghost var key, patterns, history := cache.KeyOf(req), cache.patterns, cache.history;
    InputPlaces(req);
    UsedOnHit(cache, req);
    UsedWell(cache, cpu, req);
    if Cacheable(key) { NextWell(cache, cpu, req); }
    hide *;
    answer := NormalizeLists(cache, cpu, req);
    if p == k {
      SamePattern(cpu, p, req.scalars, c);
    } else {
      WellFormedServes(cpu, p, k, req.scalars, c);
    }
    if cache.patterns == patterns {
      StoredWellGrows(cpu, patterns, history, cache.history);
    } else {
      StoredWellGrows(cpu, patterns[key := k], history, cache.history);
    }
  }

  lemma NextWell(cache: NormalizeCache, cpu: bool, req: Request)
    requires cache.Valid() && cache.InStore(Inputs(req)) && StoredWell(cpu, cache.patterns, cache.history) && Cacheable(cache.KeyOf(req))
    requires WellFormed(cpu, FieldsNow(cache.tensors, req), req.scalars)
    ensures StoredWell(cpu, cache.patterns[cache.KeyOf(req) := PatternOf(req)], cache.history)
  {
    InputPlaces(req);
    KeyContents(cache.tensors, cache.history, cache.KeyOf(req));
    hide WellFormed, FieldsAt, Inputs, Supplied;
  }
}
