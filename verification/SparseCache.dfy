/** The cache of normalised sparse metadata. Tensors live in a store and may be changed in
    place at any time, which bumps their version; a cached result is only handed out while
    the versions of everything it was made from, and of the result itself, still hold. */
module SparseCache {
  import opened Wrappers
  import opened SparseRequest

  type Id = nat

  /** A tensor; inference tensors carry no version. */
  datatype Tensor = Tensor(version: Option<nat>, content: Content)

  /** A request to normalise sparse lists. */
  datatype Request = Request(
    maskCnt: Id, maskIdx: Id, fullCnt: Option<Id>, fullIdx: Option<Id>, cuRows: Option<Id>, cuIdx: Option<Id>,
    cuQ: Option<Id>, cuK: Option<Id>, scalars: Scalars)

  /** Which optional tensors a request supplies. */
  datatype Pattern = Pattern(fullCnt: bool, fullIdx: bool, cuRows: bool, cuIdx: bool, cuQ: bool, cuK: bool)

  function PatternOf(r: Request): Pattern {
    Pattern(r.fullCnt.Some?, r.fullIdx.Some?, r.cuRows.Some?, r.cuIdx.Some?, r.cuQ.Some?, r.cuK.Some?)
  }

  function Given(t: Option<Id>): seq<Id> { if t.Some? then [t.value] else [] }

  /** The supplied tensors, in field order; fields that are not supplied leave no trace. */
  function Inputs(r: Request): seq<Id> {
    [r.maskCnt, r.maskIdx] + Given(r.fullCnt) + Given(r.fullIdx) + Given(r.cuRows) + Given(r.cuIdx) + Given(r.cuQ) + Given(r.cuK)
  }

  datatype Key = Key(inputs: seq<Id>, versions: seq<Option<nat>>, scalars: Scalars)

  datatype Entry = Entry(key: Key, normalized: seq<Id>, saved: seq<(Id, nat)>)

  const CAPACITY := 64

  /* The ordered table. */

  ghost predicate KeysDiffer(entries: seq<Entry>) {
    forall i, j :: 0 <= i < j < |entries| ==> entries[i].key != entries[j].key
  }

  function Find(entries: seq<Entry>, key: Key): (r: Option<nat>)
    ensures r.Some? ==> r.value < |entries| && entries[r.value].key == key
    ensures r.None? ==> forall i :: 0 <= i < |entries| ==> entries[i].key != key
  {
    if entries == [] then None
    else if entries[|entries| - 1].key == key then Some(|entries| - 1)
    else Find(entries[..|entries| - 1], key)
  }

  function MoveToEnd(entries: seq<Entry>, i: nat): seq<Entry>
    requires i < |entries|
  {
    entries[..i] + entries[i + 1..] + [entries[i]]
  }

  /** Assigning to a key keeps its place; a new key comes last. */
  function Put(entries: seq<Entry>, e: Entry): seq<Entry> {
    match Find(entries, e.key)
    case Some(i) => entries[i := e]
    case None => entries + [e]
  }

  /** The newest 64 entries. */
  function Newest(entries: seq<Entry>): seq<Entry> {
    if |entries| > 64 then entries[|entries| - 64..] else entries
  }

  /* Which entries stay. */

  /** A hit on an entry, or a new entry. */
  datatype Use = Looked(key: Key) | Made(entry: Entry)

  function After(entries: seq<Entry>, u: Use): seq<Entry> {
    match u
    case Looked(key) => (match Find(entries, key) case Some(i) => MoveToEnd(entries, i) case None => entries)
    case Made(e) => Newest(Put(entries, e))
  }

  function AfterAll(entries: seq<Entry>, uses: seq<Use>): seq<Entry>
    decreases |uses|
  {
    if uses == [] then entries else AfterAll(After(entries, uses[0]), uses[1..])
  }

  /** The key is among the last d entries. */
  ghost predicate Recent(entries: seq<Entry>, key: Key, d: int) {
    exists k :: 0 <= k < |entries| && |entries| - d <= k && entries[k].key == key
  }

  /** What was used last is the most recent entry. */
  lemma UsedIsRecent(entries: seq<Entry>, u: Use)
    requires u.Looked? ==> Find(entries, u.key).Some?
    requires u.Made? && Find(entries, u.entry.key).Some? ==> |entries| <= 64
    ensures u.Looked? ==> Recent(After(entries, u), u.key, 1)
    ensures u.Made? && Find(entries, u.entry.key).None? ==> Recent(After(entries, u), u.entry.key, 1)
  {
    var r := After(entries, u);
    assert u.Looked? ==> r[|r| - 1].key == u.key;
    assert u.Made? && Find(entries, u.entry.key).None? ==> r[|r| - 1] == u.entry;
  }

  lemma MovedRecent(entries: seq<Entry>, i: nat, key: Key, d: int)
    requires i < |entries| && Recent(entries, key, d) && d >= 1
    ensures Recent(MoveToEnd(entries, i), key, d + 1) && |MoveToEnd(entries, i)| == |entries|
  {
    var k :| 0 <= k < |entries| && |entries| - d <= k && entries[k].key == key;
    var r, at := MoveToEnd(entries, i), if k < i then k else if k == i then |entries| - 1 else k - 1;
    assert r[at] == entries[k];
  }

  lemma PutRecent(entries: seq<Entry>, e: Entry, key: Key, d: int)
    requires Recent(entries, key, d) && 1 <= d < 64 && |entries| <= 64
    ensures Recent(Newest(Put(entries, e)), key, d + 1) && |Newest(Put(entries, e))| <= 64
  {
    var k :| 0 <= k < |entries| && |entries| - d <= k && entries[k].key == key;
    var all := Put(entries, e);
    var r := Newest(all);
    assert |entries| <= |all| <= |entries| + 1 && all[k].key == key;
    hide Put;
    var at := if |all| > 64 then k - 1 else k;
    assert r[at] == all[k];
  }

  /** Every further use makes it older by at most one place. */
  lemma RecentAfter(entries: seq<Entry>, u: Use, key: Key, d: int)
    requires Recent(entries, key, d) && 1 <= d < 64 && |entries| <= 64
    ensures Recent(After(entries, u), key, d + 1) && |After(entries, u)| <= 64
  {
    hide MoveToEnd, Newest, Put, Find;
    match u
    case Looked(other) =>
      match Find(entries, other) {
        case Some(i) => MovedRecent(entries, i, key, d);
        case None =>
      }
    case Made(e) => PutRecent(entries, e, key, d);
  }

  /** So an entry stays through as many uses of others as leave it among the last 64. */
  lemma {:induction false} RecentStays(entries: seq<Entry>, uses: seq<Use>, key: Key, d: int)
    requires Recent(entries, key, d) && 1 <= d && d + |uses| <= 64 && |entries| <= 64
    ensures Recent(AfterAll(entries, uses), key, d + |uses|)
    decreases |uses|
  {
    hide Recent, After;
    if uses != [] {
      RecentAfter(entries, uses[0], key, d);
      RecentStays(After(entries, uses[0]), uses[1..], key, d + 1);
    }
  }

  /* Requests. */

  /** The contents of the tensors a key names, at the versions it names. */
  type History = map<(Id, nat), Content>

  /** The store agrees with the history of contents per version. */
  ghost predicate Recorded(tensors: seq<Tensor>, history: History) {
    && (forall t :: 0 <= t < |tensors| && tensors[t].version.Some? ==>
                      (t, tensors[t].version.value) in history
                      && history[(t, tensors[t].version.value)] == tensors[t].content)
    && (forall k :: k in history ==>
                      k.0 < |tensors| && tensors[k.0].version.Some? && k.1 <= tensors[k.0].version.value)
  }

  ghost predicate Known(history: History, ids: seq<Id>, versions: seq<Option<nat>>) {
    |ids| == |versions| && forall i :: 0 <= i < |ids| ==> versions[i].Some? && (ids[i], versions[i].value) in history
  }

  ghost function ContentsAt(history: History, ids: seq<Id>, versions: seq<Option<nat>>): seq<Content>
    requires Known(history, ids, versions)
  {
    seq(|ids|, i requires 0 <= i < |ids| => history[(ids[i], versions[i].value)])
  }

  type Canonical = (Pattern, Scalars, seq<Content>) -> Option<seq<Content>>

  /** What is checked before the cache is looked at; recomputation checks it again. */
  type Check = (Pattern, Scalars, seq<Content>) -> bool

  ghost predicate Checks(canonical: Canonical, check: Check) {
    forall p, s, c :: canonical(p, s, c).Some? ==> check(p, s, c)
  }

  /** An entry is what recomputation gave for the contents its saved versions stand for. */
  ghost predicate Sound(canonical: Canonical, history: History, e: Entry, pattern: Pattern, outVersions: seq<Option<nat>>) {
    && Known(history, e.key.inputs, e.key.versions) && Known(history, e.normalized, outVersions)
    && (forall i :: 0 <= i < |e.key.inputs| ==> (e.key.inputs[i], e.key.versions[i].value) in e.saved)
    && (forall i :: 0 <= i < |e.normalized| ==> (e.normalized[i], outVersions[i].value) in e.saved)
    && canonical(pattern, e.key.scalars, ContentsAt(history, e.key.inputs, e.key.versions))
       == Some(ContentsAt(history, e.normalized, outVersions))
  }

  function VersionsOf(tensors: seq<Tensor>, ids: seq<Id>): (v: seq<Option<nat>>)
    requires forall i :: 0 <= i < |ids| ==> ids[i] < |tensors|
    ensures |v| == |ids| && forall i :: 0 <= i < |ids| ==> v[i] == tensors[ids[i]].version
  {
    seq(|ids|, i requires 0 <= i < |ids| => tensors[ids[i]].version)
  }

  function ContentsOf(tensors: seq<Tensor>, ids: seq<Id>): (c: seq<Content>)
    requires forall i :: 0 <= i < |ids| ==> ids[i] < |tensors|
    ensures |c| == |ids| && forall i :: 0 <= i < |ids| ==> c[i] == tensors[ids[i]].content
  {
    seq(|ids|, i requires 0 <= i < |ids| => tensors[ids[i]].content)
  }

  /** All saved versions still hold. */
  predicate Current(tensors: seq<Tensor>, saved: seq<(Id, nat)>) {
    forall i :: 0 <= i < |saved| ==> saved[i].0 < |tensors| && tensors[saved[i].0].version == Some(saved[i].1)
  }

  /** A sound entry whose versions still hold is what recomputation would give now. */
  lemma CurrentIsFresh(canonical: Canonical, tensors: seq<Tensor>, history: History, e: Entry, pattern: Pattern, outVersions: seq<Option<nat>>)
    requires Recorded(tensors, history) && Sound(canonical, history, e, pattern, outVersions) && Current(tensors, e.saved)
    ensures forall i :: 0 <= i < |e.key.inputs| ==> e.key.inputs[i] < |tensors|
    ensures forall i :: 0 <= i < |e.normalized| ==> e.normalized[i] < |tensors|
    ensures canonical(pattern, e.key.scalars, ContentsOf(tensors, e.key.inputs)) == Some(ContentsOf(tensors, e.normalized))
  {
    SavedContents(tensors, history, e.key.inputs, e.key.versions, e.saved);
    SavedContents(tensors, history, e.normalized, outVersions, e.saved);
  }

  lemma SavedContents(tensors: seq<Tensor>, history: History, ids: seq<Id>, versions: seq<Option<nat>>, saved: seq<(Id, nat)>)
    requires Recorded(tensors, history) && Known(history, ids, versions) && Current(tensors, saved)
    requires forall i :: 0 <= i < |ids| ==> (ids[i], versions[i].value) in saved
    ensures forall i :: 0 <= i < |ids| ==> ids[i] < |tensors|
    ensures ContentsOf(tensors, ids) == ContentsAt(history, ids, versions)
  {
    forall i | 0 <= i < |ids|
      ensures ids[i] < |tensors| && tensors[ids[i]].content == history[(ids[i], versions[i].value)]
    {
      var k :| 0 <= k < |saved| && saved[k] == (ids[i], versions[i].value);
      assert tensors[saved[k].0].version == Some(saved[k].1);
    }
  }

  /* The key and the pattern. */

  /** A key with the pattern of supplied fields determines the request. */
  lemma KeyAndPattern(r: Request, s: Request)
    requires Inputs(r) == Inputs(s) && r.scalars == s.scalars
    ensures PatternOf(r) == PatternOf(s) <==> r == s
  {
    if PatternOf(r) == PatternOf(s) {
      SameFields(r, s);
    }
  }

  lemma SameFields(r: Request, s: Request)
    requires Inputs(r) == Inputs(s) && r.scalars == s.scalars && PatternOf(r) == PatternOf(s)
    ensures r == s
  {
    var a0, b0 := [r.maskCnt, r.maskIdx], [s.maskCnt, s.maskIdx];
    var a1, b1 := a0 + Given(r.fullCnt), b0 + Given(s.fullCnt);
    var a2, b2 := a1 + Given(r.fullIdx), b1 + Given(s.fullIdx);
    var a3, b3 := a2 + Given(r.cuRows), b2 + Given(s.cuRows);
    var a4, b4 := a3 + Given(r.cuIdx), b3 + Given(s.cuIdx);
    var a5, b5 := a4 + Given(r.cuQ), b4 + Given(s.cuQ);
    SameLast(a5, r.cuK, b5, s.cuK);
    SameLast(a4, r.cuQ, b4, s.cuQ);
    SameLast(a3, r.cuIdx, b3, s.cuIdx);
    SameLast(a2, r.cuRows, b2, s.cuRows);
    SameLast(a1, r.fullIdx, b1, s.fullIdx);
    SameLast(a0, r.fullCnt, b0, s.fullCnt);
    assert a0[0] == b0[0] && a0[1] == b0[1];
  }

  lemma SameLast(a: seq<Id>, t: Option<Id>, b: seq<Id>, u: Option<Id>)
    requires a + Given(t) == b + Given(u) && t.Some? == u.Some?
    ensures a == b && t == u
  {
    var all := a + Given(t);
    assert |a| == |b|;
    assert all[..|a|] == a && (b + Given(u))[..|b|] == b;
    if t.Some? {
      assert all[|a|] == t.value && (b + Given(u))[|b|] == u.value;
    }
  }

  /* What keeps entries sound. */

  lemma KnownGrows(history: History, grown: History, ids: seq<Id>, versions: seq<Option<nat>>)
    requires Known(history, ids, versions) && forall k :: k in history ==> k in grown && grown[k] == history[k]
    ensures Known(grown, ids, versions) && ContentsAt(grown, ids, versions) == ContentsAt(history, ids, versions)
  {
  }

  ghost predicate Grows(history: History, grown: History) {
    forall k :: k in history ==> k in grown && grown[k] == history[k]
  }

  lemma SoundGrows(canonical: Canonical, history: History, grown: History, e: Entry, pattern: Pattern, outVersions: seq<Option<nat>>)
    requires Sound(canonical, history, e, pattern, outVersions) && Grows(history, grown)
    ensures Sound(canonical, grown, e, pattern, outVersions)
  {
    KnownGrows(history, grown, e.key.inputs, e.key.versions);
    KnownGrows(history, grown, e.normalized, outVersions);
  }

  /** All entries are sound, each for the pattern under which it was made. */
  ghost predicate AllSound(canonical: Canonical, history: History, entries: seq<Entry>,
                           patterns: map<Key, Pattern>, outs: map<Key, seq<Option<nat>>>) {
    forall i :: 0 <= i < |entries| ==> EntrySound(canonical, history, entries[i], patterns, outs)
  }

  ghost predicate EntrySound(canonical: Canonical, history: History, e: Entry,
                             patterns: map<Key, Pattern>, outs: map<Key, seq<Option<nat>>>) {
    e.key in patterns && e.key in outs && Sound(canonical, history, e, patterns[e.key], outs[e.key])
  }

  lemma AllSoundGrows(canonical: Canonical, history: History, grown: History, entries: seq<Entry>,
                      patterns: map<Key, Pattern>, outs: map<Key, seq<Option<nat>>>)
    requires AllSound(canonical, history, entries, patterns, outs) && Grows(history, grown)
    ensures AllSound(canonical, grown, entries, patterns, outs)
  {
    forall i | 0 <= i < |entries|
      ensures EntrySound(canonical, grown, entries[i], patterns, outs)
    {
      assert EntrySound(canonical, history, entries[i], patterns, outs);
      SoundGrows(canonical, history, grown, entries[i], patterns[entries[i].key], outs[entries[i].key]);
    }
  }

  /** Adding an entry touches no entry of another key. */
  lemma AllSoundPut(canonical: Canonical, history: History, entries: seq<Entry>, patterns: map<Key, Pattern>,
                    outs: map<Key, seq<Option<nat>>>, e: Entry, pattern: Pattern, outVersions: seq<Option<nat>>)
    requires AllSound(canonical, history, entries, patterns, outs) && KeysDiffer(entries)
    requires Sound(canonical, history, e, pattern, outVersions)
    ensures AllSound(canonical, history, Put(entries, e), patterns[e.key := pattern], outs[e.key := outVersions])
    ensures KeysDiffer(Put(entries, e))
  {
    var all, p, o := Put(entries, e), patterns[e.key := pattern], outs[e.key := outVersions];
    hide Sound;
    forall i | 0 <= i < |all|
      ensures EntrySound(canonical, history, all[i], p, o)
    {
      if all[i].key != e.key {
        assert all[i] == entries[i];
        assert EntrySound(canonical, history, entries[i], patterns, outs);
      } else {
        assert all[i] == e;
      }
    }
  }

  lemma NewestKeeps(canonical: Canonical, history: History, entries: seq<Entry>, patterns: map<Key, Pattern>, outs: map<Key, seq<Option<nat>>>, n: nat)
    requires AllSound(canonical, history, entries, patterns, outs) && KeysDiffer(entries) && n <= |entries|
    ensures AllSound(canonical, history, entries[n..], patterns, outs) && KeysDiffer(entries[n..])
  {
    hide EntrySound;
  }

  lemma MoveKeeps(canonical: Canonical, history: History, entries: seq<Entry>, patterns: map<Key, Pattern>, outs: map<Key, seq<Option<nat>>>, i: nat)
    requires AllSound(canonical, history, entries, patterns, outs) && KeysDiffer(entries) && i < |entries|
    ensures AllSound(canonical, history, MoveToEnd(entries, i), patterns, outs) && KeysDiffer(MoveToEnd(entries, i))
    ensures |MoveToEnd(entries, i)| == |entries|
  {
    var moved := MoveToEnd(entries, i);
    hide EntrySound;
    forall k | 0 <= k < |moved|
      ensures moved[k] == if k < i then entries[k] else if k < |entries| - 1 then entries[k + 1] else entries[i]
    {
    }
  }

  /** A new or changed tensor, at a version that has not been seen. */
  lemma RecordedNext(tensors: seq<Tensor>, history: History, t: nat, now: Tensor)
    requires Recorded(tensors, history) && t <= |tensors|
    requires t < |tensors| ==> (tensors[t].version.Some? <==> now.version.Some?)
    requires t < |tensors| && now.version.Some? ==> now.version.value == tensors[t].version.value + 1
    ensures var all := if t < |tensors| then tensors[t := now] else tensors + [now];
            var grown := if now.version.Some? then history[(t, now.version.value) := now.content] else history;
            Recorded(all, grown) && Grows(history, grown)
  {
    assert now.version.Some? ==> (t, now.version.value) !in history;
  }

  /** The answer is what recomputation gives. */
  ghost predicate Agrees(tensors: seq<Tensor>, answer: Option<seq<Id>>, now: Option<seq<Content>>) {
    && (answer.Some? <==> now.Some?)
    && (answer.Some? ==> (forall i :: 0 <= i < |answer.value| ==> answer.value[i] < |tensors|)
                         && ContentsOf(tensors, answer.value) == now.value)
  }

  /** A just computed answer makes a sound entry. */
  lemma FreshIsSound(canonical: Canonical, tensors: seq<Tensor>, history: History, e: Entry, pattern: Pattern, outVersions: seq<Option<nat>>)
    requires Recorded(tensors, history)
    requires forall i :: 0 <= i < |e.key.inputs| ==> e.key.inputs[i] < |tensors|
    requires forall i :: 0 <= i < |e.normalized| ==> e.normalized[i] < |tensors|
    requires e.key.versions == VersionsOf(tensors, e.key.inputs) && outVersions == VersionsOf(tensors, e.normalized)
    requires (forall i :: 0 <= i < |e.key.versions| ==> e.key.versions[i].Some?) && (forall i :: 0 <= i < |outVersions| ==> outVersions[i].Some?)
    requires e.saved == Pairs(e.key.inputs, e.key.versions) + Pairs(e.normalized, outVersions)
    requires canonical(pattern, e.key.scalars, ContentsOf(tensors, e.key.inputs)) == Some(ContentsOf(tensors, e.normalized))
    ensures Sound(canonical, history, e, pattern, outVersions)
  {
    var a, b := Pairs(e.key.inputs, e.key.versions), Pairs(e.normalized, outVersions);
    forall i | 0 <= i < |e.key.inputs|
      ensures (e.key.inputs[i], e.key.versions[i].value) in e.saved
    {
      assert e.saved[i] == a[i];
    }
    forall i | 0 <= i < |e.normalized|
      ensures (e.normalized[i], outVersions[i].value) in e.saved
    {
      assert e.saved[|a| + i] == b[i];
    }
    assert Known(history, e.key.inputs, e.key.versions) && Known(history, e.normalized, outVersions);
    assert ContentsAt(history, e.key.inputs, e.key.versions) == ContentsOf(tensors, e.key.inputs);
    assert ContentsAt(history, e.normalized, outVersions) == ContentsOf(tensors, e.normalized);
  }

  /** Every input has a version. */
  predicate Cacheable(key: Key) { forall i :: 0 <= i < |key.versions| ==> key.versions[i].Some? }

  /** The entry made for an answer: all versions that it depends on. */
  function EntryFor(tensors: seq<Tensor>, key: Key, ids: seq<Id>): (e: Entry)
    requires Cacheable(key) && |key.inputs| == |key.versions|
    requires forall i :: 0 <= i < |ids| ==> ids[i] < |tensors| && tensors[ids[i]].version.Some?
    ensures e.key == key && e.normalized == ids
  {
    Entry(key, ids, Pairs(key.inputs, key.versions) + Pairs(ids, VersionsOf(tensors, ids)))
  }

  /** The entry that answers a request, if any. */
  function AnsweredBy(tensors: seq<Tensor>, entries: seq<Entry>, key: Key): (r: Option<nat>)
    ensures r.Some? ==> r.value < |entries| && entries[r.value].key == key
  {
    match Find(entries, key)
    case Some(i) => if Cacheable(key) && Current(tensors, entries[i].saved) then Some(i) else None
    case None => None
  }

  lemma PrefixSame(was: seq<Tensor>, tensors: seq<Tensor>, ids: seq<Id>)
    requires |was| <= |tensors| && tensors[..|was|] == was && forall i :: 0 <= i < |ids| ==> ids[i] < |was|
    ensures forall i :: 0 <= i < |ids| ==> ids[i] < |tensors|
    ensures ContentsOf(tensors, ids) == ContentsOf(was, ids) && VersionsOf(tensors, ids) == VersionsOf(was, ids)
  {
    assert forall t :: 0 <= t < |was| ==> tensors[t] == was[t];
  }

  class NormalizeCache {
    var tensors: seq<Tensor>
    var entries: seq<Entry>
    ghost var history: History
    ghost var patterns: map<Key, Pattern>
    ghost var outs: map<Key, seq<Option<nat>>>
    const canonical: Canonical
    const check: Check

    ghost predicate Valid()
      reads this
    {
      && Checks(canonical, check) && Recorded(tensors, history) && KeysDiffer(entries) && |entries| <= CAPACITY
      && AllSound(canonical, history, entries, patterns, outs)
    }

    constructor (canonical: Canonical, check: Check)
      requires Checks(canonical, check)
      ensures Valid() && entries == [] && tensors == [] && this.canonical == canonical && this.check == check
      ensures patterns == map[]
    {
      this.canonical, this.check := canonical, check;
      tensors, entries := [], [];
      history, patterns, outs := map[], map[], map[];
    }

    /** A new tensor, with a version counter or without. */
    method NewTensor(content: Content, versioned: bool) returns (t: Id)
      requires Valid()
      modifies this`tensors, this`history
      ensures Valid() && t == |old(tensors)|
      ensures tensors == old(tensors) + [Tensor(if versioned then Some(0) else None, content)]
      ensures Grows(old(history), history) && (versioned ==> (t, 0) in history && history[(t, 0)] == content)
    {
      var now := Tensor(if versioned then Some(0) else None, content);
      RecordedNext(tensors, history, |tensors|, now);
      ghost var grown := if now.version.Some? then history[(|tensors|, now.version.value) := now.content] else history;
      AllSoundGrows(canonical, history, grown, entries, patterns, outs);
      hide AllSound, Recorded, Grows;
      t := |tensors|;
      tensors := tensors + [now];
      history := grown;
    }

    /** Change a tensor in place; its version, if it has one, goes up. */
    method Mutate(t: Id, content: Content)
      requires Valid() && t < |tensors|
      modifies this`tensors, this`history
      ensures Valid() && Grows(old(history), history)
      ensures tensors == old(tensors)[t := Tensor(if old(tensors[t].version).Some? then Some(old(tensors[t].version).value + 1) else None, content)]
    {
      var now := Tensor(if tensors[t].version.Some? then Some(tensors[t].version.value + 1) else None, content);
      RecordedNext(tensors, history, t, now);
      ghost var grown := if now.version.Some? then history[(t, now.version.value) := now.content] else history;
      AllSoundGrows(canonical, history, grown, entries, patterns, outs);
      hide AllSound, Recorded, Grows;
      tensors := tensors[t := now];
      history := grown;
    }

    predicate InStore(ids: seq<Id>)
      reads this`tensors
    {
      forall i :: 0 <= i < |ids| ==> ids[i] < |tensors|
    }

    function KeyOf(req: Request): Key
      requires InStore(Inputs(req))
      reads this`tensors
    {
      Key(Inputs(req), VersionsOf(tensors, Inputs(req)), req.scalars)
    }

    /** A cached answer whose versions all still hold; it becomes the newest entry. */
    method Lookup(key: Key) returns (hit: Option<seq<Id>>)
      requires Valid()
      modifies this`entries
      ensures Valid()
      ensures var at := AnsweredBy(tensors, old(entries), key);
              && (at.None? ==> hit.None? && entries == old(entries))
              && (at.Some? ==> hit == Some(old(entries)[at.value].normalized) && entries == MoveToEnd(old(entries), at.value))
    {
      hit := None;
      hide AllSound, Recorded;
      if Cacheable(key) {
        match Find(entries, key)
        case None =>
        case Some(i) =>
          if Current(tensors, entries[i].saved) {
            hit := Some(entries[i].normalized);
            MoveKeeps(canonical, history, entries, patterns, outs, i);
            hide MoveToEnd, KeysDiffer;
            entries := MoveToEnd(entries, i);
          }
      }
    }

    /** Store the contents as new tensors. */
    method NewTensors(contents: seq<Content>) returns (ids: seq<Id>)
      requires Valid()
      modifies this`tensors, this`history
      ensures Valid() && Grows(old(history), history)
      ensures |old(tensors)| <= |tensors| && tensors[..|old(tensors)|] == old(tensors)
      ensures |ids| == |contents| && forall i :: 0 <= i < |ids| ==> |old(tensors)| <= ids[i] < |tensors|
      ensures forall i :: 0 <= i < |ids| ==> tensors[ids[i]] == Tensor(Some(0), contents[i])
    {
      ids := [];
      for n := 0 to |contents|
        invariant Valid() && Grows(old(history), history)
        invariant |old(tensors)| <= |tensors| && tensors[..|old(tensors)|] == old(tensors)
        invariant |ids| == n && forall i :: 0 <= i < n ==> |old(tensors)| <= ids[i] < |tensors|
        invariant forall i :: 0 <= i < n ==> tensors[ids[i]] == Tensor(Some(0), contents[i])
      {
        hide Valid;
        var t := NewTensor(contents[n], true);
        ids := ids + [t];
      }
    }

    /** Keep an answer for later, dropping the oldest entries beyond the capacity. */
    method Store(e: Entry, ghost pattern: Pattern, ghost outVersions: seq<Option<nat>>)
      requires Valid() && Sound(canonical, history, e, pattern, outVersions)
      modifies this`entries, this`patterns, this`outs
      ensures Valid() && entries == Newest(Put(old(entries), e)) && patterns == old(patterns)[e.key := pattern]
    {
      AllSoundPut(canonical, history, entries, patterns, outs, e, pattern, outVersions);
      hide AllSound, Recorded, KeysDiffer, Sound;
      ghost var all := Put(entries, e);
      entries := Put(entries, e);
      ghost var p, o := patterns[e.key := pattern], outs[e.key := outVersions];
      patterns, outs := p, o;
      assert all[0..] == all;
      ghost var n := 0;
      hide Put;
      while |entries| > CAPACITY
        invariant 0 <= n <= |all| && entries == all[n..] && patterns == p && outs == o
        invariant n > 0 ==> |entries| >= CAPACITY
        decreases |entries|
      {
        entries := entries[1..];
        n := n + 1;
      }
      NewestKeeps(canonical, history, all, patterns, outs, n);
    }

    /** What becomes of the table on a miss. */
    ghost predicate Kept(was: seq<Entry>, key: Key, answer: Option<seq<Id>>)
      requires |key.inputs| == |key.versions|
      reads this`tensors, this`entries
    {
      if answer.None? || !Cacheable(key) then entries == was
      else
        && (forall i :: 0 <= i < |answer.value| ==> answer.value[i] < |tensors| && tensors[answer.value[i]].version.Some?)
        && entries == Newest(Put(was, EntryFor(tensors, key, answer.value)))
    }

    /** The entry that answers a request that passes the first checks. */
    ghost function Hit(req: Request): (at: Option<nat>)
      requires InStore(Inputs(req))
      ensures at.Some? ==> at.value < |entries| && entries[at.value].key == KeyOf(req)
      reads this
    {
      if check(PatternOf(req), req.scalars, ContentsOf(tensors, Inputs(req))) then AnsweredBy(tensors, entries, KeyOf(req)) else None
    }

    /** The pattern of supplied fields the answer is made for: on a hit, the one the entry was
        made for. */
    ghost function PatternUsed(req: Request): Pattern
      requires Valid() && InStore(Inputs(req))
      reads this
    {
      if Hit(req).Some? then
        assert EntrySound(canonical, history, entries[Hit(req).value], patterns, outs);
        patterns[KeyOf(req)]
      else PatternOf(req)
    }

    /** Normalise the lists of a request. The answer is what recomputation gives for the contents
        as they are now, whatever was cached, evicted or changed in between, for the pattern of
        supplied fields that the entry under the same key was made for. */
    method Normalize(req: Request) returns (answer: Option<seq<Id>>)
      requires Valid() && InStore(Inputs(req))
      modifies this
      ensures Valid() && |old(tensors)| <= |tensors| && tensors[..|old(tensors)|] == old(tensors) && Grows(old(history), history)
      ensures Agrees(tensors, answer, canonical(old(PatternUsed(req)), req.scalars, ContentsOf(old(tensors), Inputs(req))))
      ensures var at := old(Hit(req));
              && (at.Some? ==> answer == Some(old(entries)[at.value].normalized) && entries == MoveToEnd(old(entries), at.value))
              && (at.None? ==> Kept(old(entries), old(KeyOf(req)), answer))
      ensures patterns == if old(Hit(req)).None? && answer.Some? && Cacheable(old(KeyOf(req)))
                          then old(patterns)[old(KeyOf(req)) := PatternOf(req)] else old(patterns)
    {
      if !check(PatternOf(req), req.scalars, ContentsOf(tensors, Inputs(req))) {
        return None;
      }
      var key := KeyOf(req);
      var hit := Lookup(key);
      if hit.Some? {
        HitAgrees(req, old(entries), AnsweredBy(tensors, old(entries), key).value);
        return hit;
      }
      hide Valid, Kept, MoveToEnd, Agrees;
      answer := Recompute(req, key);
    }

    lemma HitAgrees(req: Request, was: seq<Entry>, at: nat)
      requires Valid() && InStore(Inputs(req)) && at < |was| && was[at].key == KeyOf(req) && Current(tensors, was[at].saved)
      requires AllSound(canonical, history, was, patterns, outs)
      ensures forall i :: 0 <= i < |was[at].normalized| ==> was[at].normalized[i] < |tensors|
      ensures KeyOf(req) in patterns
      ensures Agrees(tensors, Some(was[at].normalized), canonical(patterns[KeyOf(req)], req.scalars, ContentsOf(tensors, Inputs(req))))
    {
      assert EntrySound(canonical, history, was[at], patterns, outs);
      CurrentIsFresh(canonical, tensors, history, was[at], patterns[was[at].key], outs[was[at].key]);
    }

    /** Compute an answer and, if every input has a version, keep it. */
    method Recompute(req: Request, key: Key) returns (answer: Option<seq<Id>>)
      requires Valid() && InStore(Inputs(req)) && key == KeyOf(req)
      modifies this
      ensures Valid() && |old(tensors)| <= |tensors| && tensors[..|old(tensors)|] == old(tensors) && Grows(old(history), history)
      ensures Agrees(tensors, answer, canonical(PatternOf(req), req.scalars, ContentsOf(old(tensors), Inputs(req))))
      ensures Kept(old(entries), key, answer)
      ensures patterns == if answer.Some? && Cacheable(key) then old(patterns)[key := PatternOf(req)] else old(patterns)
    {
      var now := canonical(PatternOf(req), req.scalars, ContentsOf(tensors, Inputs(req)));
      if now.None? { return None; }
      hide Valid;
      var ids := NewTensors(now.value);
      PrefixSame(old(tensors), tensors, Inputs(req));
      assert ContentsOf(tensors, ids) == now.value;
      answer := Some(ids);
      if Cacheable(key) {
        var outVersions := VersionsOf(tensors, ids);
        var e := EntryFor(tensors, key, ids);
        FreshIsSound(canonical, tensors, history, e, PatternOf(req), outVersions);
        hide Sound, Newest, Put;
        Store(e, PatternOf(req), outVersions);
      }
    }
  }

  /** The versions to save. */
  function Pairs(ids: seq<Id>, versions: seq<Option<nat>>): (p: seq<(Id, nat)>)
    requires |ids| == |versions| && forall i :: 0 <= i < |ids| ==> versions[i].Some?
    ensures |p| == |ids| && forall i :: 0 <= i < |ids| ==> p[i] == (ids[i], versions[i].value)
  {
    seq(|ids|, i requires 0 <= i < |ids| => (ids[i], versions[i].value))
  }

  /** If all requests so far supplied the same optional fields, no key can mislead. */
  ghost predicate OnePattern(patterns: map<Key, Pattern>, pattern: Pattern) {
    forall k :: k in patterns ==> patterns[k] == pattern
  }

  /** Normalising over a run that keeps one pattern: the answer is what recomputation gives. */
  method NormalizeOnePattern(cache: NormalizeCache, req: Request) returns (answer: Option<seq<Id>>)
    requires cache.Valid() && cache.InStore(Inputs(req)) && OnePattern(cache.patterns, PatternOf(req))
    modifies cache
    ensures cache.Valid() && OnePattern(cache.patterns, PatternOf(req))
    ensures |old(cache.tensors)| <= |cache.tensors| && cache.tensors[..|old(cache.tensors)|] == old(cache.tensors)
    ensures Agrees(cache.tensors, answer, cache.canonical(PatternOf(req), req.scalars, ContentsOf(old(cache.tensors), Inputs(req))))
  {
    UsedIsOne(cache, req);
    ghost var key := cache.KeyOf(req);
    hide AnsweredBy, Agrees, MoveToEnd, AllSound, Recorded, KeysDiffer;
    answer := cache.Normalize(req);
  }

  lemma UsedIsOne(cache: NormalizeCache, req: Request)
    requires cache.Valid() && cache.InStore(Inputs(req)) && OnePattern(cache.patterns, PatternOf(req))
    ensures cache.PatternUsed(req) == PatternOf(req)
  {
    var at := cache.Hit(req);
    if at.Some? {
      assert EntrySound(cache.canonical, cache.history, cache.entries[at.value], cache.patterns, cache.outs);
    }
    hide AnsweredBy, Sound;
  }
}
