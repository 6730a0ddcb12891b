/** One append against a loaded manifest: the decision, the new segments and the new directory. */
module Appending {
  import opened LogTypes
  import opened ObjectStores
  import opened IndexPages
  import opened IndexRoots
  import opened BulkLoad
  import opened Manifests
  import IndexTree
  import IndexWriter
  import ProducerTree
  import ProducerPages
  import ProducerWriter
  import opened ProducerWindow
  import opened Idempotence

  // -------------------------------------------------------------- what a decision leaves

  /** Every state is durable at the offset reached so far. */
  ghost predicate StatesReady(states: Directory, nextOffset: int) {
    forall id :: id in states ==> states[id].id == id && StateOk(states[id], nextOffset)
  }

  ghost predicate Ready(directory: Directory, d: Draft) {
    0 <= d.nextOffset <= I64_MAX && StatesReady(directory, d.nextOffset) && StatesReady(d.states, d.nextOffset)
  }

  /** The new batches take the offsets from `start` to `end`, disjoint and without a gap. */
  predicate Consecutive(entries: seq<Entry>, start: int, end: int) {
    if entries == [] then start == end
    else
      var front, last := entries[..|entries| - 1], entries[|entries| - 1];
      && 0 < last.batch.count <= MAX_BATCH_RECORDS
      && last.batch.baseOffset + last.batch.count == end
      && Consecutive(front, start, last.batch.baseOffset)
  }

  lemma {:induction false} ConsecutiveRises(entries: seq<Entry>, start: int, end: int)
    requires Consecutive(entries, start, end)
    ensures start + |entries| <= end
  {
    if entries != [] {
      ConsecutiveRises(entries[..|entries| - 1], start, entries[|entries| - 1].batch.baseOffset);
    }
  }

  lemma StatesLater(states: Directory, low: int, high: int)
    requires StatesReady(states, low) && low <= high
    ensures StatesReady(states, high)
  {
    forall id | id in states ensures StateOk(states[id], high) {
      WindowGrows(states[id], low, high);
    }
  }

  lemma DecideOneReady(directory: Directory, d: Draft, b: Batch, start: int)
    requires Ready(directory, d) && Admissible(b) && Consecutive(d.additions, start, d.nextOffset)
    ensures var r := DecideOne(directory, d, b);
      r.Ok? ==>
        && Ready(directory, r.value) && Consecutive(r.value.additions, start, r.value.nextOffset)
        && d.nextOffset <= r.value.nextOffset
        && (r.value.additions == d.additions || r.value.additions == d.additions + [EntryOf(b, d.nextOffset)])
  {
    hide Accept, StateOk, Usable;
    var r := DecideOne(directory, d, b);
    if r.Ok? {
      var after := r.value;
      if after.additions != d.additions {
        assert after.additions[..|after.additions| - 1] == d.additions;
      }
      if b.producer >= 0 {
        var st := StateFor(directory, d.states, b);
        StateForUsable(directory, d, b);
        AcceptKeepsStates(st, b.epoch, b.sequence, b.count, b.fingerprint, d.nextOffset);
        AcceptOffsets(st, b, d.nextOffset);
      }
      StatesLater(directory, d.nextOffset, after.nextOffset);
      StatesLater(d.states, d.nextOffset, after.nextOffset);
    }
  }

  function EntryOf(b: Batch, baseOffset: int): Entry {
    Entry(b.producer, b.epoch, BatchIdentity(b.sequence, b.count, baseOffset, b.fingerprint))
  }

  lemma StateForUsable(directory: Directory, d: Draft, b: Batch)
    requires Ready(directory, d) && Admissible(b) && b.producer >= 0
    ensures var st := StateFor(directory, d.states, b); Usable(st, d.nextOffset) && st.id == b.producer
  {
  }

  /** An accepted batch lies either at the next offset or wholly below it. */
  lemma AcceptOffsets(st: ProducerState, b: Batch, nextOffset: int)
    requires Usable(st, nextOffset) && 0 < b.count <= MAX_BATCH_RECORDS
    ensures var r := Accept(st, b.epoch, b.sequence, b.count, b.fingerprint, nextOffset).0;
      r.Ok? ==>
        && r.value.lastOffset == r.value.baseOffset + b.count - 1
        && (r.value.baseOffset == nextOffset ==> nextOffset + b.count <= I64_MAX)
  {
    AcceptMeaning(st, b.epoch, b.sequence, b.count, b.fingerprint, nextOffset);
    if IsRetry(st, b.epoch, b.sequence, b.count, b.fingerprint) {
      var c :| c in st.batches && c.sequence == b.sequence && c.count == b.count && c.fingerprint == b.fingerprint;
    }
  }

  lemma {:induction false} DecideAllReady(directory: Directory, d: Draft, batches: seq<Batch>, start: int)
    requires Ready(directory, d) && AllAdmissible(batches) && Consecutive(d.additions, start, d.nextOffset)
    ensures var r := DecideAll(directory, d, batches);
      r.Ok? ==>
        && Ready(directory, r.value) && Consecutive(r.value.additions, start, r.value.nextOffset)
        && d.nextOffset <= r.value.nextOffset
    decreases |batches|
  {
    hide Ready, Consecutive, DecideOne;
    if batches != [] {
      DecideOneReady(directory, d, batches[0], start);
      match DecideOne(directory, d, batches[0])
      case Err(_) =>
      case Ok(next) => DecideAllReady(directory, next, batches[1..], start);
    }
  }

  // -------------------------------------------------------------- requests made only of retries

  /** The producer's durable window remembers the batch, with its size and contents. */
  ghost predicate Remembered(known: Directory, b: Batch) {
    && b.producer >= 0 && b.producer in known
    && IsRetry(known[b.producer], b.epoch, b.sequence, b.count, b.fingerprint)
  }

  /** The offsets the remembered batch was first given. */
  ghost predicate Original(known: Directory, b: Batch, r: AppendResult) {
    && b.producer in known
    && exists c :: c in known[b.producer].batches && c.sequence == b.sequence && c.count == b.count
         && c.fingerprint == b.fingerprint && r == AppendResult(c.baseOffset, c.baseOffset + b.count - 1)
  }

  /** A draft that only met retries: nothing to add, and every touched state is the durable one. */
  ghost predicate Untouched(known: Directory, nextOffset: int, d: Draft) {
    && d.nextOffset == nextOffset && d.additions == []
    && forall id :: id in d.states ==> id in known && d.states[id] == known[id]
  }

  lemma RetryDecides(known: Directory, nextOffset: int, d: Draft, b: Batch)
    requires StatesReady(known, nextOffset) && Admissible(b) && Untouched(known, nextOffset, d) && Remembered(known, b)
    ensures var r := DecideOne(known, d, b);
      && r.Ok? && Untouched(known, nextOffset, r.value)
      && |r.value.results| == |d.results| + 1 && d.results <= r.value.results
      && Original(known, b, r.value.results[|d.results|])
  {
    hide Accept, IsRetry, IsNew, WindowOk;
    var st := known[b.producer];
    assert StateOk(st, nextOffset);
    AcceptMeaning(st, b.epoch, b.sequence, b.count, b.fingerprint, nextOffset);
  }

  lemma {:induction false} RetriesOnly(known: Directory, nextOffset: int, d: Draft, batches: seq<Batch>)
    requires StatesReady(known, nextOffset) && AllAdmissible(batches) && Untouched(known, nextOffset, d)
    requires forall i :: 0 <= i < |batches| ==> Remembered(known, batches[i])
    ensures var r := DecideAll(known, d, batches);
      && r.Ok? && r.value.additions == []
      && |r.value.results| == |d.results| + |batches| && d.results <= r.value.results
      && forall i :: 0 <= i < |batches| ==> Original(known, batches[i], r.value.results[|d.results| + i])
    decreases |batches|
  {
    hide StatesReady, Remembered, Original, DecideOne;
    if batches != [] {
      RetryDecides(known, nextOffset, d, batches[0]);
      var next := DecideOne(known, d, batches[0]).value;
      assert forall i :: 0 <= i < |batches[1..]| ==> batches[1..][i] == batches[i + 1];
      RetriesOnly(known, nextOffset, next, batches[1..]);
      var r := DecideAll(known, next, batches[1..]).value;
      forall i | 0 <= i < |batches| ensures Original(known, batches[i], r.results[|d.results| + i]) {
        if i == 0 {
          assert r.results[|d.results|] == next.results[|d.results|];
        } else {
          assert r.results[|next.results| + (i - 1)] == r.results[|d.results| + i];
        }
      }
    }
  }

  // -------------------------------------------------------------- deciding without publishing

  datatype Addition = Addition(baseOffset: int, count: nat, byteLength: nat)

  datatype Plan = Plan(states: Directory, additions: seq<Addition>, results: seq<AppendResult>, nextOffset: int)

  /** A planned segment is one batch of the request at the offsets of its log entry. */
  ghost predicate Planned(a: Addition, e: Entry, batches: seq<Batch>) {
    && a.baseOffset == e.batch.baseOffset && a.count == e.batch.count
    && exists b :: b in batches && e == EntryOf(b, a.baseOffset) && a.byteLength == b.byteLength
  }

  ghost predicate AllPlanned(additions: seq<Addition>, entries: seq<Entry>, batches: seq<Batch>) {
    |additions| == |entries| && forall i :: 0 <= i < |additions| ==> Planned(additions[i], entries[i], batches)
  }

  /** The plan is the decided draft. */
  ghost predicate PlanIs(plan: Plan, d: Draft, batches: seq<Batch>) {
    && plan.states == d.states && plan.results == d.results && plan.nextOffset == d.nextOffset
    && AllPlanned(plan.additions, d.additions, batches)
  }

  function OpenDraft(nextOffset: int): Draft {
    Draft(map[], nextOffset, [], [])
  }

  /** The stored state a batch needs, if its producer was not met before in the request. */
  ghost function KnownIn(objects: map<Key, Object>, directory: Option<ProducerRef>, initialOffset: int, states: Directory,
                         b: Batch): Result<Directory>
  {
    if b.producer < 0 || b.producer in states then Ok(map[])
    else
      var found :- ProducerPages.DescentIn(objects, directory, initialOffset, b.producer);
      Ok(if found.Some? then map[b.producer := found.value] else map[])
  }

  /** The decision loop on any contents of the store: its draft, or the first error it meets. */
  ghost function DecideIn(objects: map<Key, Object>, directory: Option<ProducerRef>, initialOffset: int, d: Draft,
                          batches: seq<Batch>): Result<Draft>
    decreases |batches|
  {
    if batches == [] then Ok(d)
    else
      var known :- KnownIn(objects, directory, initialOffset, d.states, batches[0]);
      var next :- DecideOne(known, d, batches[0]);
      DecideIn(objects, directory, initialOffset, next, batches[1..])
  }

  /** The loop of src/log.rs:370-420: it only reads, and does what is specified on any contents. */
  method DecideRequest(store: ObjectStore, directory: Option<ProducerRef>, initialOffset: int, batches: seq<Batch>)
    returns (r: Result<Plan>)
    modifies store`gets
    ensures r.Ok? ==> |r.value.results| == |batches|
    ensures var decided := DecideIn(store.objects, directory, initialOffset, OpenDraft(initialOffset), batches);
      && (decided.Err? ==> r == Err(decided.error))
      && (decided.Ok? ==> r.Ok? && PlanIs(r.value, decided.value, batches))
  {
    hide DecideIn, DecideOne, Accept, AllPlanned, Planned, ProducerPages.DescentIn;
    ghost var entries: seq<Entry> := [];
    var states: Directory := map[];
    var nextOffset := initialOffset;
    var additions: seq<Addition> := [];
    var results: seq<AppendResult> := [];
    NothingPlanned(batches);
    var i := 0;
    while i < |batches|
      invariant 0 <= i <= |batches| && |results| == i
      invariant DecideIn(store.objects, directory, initialOffset, Draft(states, nextOffset, entries, results), batches[i..])
        == DecideIn(store.objects, directory, initialOffset, OpenDraft(initialOffset), batches)
      invariant AllPlanned(additions, entries, batches)
    {
      var b := batches[i];
      ghost var before := Draft(states, nextOffset, entries, results);
      NextDecision(store.objects, directory, initialOffset, before, batches, i);
      ghost var known := KnownIn(store.objects, directory, initialOffset, states, b);
      var result: AppendResult;
      if b.producer >= 0 {
        var snapshot: Snapshot;
        if b.producer in states {
          snapshot := new Snapshot(states[b.producer]);
        } else {
          var loaded :- ProducerPages.LookupState(store, directory, b.producer, initialOffset);
          snapshot := new Snapshot(if loaded.Some? then loaded.value else ProducerState(b.producer, b.epoch, []));
        }
        assert snapshot.Value() == StateFor(known.value, states, b);
        var decided := snapshot.Decide(b.epoch, b.sequence, b.count, b.fingerprint, nextOffset);
        DecidesProducer(known.value, before, b);
        if decided.Err? {
          return Err(decided.error);
        }
        result := decided.value;
        states := states[b.producer := snapshot.Value()];
      } else {
        DecidesAnonymous(known.value, before, b);
        if nextOffset + b.count > I64_MAX {
          return Err(OffsetOverflow);
        }
        result := AppendResult(nextOffset, nextOffset + b.count - 1);
      }
      if result.baseOffset == nextOffset {
        MorePlanned(additions, entries, batches, i, nextOffset);
        entries := entries + [EntryOf(b, nextOffset)];
        additions := additions + [Addition(result.baseOffset, b.count, b.byteLength)];
        nextOffset := result.lastOffset + 1;
      }
      results := results + [result];
      i := i + 1;
    }
    AllDecided(store.objects, directory, initialOffset, Draft(states, nextOffset, entries, results), batches[|batches|..]);
    r := Ok(Plan(states, additions, results, nextOffset));
  }

  lemma NothingPlanned(batches: seq<Batch>)
    ensures AllPlanned([], [], batches)
  {
  }

  lemma AllDecided(objects: map<Key, Object>, directory: Option<ProducerRef>, initialOffset: int, d: Draft, rest: seq<Batch>)
    requires rest == []
    ensures DecideIn(objects, directory, initialOffset, d, rest) == Ok(d)
  {
  }

  lemma NextDecision(objects: map<Key, Object>, directory: Option<ProducerRef>, initialOffset: int, d: Draft,
                     batches: seq<Batch>, i: nat)
    requires i < |batches|
    ensures batches[0..] == batches
    ensures var known := KnownIn(objects, directory, initialOffset, d.states, batches[i]);
      && (known.Err? ==> DecideIn(objects, directory, initialOffset, d, batches[i..]) == Err(known.error))
      && (known.Ok? ==>
            var next := DecideOne(known.value, d, batches[i]);
            && (next.Err? ==> DecideIn(objects, directory, initialOffset, d, batches[i..]) == Err(next.error))
            && (next.Ok? ==> DecideIn(objects, directory, initialOffset, d, batches[i..])
                             == DecideIn(objects, directory, initialOffset, next.value, batches[i + 1..])))
  {
    hide DecideOne;
    assert batches[i..][0] == batches[i] && batches[i..][1..] == batches[i + 1..];
  }

  /**
   * Against a directory that was ever sound, of which collection may have left any part: the
   * decision is the one on the whole producer map, or it met a missing page.
   */
  lemma {:induction false} DecideMeans(objects: map<Key, Object>, ever: map<Key, Object>, directory: Option<ProducerRef>,
                                       initialOffset: int, d: Draft, batches: seq<Batch>)
    requires Extends(objects, ever) && ProducerWriter.DirectorySound(ever, directory, initialOffset)
    ensures var r := DecideIn(objects, directory, initialOffset, d, batches);
      || r == DecideAll(StatesOf(ever, directory, initialOffset), d, batches)
      || (r == Err(NotFound) && !ProducerWriter.DirectorySound(objects, directory, initialOffset))
    decreases |batches|
  {
    hide DecideOne, ProducerWriter.DirectorySound, StatesOf, ProducerPages.DescentIn;
    if batches != [] {
      var b := batches[0];
      var all := StatesOf(ever, directory, initialOffset);
      KnownMeans(objects, ever, directory, initialOffset, d.states, b);
      var known := KnownIn(objects, directory, initialOffset, d.states, b);
      if known.Ok? {
        SameDecision(known.value, all, d, b);
        if DecideOne(all, d, b).Ok? {
          DecideMeans(objects, ever, directory, initialOffset, DecideOne(all, d, b).value, batches[1..]);
        }
      }
    }
  }

  lemma KnownMeans(objects: map<Key, Object>, ever: map<Key, Object>, directory: Option<ProducerRef>, initialOffset: int,
                   states: Directory, b: Batch)
    requires Extends(objects, ever) && ProducerWriter.DirectorySound(ever, directory, initialOffset)
    ensures var known := KnownIn(objects, directory, initialOffset, states, b);
      && (known.Err? ==> known == Err(NotFound) && !ProducerWriter.DirectorySound(objects, directory, initialOffset))
      && (known.Ok? ==>
            StateFor(known.value, states, b) == StateFor(StatesOf(ever, directory, initialOffset), states, b)
            || b.producer < 0)
  {
    hide StatesOf, ProducerPages.DescentIn, ProducerPages.Sound;
    if b.producer >= 0 && b.producer !in states {
      LookupIs(ever, directory, initialOffset, b.producer);
      ProducerPages.DescentMeans(objects, ever, directory, initialOffset, b.producer);
    }
  }

  /** A decision looks at one state only. */
  lemma SameDecision(known: Directory, all: Directory, d: Draft, b: Batch)
    requires b.producer >= 0 ==> StateFor(known, d.states, b) == StateFor(all, d.states, b)
    ensures DecideOne(known, d, b) == DecideOne(all, d, b)
  {
    hide Accept;
  }

  lemma DecidesProducer(known: Directory, d: Draft, b: Batch)
    requires b.producer >= 0
    ensures var (r, st) := Accept(StateFor(known, d.states, b), b.epoch, b.sequence, b.count, b.fingerprint, d.nextOffset);
      DecideOne(known, d, b) ==
        if r.Err? then Err(r.error)
        else if r.value.baseOffset == d.nextOffset then
          Ok(Draft(d.states[b.producer := st], r.value.lastOffset + 1, d.additions + [EntryOf(b, d.nextOffset)],
                   d.results + [r.value]))
        else Ok(Draft(d.states[b.producer := st], d.nextOffset, d.additions, d.results + [r.value]))
  {
  }

  lemma DecidesAnonymous(known: Directory, d: Draft, b: Batch)
    requires b.producer < 0
    ensures DecideOne(known, d, b) ==
      if d.nextOffset + b.count > I64_MAX then Err(OffsetOverflow)
      else
        Ok(Draft(d.states, d.nextOffset + b.count, d.additions + [EntryOf(b, d.nextOffset)],
                 d.results + [AppendResult(d.nextOffset, d.nextOffset + b.count - 1)]))
  {
  }

  lemma MorePlanned(additions: seq<Addition>, entries: seq<Entry>, batches: seq<Batch>, i: nat, baseOffset: int)
    requires i < |batches| && AllPlanned(additions, entries, batches)
    ensures var b := batches[i];
      AllPlanned(additions + [Addition(baseOffset, b.count, b.byteLength)], entries + [EntryOf(b, baseOffset)], batches)
  {
    assert batches[i] in batches;
  }

  /** The descent answers as the map does. */
  lemma LookupIs(objects: map<Key, Object>, root: Option<ProducerRef>, nextOffset: int, id: int)
    requires ProducerWriter.DirectorySound(objects, root, nextOffset)
    ensures root.Some? ==> ProducerPages.Sound(objects, root.value, nextOffset)
    ensures var states := StatesOf(objects, root, nextOffset);
      ProducerPages.Answer(objects, root, nextOffset, id) == if id in states then Some(states[id]) else None
  {
    if root.Some? {
      var t := ProducerPages.Load(objects, root.value, nextOffset);
      ProducerTree.LookupCorrect(t, root.value.level, id);
      MappedFind(ProducerTree.States(t), id);
    }
  }

  // -------------------------------------------------------------- the private root

  /** A well-formed index, or one whose full tail was just sealed. */
  ghost predicate Open(ix: Index) {
    && |ix.tail| <= PAGE_ENTRIES
    && match ix.tree
       case None => ix.level == 0
       case Some(t) => IndexTree.Canonical(t, ix.level)
  }

  /** The segments added so far to the manifest an append started from. */
  ghost predicate Holding(before: map<Key, Object>, m: Manifest, after: map<Key, Object>, root: Root, extra: seq<Segment>)
    requires ManifestSound(before, m)
  {
    && PartsSound(after, root)
    && Open(IndexOf(after, root))
    && Contents(IndexOf(after, root)) == Log(before, m) + extra
    && Recorded(after, Contents(IndexOf(after, root)))
    && DistinctObjects(Contents(IndexOf(after, root)))
    && IndexKeys(after, root) <= ManifestKeys(before, m) + Created(before, after)
    && EndOffset(root.tail, TreeEnd(root)) == root.nextOffset
  }

  /** The fields an append keeps, and how it counts. */
  predicate Carried(m: Manifest, root: Root, added: nat, now: nat) {
    && root.schema == INDEX_SCHEMA && AdoptionKept(m, root.adoptedAt, now)
    && root.startOffset == StartOffset(m)
    && root.producers == ProducersOf(m)
    && root.revision == Revision(m) + added
  }

  lemma HoldingFrame(before: map<Key, Object>, m: Manifest, mid: map<Key, Object>, after: map<Key, Object>, root: Root,
                     extra: seq<Segment>)
    requires ManifestSound(before, m) && Holding(before, m, mid, root, extra)
    requires Extends(before, mid) && Extends(mid, after)
    ensures Holding(before, m, after, root, extra)
  {
    hide PartsSound, ManifestSound, Open;
    PartsFrame(mid, after, root);
  }

  lemma HoldingSealed(before: map<Key, Object>, m: Manifest, mid: map<Key, Object>, after: map<Key, Object>, root: Root,
                      sealed: Root, extra: seq<Segment>)
    requires ManifestSound(before, m) && Holding(before, m, mid, root, extra) && |root.tail| == PAGE_ENTRIES
    requires Extends(before, mid) && Extends(mid, after) && Sealed(mid, root, after, sealed)
    ensures Holding(before, m, after, sealed, extra)
    ensures forall added, now :: Carried(m, root, added, now) ==> Carried(m, sealed, added, now)
  {
    hide PartsSound, ManifestSound, Open, Sealed, IndexOf, IndexKeys, Contents, EndOffset, TreeEnd, Log, ManifestKeys;
    SealedFacts(mid, root, after, sealed);
    SizeOfTail(mid, root);
    OpenSealed(IndexOf(mid, root));
  }

  lemma SealedFacts(before: map<Key, Object>, root: Root, after: map<Key, Object>, sealed: Root)
    requires PartsSound(before, root) && Sealed(before, root, after, sealed)
    ensures sealed == root.(tree := sealed.tree, tail := [])
    ensures PartsSound(after, sealed) && IndexOf(after, sealed) == Seal(IndexOf(before, root))
    ensures EndOffset(sealed.tail, TreeEnd(sealed)) == EndOffset(root.tail, TreeEnd(root))
    ensures IndexKeys(after, sealed) <= IndexKeys(before, root) + Created(before, after)
  {
    hide PartsSound, Seal;
  }

  lemma OpenSealed(ix: Index)
    requires Open(ix) && |ix.tail| == PAGE_ENTRIES
    ensures Open(Seal(ix)) && Seal(ix).tail == [] && Contents(Seal(ix)) == Contents(ix)
  {
    SealCorrect(ix);
  }

  lemma SealableRoot(before: map<Key, Object>, m: Manifest, after: map<Key, Object>, root: Root, extra: seq<Segment>)
    requires ManifestSound(before, m) && Holding(before, m, after, root, extra)
    ensures PartsSound(after, root)
  {
  }

  /** A page lost from the private root is one of the manifest, or one created since. */
  lemma HoldingLost(before: map<Key, Object>, m: Manifest, first: map<Key, Object>, after: map<Key, Object>, root: Root,
                    extra: seq<Segment>, gone: set<Key>)
    requires ManifestSound(before, m) && Holding(before, m, after, root, extra) && gone <= first.Keys
    requires PartsSound(after, root) && LostPage(IndexKeys(after, root), gone)
    ensures LostPage(ManifestKeys(before, m) + Created(before, first), gone)
    ensures first == before ==> LostPage(ManifestKeys(before, m), gone)
  {
    hide PartsSound, Open, ManifestSound, LostPage, IndexKeys, ManifestKeys;
    LostMore(IndexKeys(after, root), ManifestKeys(before, m) + Created(before, after), gone);
    LostEarlier(ManifestKeys(before, m), before, first, after, gone);
  }

  /**
   * src/log.rs:599-623. From a manifest that was ever sound it fails only if a page of that manifest
   * was collected.
   */
  method AppendRoot(store: ObjectStore, m: Manifest, now: nat) returns (r: Result<Root>)
    requires store.Valid()
    requires m.Indexed? ==> |m.root.tail| <= PAGE_ENTRIES
    modifies store
    ensures store.Valid() && store.nextId >= old(store.nextId)
    ensures IndexWriter.Grew(old(store.ever), old(store.nextId), store.ever)
    ensures store.Gone() == old(store.Gone())
    ensures r.Ok? ==> |r.value.tail| <= PAGE_ENTRIES
    ensures ManifestSound(old(store.ever), m) ==>
      && (r.Err? ==> r.error == NotFound && LostPage(ManifestKeys(old(store.ever), m), store.Gone()))
      && (r.Ok? ==>
            && Holding(old(store.ever), m, store.ever, r.value, [])
            && Carried(m, r.value, 0, now)
            && r.value.nextOffset == NextOffset(m))
  {
    hide Holding, ManifestSound, RootSound, PartsSound, Sealed, ObjectStore.Gone, IndexWriter.Grew, LostPage, IndexKeys,
      ManifestKeys;
    IndexWriter.GrewNone(store.ever, store.nextId);
    ghost var before, gone := store.ever, store.Gone();
    store.GoneWasThere();
    ghost var sound := ManifestSound(before, m);
    var root: Root;
    match m {
      case Legacy(revision, nextOffset, segments) =>
        if sound {
          LegacySound(before, m);
        }
        root :- MigrateManifest(store, revision, nextOffset, segments, now);
        IndexWriter.GrewThen(before, old(store.nextId), before, old(store.nextId), store.ever);
        if sound {
          AdoptedRoot(before, m, store.ever, root);
        }
      case Indexed(loaded) =>
        root := loaded;
        if root.schema != INDEX_SCHEMA {
          root := root.(schema := INDEX_SCHEMA, adoptedAt := if root.adoptedAt.Some? then root.adoptedAt else Some(now));
        }
        if sound {
          LoadedRoot(before, m, root);
        }
    }
    ghost var mid, midId, full := store.ever, store.nextId, root;
    if |root.tail| == PAGE_ENTRIES {
      if sound {
        SealableRoot(before, m, mid, root, []);
      }
      var sealed := SealTail(store, root);
      IndexWriter.GrewThen(before, old(store.nextId), mid, midId, store.ever);
      if sound && sealed.Err? {
        HoldingLost(before, m, before, mid, root, [], gone);
      }
      root :- sealed;
      if sound {
        HoldingSealed(before, m, mid, store.ever, full, root, []);
      }
    }
    r := Ok(root);
  }

  lemma LegacySound(objects: map<Key, Object>, m: Manifest)
    requires ManifestSound(objects, m) && m.Legacy?
    ensures SegmentsOk(m.segments, 0) && Recorded(objects, m.segments)
    ensures EndOffset(m.segments, 0) == m.nextOffset
  {
  }

  lemma AdoptedRoot(before: map<Key, Object>, m: Manifest, after: map<Key, Object>, root: Root)
    requires ManifestSound(before, m) && m.Legacy? && Extends(before, after)
    requires PartsSound(after, root) && IndexOf(after, root) == Bulk(m.segments)
    requires EndOffset(root.tail, TreeEnd(root)) == m.nextOffset == root.nextOffset
    requires IndexKeys(after, root) <= SegmentKeys(m.segments) + Created(before, after)
    ensures Holding(before, m, after, root, []) && |root.tail| <= PAGE_ENTRIES
  {
    hide PartsSound, Bulk, LegacyOk, DistinctObjects;
    LegacySound(before, m);
    BulkCorrect(m.segments);
    assert m.segments + [] == m.segments;
    SizeOfTail(after, root);
  }

  lemma SizeOfTail(objects: map<Key, Object>, root: Root)
    requires PartsSound(objects, root)
    ensures |root.tail| <= PAGE_ENTRIES && IndexOf(objects, root).tail == root.tail
  {
  }

  lemma LoadedRoot(objects: map<Key, Object>, m: Manifest, root: Root)
    requires ManifestSound(objects, m) && m.Indexed?
    requires root == m.root.(schema := root.schema, adoptedAt := root.adoptedAt)
    ensures Holding(objects, m, objects, root, [])
    ensures m.root.schema == INDEX_SCHEMA ==> m.root.adoptedAt.Some?
  {
    hide Sound, SegmentsOk, Run, IndexTree.Canonical, ProducerWriter.DirectorySound;
    assert Log(objects, m) + [] == Log(objects, m);
    SoundParts(objects, m.root);
  }

  // -------------------------------------------------------------- new segments

  /** The segments written for a plan: its offsets, counts and lengths, under fresh keys. */
  ghost predicate Written(extra: seq<Segment>, additions: seq<Addition>, now: nat) {
    && |extra| == |additions|
    && forall i :: 0 <= i < |extra| ==>
      && extra[i].baseOffset == additions[i].baseOffset && extra[i].recordCount == additions[i].count
      && extra[i].byteLength == additions[i].byteLength && extra[i].receivedAt == Some(now)
  }

  /** Planned segments are within the limits and take the offsets from `start` without a gap. */
  predicate Placed(additions: seq<Addition>, start: int, end: int) {
    if additions == [] then start == end
    else
      var front, last := additions[..|additions| - 1], additions[|additions| - 1];
      && 0 < last.count <= MAX_BATCH_RECORDS && 0 < last.byteLength <= MAX_BATCH_BYTES
      && last.baseOffset + last.count == end
      && Placed(front, start, last.baseOffset)
  }

  /** How far the first i planned segments reach. */
  function Reach(additions: seq<Addition>, start: int): int {
    if additions == [] then start
    else additions[|additions| - 1].baseOffset + additions[|additions| - 1].count
  }

  lemma {:induction false} PlacedAt(additions: seq<Addition>, start: int, end: int, i: nat)
    requires Placed(additions, start, end) && i < |additions|
    ensures additions[i].baseOffset == Reach(additions[..i], start)
    ensures 0 < additions[i].count <= MAX_BATCH_RECORDS && 0 < additions[i].byteLength <= MAX_BATCH_BYTES
    ensures additions[i].baseOffset + additions[i].count == Reach(additions[..i + 1], start) <= end
  {
    var n := |additions| - 1;
    var front := additions[..n];
    PlacedEnd(front, start, additions[n].baseOffset);
    if i < n {
      PlacedAt(front, start, additions[n].baseOffset, i);
      assert front[..i] == additions[..i] && front[..i + 1] == additions[..i + 1];
    }
  }

  lemma PlacedEnd(additions: seq<Addition>, start: int, end: int)
    requires Placed(additions, start, end)
    ensures Reach(additions, start) == end
  {
  }

  /** One more segment in the tail. */
  lemma HoldingPushed(before: map<Key, Object>, m: Manifest, mid: map<Key, Object>, after: map<Key, Object>, root: Root,
                      extra: seq<Segment>, s: Segment, revision: nat)
    requires ManifestSound(before, m) && Holding(before, m, mid, root, extra) && |root.tail| < PAGE_ENTRIES
    requires Extends(before, mid) && s.key !in mid && after == mid[s.key := RecordObject(s.byteLength)]
    requires InLimits(s) && s.baseOffset == root.nextOffset && s.baseOffset + s.recordCount <= I64_MAX
    ensures Holding(before, m, after, root.(revision := revision, nextOffset := s.baseOffset + s.recordCount,
                                            tail := root.tail + [s]), extra + [s])
  {
    hide PartsSound, ManifestSound, Open, IndexKeys, IndexOf, SegmentsOk, Contents, Recorded, DistinctObjects,
      InLimits, TreeEnd;
    HoldingFrame(before, m, mid, after, root, extra);
    TailGrows(mid, root, s);
    PartsSame(after, root);
    Appended(after, root, s);
    var longer := root.(tail := root.tail + [s]);
    var final := root.(revision := revision, nextOffset := s.baseOffset + s.recordCount, tail := root.tail + [s]);
    PartsIgnore(after, longer, final);
    ContentsPushed(IndexOf(after, root), s);
    assert Log(before, m) + (extra + [s]) == (Log(before, m) + extra) + [s];
    RecordedMore(after, Contents(IndexOf(after, root)), s);
    FreshSegment(mid, Contents(IndexOf(after, root)), s);
    SizeOfTail(after, root);
    OpenPushed(IndexOf(after, root), s);
    assert (root.tail + [s])[|root.tail|] == s;
  }

  lemma PartsSame(objects: map<Key, Object>, root: Root)
    ensures TreeEnd(root) == TreeEnd(root.(tail := root.tail))
  {
  }

  lemma PartsIgnore(objects: map<Key, Object>, a: Root, b: Root)
    requires PartsSound(objects, a) && b == a.(revision := b.revision, nextOffset := b.nextOffset)
    ensures PartsSound(objects, b) && IndexOf(objects, b) == IndexOf(objects, a) && IndexKeys(objects, b) == IndexKeys(objects, a)
    ensures TreeEnd(b) == TreeEnd(a)
  {
    hide Sound, SegmentsOk;
  }

  lemma ContentsPushed(ix: Index, s: Segment)
    ensures Contents(ix.(tail := ix.tail + [s])) == Contents(ix) + [s]
  {
  }

  lemma OpenPushed(ix: Index, s: Segment)
    requires Open(ix) && |ix.tail| < PAGE_ENTRIES
    ensures Open(ix.(tail := ix.tail + [s])) && WellFormed(ix.(tail := ix.tail + [s]))
  {
  }

  lemma RecordedMore(objects: map<Key, Object>, segments: seq<Segment>, s: Segment)
    requires Recorded(objects, segments) && s.key in objects && objects[s.key] == RecordObject(s.byteLength)
    ensures Recorded(objects, segments + [s])
  {
  }

  /** A segment under a fresh key differs from every recorded one. */
  lemma FreshSegment(objects: map<Key, Object>, segments: seq<Segment>, s: Segment)
    requires Recorded(objects, segments) && DistinctObjects(segments) && s.key !in objects
    ensures DistinctObjects(segments + [s])
  {
    var longer := segments + [s];
    assert longer[..|segments|] == segments;
    SegmentKeysIn(segments, s.key);
  }

  /** A fresh segment at the next offset continues the tail. */
  lemma TailGrows(objects: map<Key, Object>, root: Root, s: Segment)
    requires PartsSound(objects, root) && Recorded(objects, Contents(IndexOf(objects, root)))
    requires EndOffset(root.tail, TreeEnd(root)) == root.nextOffset
    requires s.key !in objects && InLimits(s) && s.baseOffset == root.nextOffset && s.baseOffset + s.recordCount <= I64_MAX
    ensures SegmentsOk(root.tail + [s], TreeEnd(root))
  {
    hide PartsSound, Recorded, Contents, IndexOf, SegmentsOk, EndOffset, InLimits, TreeEnd;
    if s.key in SegmentKeys(root.tail) {
      TailPresent(objects, root, s.key);
      assert false;
    }
    TailOk(objects, root);
    Continues(root.tail, TreeEnd(root), s);
  }

  lemma TailOk(objects: map<Key, Object>, root: Root)
    requires PartsSound(objects, root)
    ensures SegmentsOk(root.tail, TreeEnd(root))
  {
    hide SegmentsOk;
  }

  lemma Continues(segments: seq<Segment>, start: int, s: Segment)
    requires SegmentsOk(segments, start) && s.key !in SegmentKeys(segments) && InLimits(s)
    requires s.baseOffset == EndOffset(segments, start) && s.baseOffset + s.recordCount <= I64_MAX
    ensures SegmentsOk(segments + [s], start)
  {
    var longer := segments + [s];
    assert longer[..|segments|] == segments;
  }

  lemma TailPresent(objects: map<Key, Object>, root: Root, k: Key)
    requires PartsSound(objects, root) && Recorded(objects, Contents(IndexOf(objects, root)))
    requires k in SegmentKeys(root.tail)
    ensures k in objects
  {
    hide Sound, SegmentsOk;
    SegmentKeysIn(root.tail, k);
    var i :| 0 <= i < |root.tail| && root.tail[i].key == k;
    var all := Contents(IndexOf(objects, root));
    assert all[|all| - |root.tail| + i] == root.tail[i];
  }

  /** What an append may assume about its private root and its plan. */
  ghost predicate Startable(before: map<Key, Object>, m: Manifest, objects: map<Key, Object>, root: Root,
                            additions: seq<Addition>, end: int, now: nat)
  {
    && ManifestSound(before, m) && Extends(before, objects)
    && Holding(before, m, objects, root, []) && Carried(m, root, 0, now) && root.nextOffset == NextOffset(m)
    && Placed(additions, NextOffset(m), end) && end <= I64_MAX
  }

  /** The private root after the first i planned segments. */
  ghost predicate Filled(before: map<Key, Object>, m: Manifest, objects: map<Key, Object>, root: Root, extra: seq<Segment>,
                         additions: seq<Addition>, i: nat, now: nat)
  {
    && i <= |additions|
    && ManifestSound(before, m) && Extends(before, objects)
    && Holding(before, m, objects, root, extra) && Carried(m, root, i, now)
    && Written(extra, additions[..i], now)
    && root.nextOffset == Reach(additions[..i], NextOffset(m))
    && (i > 0 ==> root.tail != [])
  }

  lemma FilledNone(before: map<Key, Object>, m: Manifest, objects: map<Key, Object>, root: Root, additions: seq<Addition>,
                   end: int, now: nat)
    requires Startable(before, m, objects, root, additions, end, now)
    ensures Filled(before, m, objects, root, [], additions, 0, now)
  {
    hide Holding, ManifestSound;
  }

  lemma FilledFacts(before: map<Key, Object>, m: Manifest, objects: map<Key, Object>, root: Root, extra: seq<Segment>,
                    additions: seq<Addition>, i: nat, now: nat)
    requires Filled(before, m, objects, root, extra, additions, i, now)
    ensures PartsSound(objects, root) && root.revision == Revision(m) + i
  {
  }

  lemma FilledLost(before: map<Key, Object>, m: Manifest, first: map<Key, Object>, objects: map<Key, Object>, root: Root,
                   extra: seq<Segment>, additions: seq<Addition>, i: nat, now: nat, gone: set<Key>)
    requires Filled(before, m, objects, root, extra, additions, i, now) && gone <= first.Keys
    requires PartsSound(objects, root) && LostPage(IndexKeys(objects, root), gone)
    ensures ManifestSound(before, m) && LostPage(ManifestKeys(before, m) + Created(before, first), gone)
  {
    hide Holding, PartsSound, ManifestSound, LostPage, IndexKeys, ManifestKeys;
    HoldingLost(before, m, first, objects, root, extra, gone);
  }

  lemma FilledSealed(before: map<Key, Object>, m: Manifest, mid: map<Key, Object>, after: map<Key, Object>, root: Root,
                     sealed: Root, extra: seq<Segment>, additions: seq<Addition>, i: nat, now: nat)
    requires Filled(before, m, mid, root, extra, additions, i, now) && |root.tail| == PAGE_ENTRIES
    requires Extends(mid, after) && PartsSound(mid, root) && Sealed(mid, root, after, sealed)
    ensures i < |additions| ==> FilledBut(before, m, after, sealed, extra, additions, i, now)
  {
    hide Holding, ManifestSound, PartsSound, Carried;
    HoldingSealed(before, m, mid, after, root, sealed, extra);
    assert sealed.nextOffset == root.nextOffset by {
      SealedKeeps(mid, root, after, sealed);
    }
  }

  lemma SealedKeeps(before: map<Key, Object>, root: Root, after: map<Key, Object>, sealed: Root)
    requires PartsSound(before, root) && Sealed(before, root, after, sealed)
    ensures sealed.nextOffset == root.nextOffset && sealed.tail == [] && sealed.revision == root.revision
  {
  }

  /** As `Filled`, but the tail may just have been sealed. */
  ghost predicate FilledBut(before: map<Key, Object>, m: Manifest, objects: map<Key, Object>, root: Root,
                            extra: seq<Segment>, additions: seq<Addition>, i: nat, now: nat)
  {
    && i <= |additions|
    && ManifestSound(before, m) && Extends(before, objects)
    && Holding(before, m, objects, root, extra) && Carried(m, root, i, now)
    && Written(extra, additions[..i], now)
    && root.nextOffset == Reach(additions[..i], NextOffset(m))
  }

  lemma FilledNext(before: map<Key, Object>, m: Manifest, mid: map<Key, Object>, after: map<Key, Object>, root: Root,
                   extra: seq<Segment>, additions: seq<Addition>, i: nat, now: nat, end: int, s: Segment)
    requires FilledBut(before, m, mid, root, extra, additions, i, now) && |root.tail| < PAGE_ENTRIES
    requires Placed(additions, NextOffset(m), end) && end <= I64_MAX && i < |additions|
    requires s.key.SegmentKey? && s.key !in mid && after == mid[s.key := RecordObject(s.byteLength)]
    requires s == Segment(s.key, additions[i].baseOffset, additions[i].count, additions[i].byteLength, Some(now))
    ensures Filled(before, m, after, root.(revision := root.revision + 1, nextOffset := s.baseOffset + s.recordCount,
                                           tail := root.tail + [s]), extra + [s], additions, i + 1, now)
  {
    hide Holding, ManifestSound, Placed;
    PlacedAt(additions, NextOffset(m), end, i);
    HoldingPushed(before, m, mid, after, root, extra, s, root.revision + 1);
    WrittenMore(extra, additions, i, now, s);
  }

  /**
   * The loop of src/log.rs:424-446. The new record objects are created under fresh keys, in order. A
   * missing object is a page of the manifest, or one the attempt itself had put.
   */
  method WriteSegments(store: ObjectStore, ghost before: map<Key, Object>, ghost m: Manifest, start: Root,
                       additions: seq<Addition>, now: nat, ghost end: int)
    returns (r: Result<Root>, ghost extra: seq<Segment>)
    requires store.Valid() && |start.tail| <= PAGE_ENTRIES
    modifies store
    ensures store.Valid() && store.nextId >= old(store.nextId)
    ensures IndexWriter.Grew(old(store.ever), old(store.nextId), store.ever)
    ensures store.Gone() == old(store.Gone())
    ensures Startable(before, m, old(store.ever), start, additions, end, now) ==>
      && (r.Err? ==>
            || (r.error == RevisionOverflow && Revision(m) + |additions| > U64_MAX)
            || (r.error == NotFound && LostPage(ManifestKeys(before, m) + Created(before, old(store.ever)), store.Gone())))
      && (r.Ok? ==>
            && (Revision(m) + |additions| <= U64_MAX || additions == [])
            && Filled(before, m, store.ever, r.value, extra, additions, |additions|, now))
  {
    hide Startable, Filled, FilledBut, Sealed, PartsSound, ObjectStore.Gone, IndexWriter.Grew, LostPage, IndexKeys,
      ManifestKeys, ManifestSound;
    IndexWriter.GrewNone(store.ever, store.nextId);
    ghost var gone := store.Gone();
    store.GoneWasThere();
    ghost var sound := Startable(before, m, store.ever, start, additions, end, now);
    ghost var first := store.ever;
    var root := start;
    extra := [];
    var i := 0;
    if sound {
      FilledNone(before, m, first, root, additions, end, now);
    }
    while i < |additions|
      invariant 0 <= i <= |additions| && |root.tail| <= PAGE_ENTRIES
      invariant store.Valid() && store.nextId >= old(store.nextId)
      invariant IndexWriter.Grew(first, old(store.nextId), store.ever)
      invariant store.Gone() == old(store.Gone())
      invariant sound ==> Filled(before, m, store.ever, root, extra, additions, i, now)
      invariant sound ==> i == 0 || Revision(m) + i <= U64_MAX
    {
      ghost var mid, midId, full := store.ever, store.nextId, root;
      if sound {
        FilledFacts(before, m, mid, root, extra, additions, i, now);
        FilledIsBut(before, m, mid, root, extra, additions, i, now);
      }
      if |root.tail| == PAGE_ENTRIES {
        var sealed := SealTail(store, root);
        IndexWriter.GrewThen(first, old(store.nextId), mid, midId, store.ever);
        if sealed.Err? {
          if sound {
            FilledLost(before, m, first, mid, root, extra, additions, i, now, gone);
          }
          r := Err(sealed.error);
          return;
        }
        root := sealed.value;
        if sound {
          FilledSealed(before, m, mid, store.ever, full, root, extra, additions, i, now);
        }
      }
      var a := additions[i];
      var id := store.FreshId();
      if root.revision + 1 > U64_MAX {
        r := Err(RevisionOverflow);
        return;
      }
      var s := Segment(SegmentKey(id), a.baseOffset, a.count, a.byteLength, Some(now));
      ghost var later, plain := store.ever, root;
      root := root.(revision := root.revision + 1, nextOffset := a.baseOffset + a.count, tail := root.tail + [s]);
      var put := store.PutCreate(s.key, RecordObject(a.byteLength));
      IndexWriter.GrewOne(first, old(store.nextId), later, s.key, RecordObject(a.byteLength));
      if sound {
        Ends(before, m, first, start, additions, end, now);
        FilledNext(before, m, later, store.ever, plain, extra, additions, i, now, end, s);
      }
      extra := extra + [s];
      i := i + 1;
    }
    r := Ok(root);
  }

  lemma FilledIsBut(before: map<Key, Object>, m: Manifest, objects: map<Key, Object>, root: Root, extra: seq<Segment>,
                    additions: seq<Addition>, i: nat, now: nat)
    requires Filled(before, m, objects, root, extra, additions, i, now)
    ensures FilledBut(before, m, objects, root, extra, additions, i, now)
  {
  }

  lemma Ends(before: map<Key, Object>, m: Manifest, objects: map<Key, Object>, root: Root, additions: seq<Addition>, end: int,
             now: nat)
    requires Startable(before, m, objects, root, additions, end, now)
    ensures Placed(additions, NextOffset(m), end) && end <= I64_MAX
  {
  }

  lemma WrittenMore(extra: seq<Segment>, additions: seq<Addition>, i: nat, now: nat, s: Segment)
    requires i < |additions| && Written(extra, additions[..i], now)
    requires s.baseOffset == additions[i].baseOffset && s.recordCount == additions[i].count
    requires s.byteLength == additions[i].byteLength && s.receivedAt == Some(now)
    ensures Written(extra + [s], additions[..i + 1], now)
  {
  }
}
