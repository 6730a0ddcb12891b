/** The append path as one operation: what it publishes is the loaded manifest extended by the decision. */
module Committing {
  import opened LogTypes
  import opened ObjectStores
  import opened IndexPages
  import opened IndexRoots
  import opened BulkLoad
  import opened Manifests
  import FiniteSets
  import IndexTree
  import IndexWriter
  import ProducerTree
  import ProducerPages
  import ProducerWriter
  import opened ProducerWindow
  import opened Idempotence
  import opened Appending

  // -------------------------------------------------------------- the directory

  /** A directory that denotes a map and reaches only old keys and created ones. */
  ghost predicate DirectoryIs(before: map<Key, Object>, old_: set<Key>, after: map<Key, Object>, root: Option<ProducerRef>,
                              nextOffset: int, states: Directory)
  {
    && ProducerWriter.DirectorySound(after, root, nextOffset)
    && StatesOf(after, root, nextOffset) == states
    && ProducerWriter.DirectoryKeys(after, root, nextOffset) <= old_ + Created(before, after)
  }

  lemma DirectoryIsFrame(before: map<Key, Object>, old_: set<Key>, mid: map<Key, Object>, after: map<Key, Object>,
                         root: Option<ProducerRef>, low: int, high: int, states: Directory)
    requires DirectoryIs(before, old_, mid, root, low, states) && Extends(before, mid) && Extends(mid, after) && low <= high
    ensures DirectoryIs(before, old_, after, root, high, states)
  {
    hide ProducerWriter.DirectorySound, ProducerWriter.Directory, ProducerWriter.DirectoryKeys;
    ProducerWriter.DirectoryFrame(mid, after, root, low, high);
  }

  /** One update sets one key. */
  lemma DirectoryIsUpdated(before: map<Key, Object>, old_: set<Key>, mid: map<Key, Object>, after: map<Key, Object>,
                           root: Option<ProducerRef>, result: ProducerRef, nextOffset: int, states: Directory,
                           st: ProducerState)
    requires DirectoryIs(before, old_, mid, root, nextOffset, states) && Extends(before, mid) && Extends(mid, after)
    requires ProducerWriter.Updated(mid, root, after, result, st, nextOffset)
    ensures DirectoryIs(before, old_, after, Some(result), nextOffset, states[st.id := st])
  {
    hide ProducerTree.WellFormed, ProducerTree.Update, ProducerPages.Sound, ProducerPages.Load, ProducerPages.Keys;
    var t := ProducerWriter.Directory(mid, root, nextOffset);
    var level := if root.Some? then root.value.level else 0;
    ProducerTree.UpdateCorrect(t, level, st);
    SortedContents(t, level);
    MappedUpsert(ProducerTree.Contents(t), st);
  }

  lemma SortedContents(t: Option<ProducerTree.Tree>, level: nat)
    requires t.Some? ==> ProducerTree.WellFormed(t.value, level)
    ensures ProducerTree.Sorted(ProducerTree.Contents(t))
  {
  }

  /** The decided states that are not waiting any more. */
  function Settled(states: Directory, pending: set<int>): Directory {
    map id | id in states && id !in pending :: states[id]
  }

  lemma SettleOne(known: Directory, states: Directory, pending: set<int>, id: int)
    requires id in pending && id in states
    ensures known + Settled(states, pending - {id}) == (known + Settled(states, pending))[id := states[id]]
  {
  }

  lemma SettledEnds(known: Directory, states: Directory)
    ensures known + Settled(states, states.Keys) == known
    ensures known + Settled(states, {}) == known + states
  {
    assert Settled(states, states.Keys) == map[];
    assert Settled(states, {}) == states;
  }

  /** A page lost from the directory is an old one, or one created since. */
  lemma DirectoryLost(before: map<Key, Object>, old_: set<Key>, first: map<Key, Object>, after: map<Key, Object>,
                      root: Option<ProducerRef>, nextOffset: int, states: Directory, gone: set<Key>)
    requires DirectoryIs(before, old_, after, root, nextOffset, states) && gone <= first.Keys
    requires ProducerWriter.DirectorySound(after, root, nextOffset)
    requires LostPage(ProducerWriter.DirectoryKeys(after, root, nextOffset), gone)
    ensures LostPage(old_ + Created(before, first), gone)
  {
    hide ProducerWriter.DirectorySound, ProducerWriter.DirectoryKeys, LostPage;
    LostMore(ProducerWriter.DirectoryKeys(after, root, nextOffset), old_ + Created(before, after), gone);
    LostEarlier(old_, before, first, after, gone);
  }

  /** The loop of src/log.rs:447-457: every decided state, in order of identifiers. */
  method UpdateStates(store: ObjectStore, start: Option<ProducerRef>, states: Directory, nextOffset: int,
                      ghost before: map<Key, Object>, ghost old_: set<Key>, ghost known: Directory)
    returns (r: Result<Option<ProducerRef>>)
    requires store.Valid()
    modifies store
    ensures store.Valid() && store.nextId >= old(store.nextId)
    ensures IndexWriter.Grew(old(store.ever), old(store.nextId), store.ever)
    ensures store.Gone() == old(store.Gone())
    ensures
      && DirectoryIs(before, old_, old(store.ever), start, nextOffset, known)
      && Extends(before, old(store.ever)) && StatesReady(states, nextOffset)
      ==>
      && (r.Err? ==> r.error == NotFound && LostPage(old_ + Created(before, old(store.ever)), store.Gone()))
      && (r.Ok? ==> DirectoryIs(before, old_, store.ever, r.value, nextOffset, known + states))
  {
    hide DirectoryIs, ProducerWriter.DirectorySound, ProducerWriter.DirectoryKeys, ProducerWriter.Updated, StateOk, Settled,
      ObjectStore.Gone, LostPage;
    ghost var gone := store.Gone();
    store.GoneWasThere();
    ghost var first := store.ever;
    ghost var sound :=
      DirectoryIs(before, old_, first, start, nextOffset, known) && Extends(before, first) && StatesReady(states, nextOffset);
    var producers := start;
    var pending := states.Keys;
    SettledEnds(known, states);
    while pending != {}
      invariant store.Valid() && store.nextId >= old(store.nextId)
      invariant IndexWriter.Grew(first, old(store.nextId), store.ever)
      invariant store.Gone() == old(store.Gone())
      invariant pending <= states.Keys
      invariant sound ==>
        DirectoryIs(before, old_, store.ever, producers, nextOffset, known + Settled(states, pending))
      decreases |pending|
    {
      ghost var least := FiniteSets.LeastNumber(pending);
      var id :| id in pending && forall other :: other in pending ==> id <= other;
      ghost var mid, root := store.ever, producers;
      if sound {
        DirectoryIsSound(before, old_, mid, root, nextOffset, known + Settled(states, pending));
      }
      var updated := ProducerWriter.UpdateProducer(store, producers, states[id], nextOffset);
      if updated.Err? {
        if sound {
          DirectoryLost(before, old_, first, mid, root, nextOffset, known + Settled(states, pending), gone);
        }
        return Err(updated.error);
      }
      if sound {
        DirectoryIsUpdated(before, old_, mid, store.ever, root, updated.value, nextOffset,
                           known + Settled(states, pending), states[id]);
        SettleOne(known, states, pending, id);
      }
      producers := Some(updated.value);
      pending := pending - {id};
    }
    r := Ok(producers);
  }

  lemma DirectoryIsSound(before: map<Key, Object>, old_: set<Key>, after: map<Key, Object>, root: Option<ProducerRef>,
                         nextOffset: int, states: Directory)
    requires DirectoryIs(before, old_, after, root, nextOffset, states)
    ensures ProducerWriter.DirectorySound(after, root, nextOffset)
  {
  }

  // -------------------------------------------------------------- what an append publishes

  /** The new segments are the new batches, at their decided offsets. */
  ghost predicate NewSegments(extra: seq<Segment>, entries: seq<Entry>, batches: seq<Batch>, now: nat) {
    && |extra| == |entries|
    && forall i :: 0 <= i < |extra| ==>
      && extra[i].baseOffset == entries[i].batch.baseOffset && extra[i].recordCount == entries[i].batch.count
      && extra[i].receivedAt == Some(now)
      && exists b :: b in batches && entries[i] == EntryOf(b, extra[i].baseOffset) && extra[i].byteLength == b.byteLength
  }

  /** A sound root that continues a manifest: its log, states and keys are the old ones and the request's. */
  ghost predicate Continued(before: map<Key, Object>, m: Manifest, after: map<Key, Object>, root: Root, d: Draft,
                            batches: seq<Batch>, now: nat)
    requires ManifestSound(before, m)
  {
    && RootSound(after, root)
    && root.schema == INDEX_SCHEMA && AdoptionKept(m, root.adoptedAt, now)
    && root.startOffset == StartOffset(m)
    && root.nextOffset == d.nextOffset
    && root.revision == Revision(m) + |d.additions|
    && Log(before, m) <= Log(after, Indexed(root))
    && NewSegments(Log(after, Indexed(root))[|Log(before, m)|..], d.additions, batches, now)
    && ManifestStates(after, Indexed(root)) == ManifestStates(before, m) + d.states
    && ManifestKeys(after, Indexed(root)) <= ManifestKeys(before, m) + Created(before, after)
  }

  /** The decision of a whole request against a manifest. */
  ghost function Decision(objects: map<Key, Object>, m: Manifest, batches: seq<Batch>): Result<Draft>
    requires ManifestSound(objects, m)
  {
    DecideAll(ManifestStates(objects, m), OpenDraft(NextOffset(m)), batches)
  }

  /** The decision of a request on any contents of the store. */
  ghost function DecisionIn(objects: map<Key, Object>, m: Manifest, batches: seq<Batch>): Result<Draft> {
    DecideIn(objects, ProducersOf(m), NextOffset(m), OpenDraft(NextOffset(m)), batches)
  }

  /**
   * Against a manifest that was ever sound, of which collection may have left any part: a request
   * is decided as on the whole manifest, or an object was missing.
   */
  lemma DecisionMeans(objects: map<Key, Object>, ever: map<Key, Object>, m: Manifest, batches: seq<Batch>)
    requires Extends(objects, ever) && ManifestSound(ever, m)
    ensures var r := DecisionIn(objects, m, batches);
      || r == Decision(ever, m, batches)
      || (r == Err(NotFound) && !ManifestSound(objects, m))
  {
    hide DecideIn, DecideAll, PartsSound, WellFormed, RootOk, ProducerWriter.DirectorySound, StatesOf;
    if m.Indexed? {
      SoundParts(ever, m.root);
    } else {
      NoStates(ever, m.nextOffset);
      NoStates(objects, m.nextOffset);
    }
    DecideMeans(objects, ever, ProducersOf(m), NextOffset(m), OpenDraft(NextOffset(m)), batches);
  }

  /**
   * A request made only of remembered batches has no additions and returns their original offsets,
   * so the append publishes and writes nothing (see PrepareAppend).
   */
  lemma RetryChangesNothing(objects: map<Key, Object>, m: Manifest, batches: seq<Batch>)
    requires ManifestSound(objects, m) && AllAdmissible(batches)
    requires forall i :: 0 <= i < |batches| ==> Remembered(ManifestStates(objects, m), batches[i])
    ensures var decided := DecisionIn(objects, m, batches);
      && decided.Ok? && decided.value.additions == []
      && |decided.value.results| == |batches|
      && forall i :: 0 <= i < |batches| ==>
           Original(ManifestStates(objects, m), batches[i], decided.value.results[i])
  {
    hide DecideIn, DecideAll, PartsSound, WellFormed, RootOk, ProducerWriter.DirectorySound, StatesOf, StatesReady, Remembered,
      Original;
    if m.Indexed? {
      SoundParts(objects, m.root);
      StatesAreReady(objects, m.root.producers, m.root.nextOffset);
    } else {
      NoStatesReady(NextOffset(m));
    }
    DecisionMeans(objects, objects, m, batches);
    RetriesOnly(ManifestStates(objects, m), NextOffset(m), OpenDraft(NextOffset(m)), batches);
  }

  lemma NoStatesReady(nextOffset: int)
    ensures StatesReady(map[], nextOffset)
  {
  }

  predicate Loadable(m: Manifest) {
    m.Indexed? ==> |m.root.tail| <= PAGE_ENTRIES
  }

  /** One answer for a whole request: from where its first batch begins to where its last one ends. */
  predicate Spans(results: seq<AppendResult>, answer: AppendResult) {
    && results != []
    && answer.baseOffset == results[0].baseOffset
    && answer.lastOffset == results[|results| - 1].lastOffset
  }

  /** As many additions as batches: the request takes the next offsets, from its first record to its last. */
  lemma {:induction false} AllNewSpan(known: Directory, d: Draft, batches: seq<Batch>)
    requires batches != [] && DecideAll(known, d, batches).Ok?
    requires |DecideAll(known, d, batches).value.additions| >= |d.additions| + |batches|
    ensures var r := DecideAll(known, d, batches).value;
      && |r.results| == |d.results| + |batches|
      && r.results[|d.results|].baseOffset == d.nextOffset
      && r.results[|r.results| - 1].lastOffset == r.nextOffset - 1
    decreases |batches|
  {
    hide Accept;
    var next := DecideOne(known, d, batches[0]).value;
    ResultPerBatch(known, d, batches);
    AdditionsBound(known, next, batches[1..]);
    if |batches| > 1 {
      AllNewSpan(known, next, batches[1..]);
      ResultsKept(known, next, batches[1..]);
    } else {
      assert batches[1..] == [];
    }
  }

  lemma {:induction false} AdditionsBound(known: Directory, d: Draft, batches: seq<Batch>)
    ensures DecideAll(known, d, batches).Ok? ==> |DecideAll(known, d, batches).value.additions| <= |d.additions| + |batches|
    decreases |batches|
  {
    hide Accept;
    if batches != [] {
      match DecideOne(known, d, batches[0])
      case Err(_) =>
      case Ok(next) => AdditionsBound(known, next, batches[1..]);
    }
  }

  lemma {:induction false} ResultsKept(known: Directory, d: Draft, batches: seq<Batch>)
    ensures DecideAll(known, d, batches).Ok? ==> d.results <= DecideAll(known, d, batches).value.results
    decreases |batches|
  {
    hide Accept;
    if batches != [] {
      match DecideOne(known, d, batches[0])
      case Err(_) =>
      case Ok(next) => ResultsKept(known, next, batches[1..]);
    }
  }

  /** A request of new batches only is answered with exactly the offsets it was given. */
  lemma AnswerOfNew(objects: map<Key, Object>, m: Manifest, batches: seq<Batch>, answer: AppendResult)
    requires ManifestSound(objects, m) && batches != [] && Decision(objects, m, batches).Ok?
    requires |Decision(objects, m, batches).value.additions| == |batches|
    requires Spans(Decision(objects, m, batches).value.results, answer)
    ensures answer == AppendResult(NextOffset(m), Decision(objects, m, batches).value.nextOffset - 1)
  {
    hide DecideAll, ManifestSound;
    AllNewSpan(ManifestStates(objects, m), OpenDraft(NextOffset(m)), batches);
  }

  /** A request of remembered batches only is answered with their original offsets, first to last. */
  lemma AnswerOfRetries(objects: map<Key, Object>, m: Manifest, batches: seq<Batch>, answer: AppendResult)
    requires ManifestSound(objects, m) && AllAdmissible(batches) && batches != []
    requires forall i :: 0 <= i < |batches| ==> Remembered(ManifestStates(objects, m), batches[i])
    requires DecisionIn(objects, m, batches).Ok? ==> Spans(DecisionIn(objects, m, batches).value.results, answer)
    ensures var n, states := |batches| - 1, ManifestStates(objects, m);
      && Original(states, batches[0], AppendResult(answer.baseOffset, answer.baseOffset + batches[0].count - 1))
      && Original(states, batches[n], AppendResult(answer.lastOffset - batches[n].count + 1, answer.lastOffset))
  {
    hide ManifestSound, DecisionIn, Remembered;
    RetryChangesNothing(objects, m, batches);
    var results := DecisionIn(objects, m, batches).value.results;
    assert Original(ManifestStates(objects, m), batches[0], results[0]);
    assert Original(ManifestStates(objects, m), batches[|batches| - 1], results[|batches| - 1]);
  }

  /** A manifest of which a page was collected is not sound in what is left. */
  lemma LostUnsound(objects: map<Key, Object>, ever: map<Key, Object>, m: Manifest)
    requires Extends(objects, ever) && ManifestSound(ever, m)
    requires LostPage(ManifestKeys(ever, m), ever.Keys - objects.Keys)
    ensures !ManifestSound(objects, m)
  {
    hide ManifestSound, ManifestKeys;
    if ManifestSound(objects, m) {
      ManifestFrame(objects, ever, m);
      var k :| k in ManifestKeys(ever, m) && k in ever.Keys - objects.Keys;
      KeysPresent(objects, m, k);
    }
  }

  /**
   * src/log.rs:352-460. On any contents of the store the answer is that of the decision, and a
   * request that is refused or has no new batches publishes and writes nothing. For a manifest that
   * was ever sound, of which collection may have left any part, the decision is the one on its
   * producer map, and the root offered is sound and continues the manifest; the attempt stops only
   * on a refused request, a full revision counter, or because something the manifest reaches is
   * missing: while all of that is there, nothing is ever not found.
   */
  method PrepareAppend(store: ObjectStore, m: Manifest, batches: seq<Batch>, now: nat)
    returns (r: Result<(AppendResult, Option<Root>)>)
    requires store.Valid() && Loadable(m)
    requires batches != [] && AllAdmissible(batches)
    modifies store
    ensures store.Valid() && store.nextId >= old(store.nextId)
    ensures IndexWriter.Grew(old(store.ever), old(store.nextId), store.ever) && store.Gone() == old(store.Gone())
    ensures var decided := DecisionIn(old(store.objects), m, batches);
      && (decided.Err? ==> r == Err(decided.error) && store.ever == old(store.ever))
      && (decided.Ok? && decided.value.additions == [] ==>
            r.Ok? && r.value.1.None? && store.ever == old(store.ever))
      && (decided.Ok? && r.Ok? ==> Spans(decided.value.results, r.value.0))
    ensures ManifestSound(old(store.ever), m) ==>
      var decided := Decision(old(store.ever), m, batches);
      && (r.Err? ==>
            || decided == Err(r.error)
            || (r.error == RevisionOverflow && decided.Ok? && Revision(m) + |decided.value.additions| > U64_MAX)
            || (r.error == NotFound && !ManifestSound(old(store.objects), m)))
      && (decided.Err? ==> Refusal(decided.error))
      && (r.Ok? ==> decided.Ok? && decided == DecisionIn(old(store.objects), m, batches))
      && (r.Ok? && decided.value.additions != [] ==>
            && Revision(m) + |decided.value.additions| <= U64_MAX
            && r.value.1.Some?
            && Continued(old(store.ever), m, store.ever, r.value.1.value, decided.value, batches, now))
  {
    hide Holding, Carried, ManifestSound, DecideAll, DecideIn, Continued, Startable, Filled, DirectoryIs, PlanIs, Ready,
      StatesReady, ObjectStore.Gone, LostPage, ManifestKeys;
    ghost var before, gone := store.ever, store.Gone();
    ghost var sound := ManifestSound(before, m);
    store.GoneWasThere();
    if sound {
      DecidedHere(store, m, batches);
    }
    var plan :- DecideRequest(store, ProducersOf(m), NextOffset(m), batches);
    PlanShape(plan, DecisionIn(old(store.objects), m, batches).value, batches);
    var result := AppendResult(plan.results[0].baseOffset, plan.results[|plan.results| - 1].lastOffset);
    if plan.additions == [] {
      return Ok((result, None));
    }
    var root :- AppendRoot(store, m, now);
    ghost var mid, end := store.ever, plan.nextOffset;
    if sound {
      CanStart(before, m, mid, root, plan, batches, now);
    }
    var written, extra := WriteSegments(store, before, m, root, plan.additions, now, end);
    if sound && written.Err? && written.error == NotFound {
      LostEarlier(ManifestKeys(before, m), before, before, mid, gone);
    }
    root :- written;
    ghost var late := store.ever;
    if sound {
      DirectoryWaits(before, m, late, root, extra, plan, batches, now);
    }
    ghost var keys := if sound then ManifestKeys(before, m) else {};
    ghost var known := if sound then ManifestStates(before, m) else map[];
    var updated := UpdateStates(store, root.producers, plan.states, plan.nextOffset, before, keys, known);
    if sound && updated.Err? {
      LostEarlier(keys, before, before, late, gone);
    }
    var producers :- updated;
    if sound {
      Publishes(before, m, late, store.ever, root, extra, plan, batches, now, producers);
    }
    r := Ok((result, Some(root.(producers := producers))));
  }

  /** What the answer on what is left can be, and what it means that a page is gone. */
  lemma DecidedHere(store: ObjectStore, m: Manifest, batches: seq<Batch>)
    requires store.Valid() && ManifestSound(store.ever, m)
    ensures var r, decided := DecisionIn(store.objects, m, batches), Decision(store.ever, m, batches);
      && (r == decided || (r == Err(NotFound) && !ManifestSound(store.objects, m)))
      && (decided.Err? ==> Refusal(decided.error))
    ensures LostPage(ManifestKeys(store.ever, m), store.Gone()) ==> !ManifestSound(store.objects, m)
  {
    hide ManifestSound, DecisionIn, LostPage, ManifestKeys;
    DecisionMeans(store.objects, store.ever, m, batches);
    OnlyRefusals(ManifestStates(store.ever, m), OpenDraft(NextOffset(m)), batches);
    if LostPage(ManifestKeys(store.ever, m), store.Gone()) {
      LostUnsound(store.objects, store.ever, m);
    }
  }

  lemma PlanShape(plan: Plan, d: Draft, batches: seq<Batch>)
    requires PlanIs(plan, d, batches)
    ensures plan.results == d.results && |plan.additions| == |d.additions|
  {
  }

  lemma StartDecision(objects: map<Key, Object>, m: Manifest, batches: seq<Batch>)
    requires ManifestSound(objects, m) && AllAdmissible(batches) && batches != []
    ensures ProducerWriter.DirectorySound(objects, ProducersOf(m), NextOffset(m))
    ensures StatesOf(objects, ProducersOf(m), NextOffset(m)) == ManifestStates(objects, m)
    ensures var decided := Decision(objects, m, batches);
      decided.Ok? ==>
        && Ready(ManifestStates(objects, m), decided.value)
        && Consecutive(decided.value.additions, NextOffset(m), decided.value.nextOffset)
        && StartOffset(m) <= NextOffset(m) <= decided.value.nextOffset <= I64_MAX
        && |decided.value.results| == |batches|
  {
    hide DecideAll, PartsSound, WellFormed, RootOk, ProducerWriter.DirectorySound, StateOk;
    LogRun(objects, m);
    if m.Indexed? {
      SoundParts(objects, m.root);
      StatesAreReady(objects, m.root.producers, m.root.nextOffset);
    } else {
      NoStates(objects, m.nextOffset);
    }
    DecideAllReady(ManifestStates(objects, m), OpenDraft(NextOffset(m)), batches, NextOffset(m));
    ResultPerBatch(ManifestStates(objects, m), OpenDraft(NextOffset(m)), batches);
  }

  lemma NoStates(objects: map<Key, Object>, nextOffset: int)
    ensures ProducerWriter.DirectorySound(objects, None, nextOffset)
    ensures StatesOf(objects, None, nextOffset) == map[]
  {
  }

  lemma {:induction false} ResultPerBatch(known: Directory, d: Draft, batches: seq<Batch>)
    ensures DecideAll(known, d, batches).Ok? ==> |DecideAll(known, d, batches).value.results| == |d.results| + |batches|
    decreases |batches|
  {
    hide Accept;
    if batches != [] {
      match DecideOne(known, d, batches[0])
      case Err(_) =>
      case Ok(next) => ResultPerBatch(known, next, batches[1..]);
    }
  }

  lemma StatesAreReady(objects: map<Key, Object>, root: Option<ProducerRef>, nextOffset: int)
    requires ProducerWriter.DirectorySound(objects, root, nextOffset)
    ensures StatesReady(StatesOf(objects, root, nextOffset), nextOffset)
  {
    hide StateOk, Mapped;
    if root.Some? {
      ProducerPages.SoundShaped(objects, root.value, nextOffset);
      MappedReady(ProducerTree.States(ProducerPages.Load(objects, root.value, nextOffset)), nextOffset);
    } else {
      MappedReady([], nextOffset);
    }
  }

  lemma {:induction false} MappedReady(ss: seq<ProducerState>, nextOffset: int)
    requires ProducerPages.StatesOk(ss, nextOffset)
    ensures StatesReady(Mapped(ss), nextOffset)
  {
    hide StateOk;
    if ss != [] {
      MappedReady(ss[1..], nextOffset);
    }
  }

  /** The offsets of the plan are those of the decision. */
  lemma {:induction false} PlanPlaced(additions: seq<Addition>, entries: seq<Entry>, batches: seq<Batch>, start: int, end: int)
    requires AllPlanned(additions, entries, batches) && Consecutive(entries, start, end) && AllAdmissible(batches)
    ensures Placed(additions, start, end)
    decreases |entries|
  {
    if entries != [] {
      var n := |entries| - 1;
      assert Planned(additions[n], entries[n], batches);
      assert AllPlanned(additions[..n], entries[..n], batches) by {
        assert forall i :: 0 <= i < n ==> additions[..n][i] == additions[i] && entries[..n][i] == entries[i];
      }
      PlanPlaced(additions[..n], entries[..n], batches, start, entries[n].batch.baseOffset);
    }
  }

  lemma CanStart(before: map<Key, Object>, m: Manifest, mid: map<Key, Object>, root: Root, plan: Plan, batches: seq<Batch>,
                 now: nat)
    requires ManifestSound(before, m) && Extends(before, mid) && AllAdmissible(batches) && batches != []
    requires Holding(before, m, mid, root, []) && Carried(m, root, 0, now) && root.nextOffset == NextOffset(m)
    requires Decision(before, m, batches).Ok? && PlanIs(plan, Decision(before, m, batches).value, batches)
    ensures Startable(before, m, mid, root, plan.additions, plan.nextOffset, now)
    ensures |plan.additions| == |Decision(before, m, batches).value.additions|
  {
    hide Holding, Carried, ManifestSound, DecideAll, Ready, AllPlanned, Consecutive, Placed;
    StartDecision(before, m, batches);
    var d := Decision(before, m, batches).value;
    PlanPlaced(plan.additions, d.additions, batches, NextOffset(m), d.nextOffset);
    PlanSize(plan.additions, d.additions, batches);
  }

  lemma PlanSize(additions: seq<Addition>, entries: seq<Entry>, batches: seq<Batch>)
    requires AllPlanned(additions, entries, batches)
    ensures |additions| == |entries|
  {
  }

  lemma DirectoryWaits(before: map<Key, Object>, m: Manifest, late: map<Key, Object>, root: Root, extra: seq<Segment>,
                       plan: Plan, batches: seq<Batch>, now: nat)
    requires ManifestSound(before, m) && Extends(before, late) && AllAdmissible(batches) && batches != []
    requires Decision(before, m, batches).Ok? && PlanIs(plan, Decision(before, m, batches).value, batches)
    requires Filled(before, m, late, root, extra, plan.additions, |plan.additions|, now)
    ensures DirectoryIs(before, ManifestKeys(before, m), late, root.producers, plan.nextOffset, ManifestStates(before, m))
    ensures StatesReady(plan.states, plan.nextOffset)
  {
    hide Holding, DecideAll, AllPlanned, StatesReady, PartsSound, WellFormed, RootOk, ProducerWriter.DirectorySound;
    StartDecision(before, m, batches);
    assert Ready(ManifestStates(before, m), Decision(before, m, batches).value);
    StartsAs(before, m);
    DirectoryIsFrame(before, ManifestKeys(before, m), before, late, ProducersOf(m), NextOffset(m), plan.nextOffset,
                     ManifestStates(before, m));
  }

  lemma StartsAs(before: map<Key, Object>, m: Manifest)
    requires ManifestSound(before, m)
    ensures DirectoryIs(before, ManifestKeys(before, m), before, ProducersOf(m), NextOffset(m), ManifestStates(before, m))
  {
    hide PartsSound, WellFormed, RootOk, ProducerWriter.DirectorySound, ProducerWriter.DirectoryKeys, IndexKeys;
    if m.Indexed? {
      SoundParts(before, m.root);
    } else {
      NoStates(before, m.nextOffset);
      NoDirectoryKeys(before, m.nextOffset);
    }
  }

  lemma NoDirectoryKeys(objects: map<Key, Object>, nextOffset: int)
    ensures ProducerWriter.DirectorySound(objects, None, nextOffset)
    ensures ProducerWriter.DirectoryKeys(objects, None, nextOffset) == {}
  {
  }

  // -------------------------------------------------------------- the published root

  lemma Publishes(before: map<Key, Object>, m: Manifest, late: map<Key, Object>, after: map<Key, Object>, root: Root,
                  extra: seq<Segment>, plan: Plan, batches: seq<Batch>, now: nat, producers: Option<ProducerRef>)
    requires ManifestSound(before, m) && Extends(before, late) && Extends(late, after)
    requires AllAdmissible(batches) && batches != []
    requires Decision(before, m, batches).Ok? && PlanIs(plan, Decision(before, m, batches).value, batches)
    requires plan.additions != [] && Revision(m) + |plan.additions| <= U64_MAX
    requires Filled(before, m, late, root, extra, plan.additions, |plan.additions|, now)
    requires DirectoryIs(before, ManifestKeys(before, m), after, producers, plan.nextOffset,
                         ManifestStates(before, m) + plan.states)
    ensures Continued(before, m, after, root.(producers := producers), Decision(before, m, batches).value, batches, now)
  {
    hide Holding, DecideAll, AllPlanned, Ready, ManifestSound, DirectoryIs, RootSound, Written, Consecutive, Placed,
      PartsSound;
    StartDecision(before, m, batches);
    var d := Decision(before, m, batches).value;
    var final := root.(producers := producers);
    assert plan.additions[..|plan.additions|] == plan.additions;
    PlanPlaced(plan.additions, d.additions, batches, NextOffset(m), d.nextOffset);
    PlanSize(plan.additions, d.additions, batches);
    PlacedEnd(plan.additions, NextOffset(m), d.nextOffset);
    HoldingFrame(before, m, late, after, root, extra);
    WrittenSize(extra, plan.additions, now);
    FinalRoot(before, m, after, root, extra, producers, d.nextOffset, ManifestStates(before, m) + d.states,
              now);
    SegmentsNew(extra, plan.additions, d.additions, batches, now);
    assert Log(after, Indexed(final)) == Log(before, m) + extra;
    assert (Log(before, m) + extra)[|Log(before, m)|..] == extra;
  }

  lemma WrittenSize(extra: seq<Segment>, additions: seq<Addition>, now: nat)
    requires Written(extra, additions, now)
    ensures |extra| == |additions|
  {
  }

  lemma SegmentsNew(extra: seq<Segment>, additions: seq<Addition>, entries: seq<Entry>, batches: seq<Batch>, now: nat)
    requires Written(extra, additions, now) && AllPlanned(additions, entries, batches)
    ensures NewSegments(extra, entries, batches, now)
  {
    forall i | 0 <= i < |extra|
      ensures extra[i].baseOffset == entries[i].batch.baseOffset && extra[i].recordCount == entries[i].batch.count
      ensures extra[i].receivedAt == Some(now)
      ensures exists b :: b in batches && entries[i] == EntryOf(b, extra[i].baseOffset) && extra[i].byteLength == b.byteLength
    {
      assert Planned(additions[i], entries[i], batches);
    }
  }

  /** The private root with its new directory is a valid, sound root. */
  lemma FinalRoot(before: map<Key, Object>, m: Manifest, after: map<Key, Object>, root: Root, extra: seq<Segment>,
                  producers: Option<ProducerRef>, nextOffset: int, states: Directory, now: nat)
    requires ManifestSound(before, m) && Holding(before, m, after, root, extra) && Carried(m, root, |extra|, now)
    requires root.revision <= U64_MAX && root.tail != []
    requires StartOffset(m) <= nextOffset == root.nextOffset <= I64_MAX
    requires DirectoryIs(before, ManifestKeys(before, m), after, producers, nextOffset, states)
    ensures var final := root.(producers := producers);
      && RootSound(after, final)
      && ManifestSound(after, Indexed(final))
      && Log(after, Indexed(final)) == Log(before, m) + extra
      && ManifestStates(after, Indexed(final)) == states
      && ManifestKeys(after, Indexed(final)) <= ManifestKeys(before, m) + Created(before, after)
  {
    hide ProducerWriter.DirectorySound, ProducerWriter.DirectoryKeys, IndexTree.Canonical, SegmentsOk, RootOk,
      IndexKeys, PartsSound, Recorded, StatesOf, IndexOf, Contents;
    var final := root.(producers := producers);
    SameParts(after, root, producers);
    LogRun(before, m);
    DirectoryRef(after, producers, nextOffset);
    ValidFinal(after, final);
    Nonempty(after, final);
  }

  lemma Nonempty(objects: map<Key, Object>, root: Root)
    requires PartsSound(objects, root) && Open(IndexOf(objects, root)) && root.tail != []
    ensures WellFormed(IndexOf(objects, root))
  {
    hide IndexTree.Canonical, Sound, SegmentsOk;
  }

  lemma DirectoryRef(objects: map<Key, Object>, producers: Option<ProducerRef>, nextOffset: int)
    requires ProducerWriter.DirectorySound(objects, producers, nextOffset)
    ensures producers.Some? ==> ProducerPages.RefValid(producers.value)
  {
    if producers.Some? {
      ProducerWriter.ValidRef(objects, producers.value, nextOffset);
    }
  }

  lemma SameParts(objects: map<Key, Object>, root: Root, producers: Option<ProducerRef>)
    requires PartsSound(objects, root)
    ensures var final := root.(producers := producers);
      && PartsSound(objects, final)
      && IndexOf(objects, final) == IndexOf(objects, root)
      && IndexKeys(objects, final) == IndexKeys(objects, root)
      && TreeEnd(final) == TreeEnd(root)
  {
    hide Sound, SegmentsOk;
  }

  /** Nothing but the revision can make the checks of the root fail. */
  lemma ValidFinal(objects: map<Key, Object>, root: Root)
    requires PartsSound(objects, root) && (root.tree.Some? ==> root.tail != [])
    requires root.schema == INDEX_SCHEMA && root.adoptedAt.Some?
    requires EndOffset(root.tail, TreeEnd(root)) == root.nextOffset
    requires root.startOffset <= root.nextOffset <= I64_MAX
    requires |Contents(IndexOf(objects, root))| <= root.revision <= U64_MAX
    requires root.producers.Some? ==> ProducerPages.RefValid(root.producers.value)
    ensures RootOk(root)
  {
    hide Run, DistinctObjects;
    if root.tree.Some? {
      SoundShaped(objects, root.tree.value);
      assert Holds(objects, root.tree.value);
    }
  }
}
