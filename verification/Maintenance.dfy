/** One maintenance pass: the complete trace, the retention cut and the root it offers. */
module Maintenance {
  import opened LogTypes
  import opened ObjectStores
  import opened IndexPages
  import opened IndexRoots
  import opened BulkLoad
  import opened Manifests
  import opened IndexScan
  import IndexWriter
  import IndexRebuild
  import ProducerPages
  import ProducerTrace
  import ProducerWriter
  import opened Retention
  import Selections
  import Committing
  import FiniteSets

  // -------------------------------------------------------------- the complete trace

  /** The live graph of a manifest: its segments in order, and every key it reaches. */
  datatype Trace = Trace(segments: seq<Segment>, keys: set<Key>)

  /** What a complete trace has established about the store: everything is present and valid. */
  ghost predicate Traced(objects: map<Key, Object>, m: Manifest, segments: seq<Segment>, keys: set<Key>) {
    && DistinctObjects(segments)
    && Recorded(objects, segments)
    && match m
       case Legacy(_, _, list) => segments == list && keys == SegmentKeys(list)
       case Indexed(root) =>
         && (root.tree.Some? ==> Sound(objects, root.tree.value))
         && (root.producers.Some? ==> ProducerPages.Sound(objects, root.producers.value, root.nextOffset))
         && segments == TreeContents(objects, root.tree) + root.tail
         && keys == TreeKeys(objects, root.tree) + SegmentKeys(root.tail)
                    + ProducerTrace.RootKeys(objects, root.producers, root.nextOffset)
  }

  /** The segments checked so far by the second loop of the trace. */
  ghost predicate Checked(objects: map<Key, Object>, segments: seq<Segment>, i: nat, pages: set<Key>, seen: set<Key>) {
    && i <= |segments|
    && DistinctObjects(segments[..i])
    && Recorded(objects, segments[..i])
    && seen == pages + SegmentKeys(segments[..i])
  }

  lemma CheckedNext(objects: map<Key, Object>, segments: seq<Segment>, i: nat, pages: set<Key>, seen: set<Key>)
    requires Checked(objects, segments, i, pages, seen) && i < |segments|
    requires segments[i].key !in seen && segments[i].key in objects
    requires objects[segments[i].key] == RecordObject(segments[i].byteLength)
    ensures Checked(objects, segments, i + 1, pages, seen + {segments[i].key})
  {
    assert segments[..i + 1][..i] == segments[..i];
  }

  /** src/log/index.rs:434-460 with its tail. */
  method TraceIndex(store: ObjectStore, root: Root, graph: LiveGraph, maximum: nat)
    returns (r: Result<()>)
    requires graph.segments == [] && graph.objects == {}
    requires Extends(store.objects, store.ever)
    modifies graph, store`gets
    ensures r.Ok? ==>
      && (root.tree.Some? ==> Sound(store.objects, root.tree.value))
      && graph.segments == TreeContents(store.objects, root.tree) + root.tail
      && graph.objects + SegmentKeys(graph.segments) == TreeKeys(store.objects, root.tree) + SegmentKeys(root.tail)
      && |graph.segments| <= maximum
    ensures r.Err? && r.error == NotFound ==> root.tree.Some? && !Sound(store.objects, root.tree.value)
    ensures r.Ok? ==> |graph.objects| <= maximum
    ensures (root.tree.Some? ==> Sound(store.ever, root.tree.value)) ==>
      && (r.Err? ==> r.error in {MaintenanceBudget, NotFound})
      && (r.Err? && r.error == MaintenanceBudget ==>
            |TreeKeys(store.ever, root.tree)| > maximum || |TreeContents(store.ever, root.tree) + root.tail| > maximum)
      && (r.Ok? ==> forall k :: k in graph.objects ==> k.IndexKey?)
  {
    hide Sound, Load, Keys;
    r := TraceTree(store, root.tree, graph, maximum);
    if r.Ok? {
      if root.tree.Some? {
        SoundFrame(store.objects, store.ever, root.tree.value);
      }
      if |graph.segments| + |root.tail| > maximum {
        return Err(MaintenanceBudget);
      }
      SegmentKeysAppend(graph.segments, root.tail);
      graph.segments := graph.segments + root.tail;
    }
  }

  /** The segments and pages collected before the record objects are checked. */
  ghost predicate Collected(objects: map<Key, Object>, m: Manifest, segments: seq<Segment>, pages: set<Key>) {
    match m
    case Legacy(_, _, list) => segments == list && pages == {}
    case Indexed(root) =>
      && (root.tree.Some? ==> Sound(objects, root.tree.value))
      && (root.producers.Some? ==> ProducerPages.Sound(objects, root.producers.value, root.nextOffset))
      && segments == TreeContents(objects, root.tree) + root.tail
      && pages + SegmentKeys(segments) == TreeKeys(objects, root.tree) + SegmentKeys(root.tail)
                 + ProducerTrace.RootKeys(objects, root.producers, root.nextOffset)
  }

  method Collect(store: ObjectStore, m: Manifest, graph: LiveGraph, maximum: nat)
    returns (r: Result<()>)
    requires graph.segments == [] && graph.objects == {}
    requires Extends(store.objects, store.ever)
    modifies graph, store`gets
    ensures r.Ok? ==> Collected(store.objects, m, graph.segments, graph.objects)
    ensures r.Err? && r.error == NotFound ==> !ManifestSound(store.objects, m)
    ensures r.Ok? ==> |graph.objects| <= maximum
    ensures ManifestSound(store.ever, m) ==>
      && (r.Err? ==> r.error in {MaintenanceBudget, NotFound})
      && (r.Err? && r.error == MaintenanceBudget ==> |ManifestKeys(store.ever, m)| > maximum)
      && (r.Ok? ==> forall k :: k in graph.objects ==> !k.SegmentKey?)
  {
    hide Sound, ProducerPages.Sound, Keys, Load, ProducerTrace.RootKeys, RootSound, ManifestKeys, TreeKeys, TreeContents;
    if ManifestSound(store.ever, m) {
      PartsEver(store.ever, m);
    }
    match m {
      case Legacy(_, _, segments) =>
        graph.segments := segments;
      case Indexed(root) =>
        r := TraceIndex(store, root, graph, maximum);
        if r.Err? {
          if r.error == NotFound {
            NotTree(store.objects, root);
          } else if ManifestSound(store.ever, m) {
            IndexCounted(store.ever, m, maximum);
          }
          return;
        }
        ghost var pages := graph.objects;
        r := ProducerTrace.TraceProducers(store, root.producers, root.nextOffset, graph, maximum);
        if r.Err? {
          if r.error == NotFound {
            NotDirectory(store.objects, root);
          } else if ManifestSound(store.ever, m) {
            DirectoryCounted(store.objects, store.ever, m, graph.segments, pages, maximum);
          }
          return;
        }
    }
    r := Ok(());
  }

  lemma {:induction false} DistinctSize(segments: seq<Segment>)
    requires DistinctObjects(segments)
    ensures |SegmentKeys(segments)| == |segments|
  {
    if segments != [] {
      DistinctSize(segments[..|segments| - 1]);
    }
  }

  /** The log has as many segments as keys, all of which the manifest reaches. */
  lemma LogCounted(ever: map<Key, Object>, m: Manifest)
    requires ManifestSound(ever, m)
    ensures |Log(ever, m)| <= |ManifestKeys(ever, m)|
  {
    hide ManifestSound, ManifestKeys, Log;
    LogDistinct(ever, m);
    DistinctSize(Log(ever, m));
    LogKeys(ever, m);
    FiniteSets.SubsetSize(SegmentKeys(Log(ever, m)), ManifestKeys(ever, m));
  }

  lemma IndexCounted(ever: map<Key, Object>, m: Manifest, maximum: nat)
    requires ManifestSound(ever, m) && m.Indexed? && (m.root.tree.Some? ==> Sound(ever, m.root.tree.value))
    requires |TreeKeys(ever, m.root.tree)| > maximum || |TreeContents(ever, m.root.tree) + m.root.tail| > maximum
    ensures |ManifestKeys(ever, m)| > maximum
  {
    hide Sound, Keys, Load, RootSound;
    LogIs(ever, m);
    LogCounted(ever, m);
    PartsEver(ever, m);
    TreeReached(ever, m);
    FiniteSets.SubsetSize(TreeKeys(ever, m.root.tree), ManifestKeys(ever, m));
  }

  lemma TreeReached(ever: map<Key, Object>, m: Manifest)
    requires ManifestSound(ever, m) && m.Indexed? && (m.root.tree.Some? ==> Sound(ever, m.root.tree.value))
    requires m.root.producers.Some? ==> ProducerPages.Sound(ever, m.root.producers.value, m.root.nextOffset)
    ensures TreeKeys(ever, m.root.tree) + SegmentKeys(m.root.tail)
              + ProducerTrace.RootKeys(ever, m.root.producers, m.root.nextOffset) == ManifestKeys(ever, m)
  {
    hide Sound, Keys, Load, ProducerPages.Sound;
    SoundParts(ever, m.root);
  }

  lemma DirectoryCounted(objects: map<Key, Object>, ever: map<Key, Object>, m: Manifest, segments: seq<Segment>,
                         pages: set<Key>, maximum: nat)
    requires Extends(objects, ever) && ManifestSound(ever, m) && m.Indexed?
    requires m.root.tree.Some? ==> Sound(objects, m.root.tree.value) && Sound(ever, m.root.tree.value)
    requires m.root.producers.Some? ==> ProducerPages.Sound(ever, m.root.producers.value, m.root.nextOffset)
    requires pages + SegmentKeys(segments) == TreeKeys(objects, m.root.tree) + SegmentKeys(m.root.tail)
    requires |pages + ProducerTrace.RootKeys(ever, m.root.producers, m.root.nextOffset)| > maximum
    ensures |ManifestKeys(ever, m)| > maximum
  {
    hide Sound, Keys, Load, RootSound, ProducerTrace.RootKeys, ProducerPages.Sound, ManifestKeys;
    if m.root.tree.Some? {
      SoundFrame(objects, ever, m.root.tree.value);
    }
    TreeReached(ever, m);
    FiniteSets.SubsetSize(pages + ProducerTrace.RootKeys(ever, m.root.producers, m.root.nextOffset), ManifestKeys(ever, m));
  }

  /** The record object met next is one more key the manifest reaches. */
  lemma RecordCounted(objects: map<Key, Object>, ever: map<Key, Object>, m: Manifest, segments: seq<Segment>,
                      pages: set<Key>, seen: set<Key>, i: nat, maximum: nat)
    requires Extends(objects, ever) && ManifestSound(ever, m) && Collected(objects, m, segments, pages)
    requires Checked(objects, segments, i, pages, seen) && i < |segments|
    requires segments[i].key !in seen && |seen| >= maximum
    ensures |ManifestKeys(ever, m)| > maximum
  {
    hide Recorded, DistinctObjects, ManifestSound, Collected, ManifestKeys;
    CollectedKeys(objects, ever, m, segments, pages);
    assert segments == segments[..i + 1] + segments[i + 1..];
    SegmentKeysAppend(segments[..i + 1], segments[i + 1..]);
    assert segments[..i + 1][..i] == segments[..i];
    FiniteSets.OneMore(seen, segments[i].key, ManifestKeys(ever, m));
  }

  lemma CollectedKeys(objects: map<Key, Object>, ever: map<Key, Object>, m: Manifest, segments: seq<Segment>, pages: set<Key>)
    requires Extends(objects, ever) && ManifestSound(ever, m) && Collected(objects, m, segments, pages)
    ensures pages + SegmentKeys(segments) == ManifestKeys(ever, m)
  {
    hide Sound, Keys, Load, RootSound, ProducerTrace.RootKeys, ProducerPages.Sound, Recorded, DistinctObjects, LegacyOk;
    PartsEver(ever, m);
    if m.Indexed? {
      if m.root.tree.Some? {
        SoundFrame(objects, ever, m.root.tree.value);
      }
      DirectorySame(objects, ever, m.root);
      TreeReached(ever, m);
    }
  }

  lemma DirectorySame(objects: map<Key, Object>, ever: map<Key, Object>, root: Root)
    requires Extends(objects, ever)
    requires root.producers.Some? ==> ProducerPages.Sound(objects, root.producers.value, root.nextOffset)
    ensures root.producers.Some? ==> ProducerPages.Sound(ever, root.producers.value, root.nextOffset)
    ensures ProducerTrace.RootKeys(objects, root.producers, root.nextOffset)
      == ProducerTrace.RootKeys(ever, root.producers, root.nextOffset)
  {
    if root.producers.Some? {
      ProducerPages.SoundFrame(objects, ever, root.producers.value, root.nextOffset, root.nextOffset);
    }
  }

  /**
   * src/log/maintenance.rs:436-469. Success establishes that everything the manifest reaches is
   * there; a missing object is one the manifest needs. For a manifest that was ever sound, of which
   * collection may have left any part, the graph is then exactly what the manifest reaches and its
   * log, and a failure is the budget or a missing object: the duplicate-object and length errors do
   * not occur.
   */
  method TraceManifest(store: ObjectStore, m: Manifest, maximum: nat) returns (r: Result<LiveGraph>)
    requires Extends(store.objects, store.ever)
    modifies store`gets
    ensures r.Ok? ==>
      && fresh(r.value) && Traced(store.objects, m, r.value.segments, r.value.objects)
      && |r.value.segments| <= maximum
    ensures r.Err? && r.error == NotFound ==> !ManifestSound(store.objects, m)
    ensures ManifestSound(store.ever, m) ==>
      && (r.Ok? ==> r.value.segments == Log(store.ever, m) && r.value.objects == ManifestKeys(store.ever, m))
      && (r.Err? ==> r.error in {MaintenanceBudget, NotFound})
      && (r.Ok? ==> |ManifestKeys(store.ever, m)| <= maximum)
      && (r.Err? && r.error == MaintenanceBudget ==> |ManifestKeys(store.ever, m)| > maximum)
  {
    hide Collected, Checked, Traced, ManifestSound, ManifestKeys, Log;
    ghost var sound := ManifestSound(store.ever, m);
    var graph := new LiveGraph();
    var collected := Collect(store, m, graph, maximum);
    if collected.Err? {
      return Err(collected.error);
    }
    ghost var segments, pages := graph.segments, graph.objects;
    NothingChecked(store.objects, segments, pages);
    var i := 0;
    while i < |graph.segments|
      invariant 0 <= i <= |graph.segments| && graph.segments == segments
      invariant Checked(store.objects, segments, i, pages, graph.objects)
      invariant |graph.objects| == |pages| + i && |graph.objects| <= maximum
      invariant fresh(graph)
    {
      var s := graph.segments[i];
      ghost var seen := graph.objects;
      if sound {
        NewRecord(store.objects, store.ever, m, segments, pages, seen, i);
      }
      var inserted := graph.Insert(s.key, maximum);
      if inserted.Err? {
        if sound {
          RecordCounted(store.objects, store.ever, m, segments, pages, seen, i, maximum);
        }
        return Err(inserted.error);
      }
      var length := store.Head(s.key);
      if length.Err? {
        if length.error == NotFound {
          NotRecorded(store.objects, m, segments, pages, i);
        }
        return Err(length.error);
      }
      if length.value != s.byteLength {
        return Err(Invalid);
      }
      CheckedNext(store.objects, segments, i, pages, seen);
      i := i + 1;
    }
    AllTraced(store.objects, m, segments, pages, graph.objects);
    if sound {
      TracedEver(store.objects, store.ever, m, segments, graph.objects);
    }
    r := Ok(graph);
  }

  /**
   * A complete trace of any part of the store is a trace of everything ever created: what it found
   * is exactly what the manifest reaches.
   */
  lemma TracedEver(objects: map<Key, Object>, ever: map<Key, Object>, m: Manifest, segments: seq<Segment>, keys: set<Key>)
    requires Extends(objects, ever) && ManifestSound(ever, m) && Traced(objects, m, segments, keys)
    ensures Traced(ever, m, segments, keys)
    ensures segments == Log(ever, m) && keys == ManifestKeys(ever, m)
    ensures ManifestSound(objects, m) && ManifestKeys(objects, m) == keys
  {
    hide Sound, ProducerPages.Sound, Keys, Load, Recorded, DistinctObjects, LegacyOk;
    LogIs(ever, m);
    if m.Indexed? {
      SoundParts(ever, m.root);
      if m.root.tree.Some? {
        SoundFrame(objects, ever, m.root.tree.value);
      }
      if m.root.producers.Some? {
        ProducerPages.SoundFrame(objects, ever, m.root.producers.value, m.root.nextOffset, m.root.nextOffset);
      }
    }
  }

  lemma PartsEver(ever: map<Key, Object>, m: Manifest)
    requires ManifestSound(ever, m)
    ensures m.Indexed? ==>
      && (m.root.tree.Some? ==> Sound(ever, m.root.tree.value))
      && (m.root.producers.Some? ==> ProducerPages.Sound(ever, m.root.producers.value, m.root.nextOffset))
  {
    if m.Indexed? {
      SoundParts(ever, m.root);
    }
  }

  /** The next record object was not met before, and is as recorded if it is there at all. */
  lemma NewRecord(objects: map<Key, Object>, ever: map<Key, Object>, m: Manifest, segments: seq<Segment>, pages: set<Key>,
                  seen: set<Key>, i: nat)
    requires Extends(objects, ever) && ManifestSound(ever, m) && Collected(objects, m, segments, pages)
    requires Checked(objects, segments, i, pages, seen) && i < |segments|
    requires forall k :: k in pages ==> !k.SegmentKey?
    ensures segments[i].key !in seen
    ensures segments[i].key in objects ==> objects[segments[i].key] == RecordObject(segments[i].byteLength)
  {
    hide Recorded, DistinctObjects, Run;
    CollectedLog(objects, ever, m, segments, pages);
    LogDistinct(ever, m);
    LogIs(ever, m);
    LogRun(ever, m);
    RecordIs(ever, segments, i);
    Selections.RunElement(segments, StartOffset(m), i);
    NextDistinct(segments, i);
  }

  lemma CollectedLog(objects: map<Key, Object>, ever: map<Key, Object>, m: Manifest, segments: seq<Segment>, pages: set<Key>)
    requires Extends(objects, ever) && ManifestSound(ever, m) && Collected(objects, m, segments, pages)
    ensures segments == Log(ever, m)
  {
    hide Sound, RootSound, ProducerPages.Sound, Keys, Load, ProducerTrace.RootKeys, Recorded, DistinctObjects, LegacyOk;
    LogIs(ever, m);
    if m.Indexed? && m.root.tree.Some? {
      SoundFrame(objects, ever, m.root.tree.value);
    }
  }

  lemma LogDistinct(objects: map<Key, Object>, m: Manifest)
    requires ManifestSound(objects, m)
    ensures DistinctObjects(Log(objects, m))
  {
    if m.Indexed? {
      SoundParts(objects, m.root);
    }
  }

  lemma RecordIs(objects: map<Key, Object>, segments: seq<Segment>, i: nat)
    requires Recorded(objects, segments) && i < |segments|
    ensures segments[i].key in objects && objects[segments[i].key] == RecordObject(segments[i].byteLength)
  {
  }

  lemma NextDistinct(segments: seq<Segment>, i: nat)
    requires DistinctObjects(segments) && i < |segments|
    ensures segments[i].key !in SegmentKeys(segments[..i])
  {
    var longer := segments[..i + 1];
    assert segments == longer + segments[i + 1..];
    DistinctFront(longer, segments[i + 1..]);
    assert longer[..i] == segments[..i];
  }

  lemma AllTraced(objects: map<Key, Object>, m: Manifest, segments: seq<Segment>, pages: set<Key>, seen: set<Key>)
    requires Collected(objects, m, segments, pages) && Checked(objects, segments, |segments|, pages, seen)
    ensures Traced(objects, m, segments, seen)
  {
    hide Sound, ProducerPages.Sound, Keys, Load, ProducerTrace.RootKeys, Recorded, DistinctObjects;
    AllChecked(objects, segments, pages, seen);
  }

  lemma NothingChecked(objects: map<Key, Object>, segments: seq<Segment>, pages: set<Key>)
    ensures Checked(objects, segments, 0, pages, pages)
  {
    assert segments[..0] == [];
  }

  lemma AllChecked(objects: map<Key, Object>, segments: seq<Segment>, pages: set<Key>, seen: set<Key>)
    requires Checked(objects, segments, |segments|, pages, seen)
    ensures DistinctObjects(segments) && Recorded(objects, segments) && seen == pages + SegmentKeys(segments)
  {
    assert segments[..|segments|] == segments;
  }

  lemma NotTree(objects: map<Key, Object>, root: Root)
    requires root.tree.Some? && !Sound(objects, root.tree.value)
    ensures !ManifestSound(objects, Indexed(root))
  {
    if RootSound(objects, root) {
      SoundParts(objects, root);
    }
  }

  lemma NotDirectory(objects: map<Key, Object>, root: Root)
    requires root.producers.Some? && !ProducerPages.Sound(objects, root.producers.value, root.nextOffset)
    ensures !ManifestSound(objects, Indexed(root))
  {
    if RootSound(objects, root) {
      SoundParts(objects, root);
    }
  }

  lemma NotRecorded(objects: map<Key, Object>, m: Manifest, segments: seq<Segment>, pages: set<Key>, i: nat)
    requires i < |segments| && segments[i].key !in objects
    requires Collected(objects, m, segments, pages)
    ensures !ManifestSound(objects, m)
  {
    hide Sound, RootOk, WellFormed, ProducerWriter.DirectorySound, Load, Keys;
    if ManifestSound(objects, m) {
      LogIs(objects, m);
      assert false;
    }
  }

  /** The log of an indexed root is its tree and its tail. */
  lemma LogIs(objects: map<Key, Object>, m: Manifest)
    requires ManifestSound(objects, m)
    ensures m.Indexed? ==>
      && (m.root.tree.Some? ==> Sound(objects, m.root.tree.value))
      && Log(objects, m) == TreeContents(objects, m.root.tree) + m.root.tail
    ensures Recorded(objects, Log(objects, m))
  {
  }

  // -------------------------------------------------------------- the root a pass offers

  datatype Options = Options(maxAge: Option<nat>, maxBytes: Option<nat>, maxObjects: nat)

  function Adoption(m: Manifest, now: nat): nat {
    if m.Indexed? && m.root.adoptedAt.Some? then m.root.adoptedAt.value else now
  }

  function LimitsOf(m: Manifest, options: Options, now: nat): Limits {
    Limits(options.maxAge, options.maxBytes, now, Adoption(m, now))
  }

  /** A sound root that holds the log from batch k on, the same offsets to come, and the same producers. */
  ghost predicate Trimmed(before: map<Key, Object>, m: Manifest, after: map<Key, Object>, root: Root, k: nat)
    requires ManifestSound(before, m)
  {
    && RootSound(after, root)
    && k <= |Log(before, m)|
    && root.startOffset == EndOffset(Log(before, m)[..k], StartOffset(m))
    && StartOffset(m) <= root.startOffset
    && root.nextOffset == NextOffset(m)
    && root.revision == Revision(m) + 1
    && Log(after, Indexed(root)) == Log(before, m)[k..]
    && ManifestStates(after, Indexed(root)) == ManifestStates(before, m)
    && ManifestKeys(after, Indexed(root)) <= ManifestKeys(before, m) + Created(before, after)
    && (k != 0 || m.Legacy? ==>
          ManifestKeys(after, Indexed(root))
            <= SegmentKeys(Log(before, m)[k..]) + DirectoryPages(ManifestKeys(before, m)) + Created(before, after))
  }

  function DirectoryPages(keys: set<Key>): set<Key> {
    set k | k in keys && k.ProducerKey?
  }

  /** The index part of the offered root, rebuilt or kept. */
  ghost predicate Prepared(before: map<Key, Object>, m: Manifest, after: map<Key, Object>, root: Root, k: nat)
    requires ManifestSound(before, m)
  {
    && k <= |Log(before, m)|
    && PartsSound(after, root)
    && WellFormed(IndexOf(after, root))
    && Contents(IndexOf(after, root)) == Log(before, m)[k..]
    && DistinctObjects(Log(before, m)[k..])
    && root.startOffset == EndOffset(Log(before, m)[..k], StartOffset(m))
    && EndOffset(root.tail, TreeEnd(root)) == root.nextOffset == NextOffset(m)
    && IndexKeys(after, root) <= ManifestKeys(before, m) + Created(before, after)
    && (k != 0 || m.Legacy? ==> IndexKeys(after, root) <= SegmentKeys(Log(before, m)[k..]) + Created(before, after))
  }

  /** The batches a pass expires, by its limits and clock and by the time of adoption it keeps or sets. */
  predicate Expires(m: Manifest, segments: seq<Segment>, k: nat, options: Options, now: nat, adoptedAt: Option<nat>) {
    && adoptedAt.Some? && AdoptionKept(m, adoptedAt, now)
    && CutAt(segments, k, options.maxAge, options.maxBytes, now, adoptedAt.value)
  }

  /** The objects of a rebuilt index: its segments and every page above them. */
  function RebuildSize(n: nat): nat {
    n + PageTotal(SealedLength(n) / PAGE_ENTRIES)
  }

  /** The root of a pass that cut k batches: what it takes over, and when it reuses the live pages. */
  predicate Carries(m: Manifest, root: Root, k: nat, now: nat) {
    && root.schema == INDEX_SCHEMA
    && root.adoptedAt == Some(Adoption(m, now)) && AdoptionKept(m, root.adoptedAt, now)
    && root.producers == ProducersOf(m)
    && (k == 0 && m.Indexed? ==> root.tree == m.root.tree && root.tail == m.root.tail)
  }

  /**
   * src/log/maintenance.rs:223-340, from the traced graph to the validated root: whole batches
   * expire from the front, the rest and every producer state stay. `seen` is what the trace found,
   * in whatever part of the store was left.
   */
  method PlanMaintenance(store: ObjectStore, m: Manifest, segments: seq<Segment>, options: Options, now: nat,
                         ghost seen: map<Key, Object>, ghost keys: set<Key>)
    returns (r: Result<Root>, expired: nat)
    requires store.Valid()
    modifies store
    ensures store.Valid() && store.nextId >= old(store.nextId)
    ensures IndexWriter.Grew(old(store.ever), old(store.nextId), store.ever)
    ensures store.Gone() == old(store.Gone())
    ensures IsCut(segments, expired, LimitsOf(m, options, now))
    ensures Expires(m, segments, expired, options, now, Some(Adoption(m, now)))
    ensures ManifestSound(old(store.ever), m) && Extends(seen, old(store.ever)) && Traced(seen, m, segments, keys) ==>
      && (r.Err? ==> r.error in {MaintenanceBudget, RevisionOverflow})
      && (r.Err? && r.error == RevisionOverflow ==> Revision(m) >= U64_MAX)
      && (r.Err? && r.error == MaintenanceBudget ==>
            (expired != 0 || m.Legacy?) && RebuildSize(|segments| - expired) > options.maxObjects)
      && (r.Ok? ==> Trimmed(old(store.ever), m, store.ever, r.value, expired))
    ensures r.Ok? ==> Carries(m, r.value, expired, now)
  {
    hide ManifestSound, Traced, Prepared, Trimmed, RootOk, IsCut, CutAt;
    ghost var before := store.ever;
    ghost var sound := ManifestSound(before, m) && Extends(seen, before) && Traced(seen, m, segments, keys);
    if sound {
      TracedEver(seen, before, m, segments, keys);
    }
    var retainedBytes;
    expired, retainedBytes := RetentionCut(segments, LimitsOf(m, options, now));
    CutInRange(segments, expired, LimitsOf(m, options, now));
    var startOffset := if expired < |segments| then segments[expired].baseOffset else NextOffset(m);
    var retained := segments[expired..];
    if sound {
      RetainedOk(before, m, segments, keys, expired);
    }
    var root: Root;
    if expired != 0 || m.Legacy? {
      var rebuilt := IndexRebuild.RebuildIndex(store, retained, startOffset, NextOffset(m), options.maxObjects);
      if rebuilt.Err? {
        r := Err(rebuilt.error);
        return;
      }
      root := rebuilt.value;
      if sound {
        RebuiltPrepared(before, m, segments, keys, expired, store.ever, root);
      }
    } else {
      root := m.root;
      if sound {
        KeptPrepared(before, m);
      }
    }
    if Revision(m) + 1 > U64_MAX {
      r := Err(RevisionOverflow);
      return;
    }
    ghost var index := root;
    root := root.(producers := ProducersOf(m), schema := INDEX_SCHEMA, adoptedAt := Some(Adoption(m, now)),
                  revision := Revision(m) + 1);
    if sound {
      Offered(before, m, store.ever, index, root, expired);
    }
    var valid := ValidateRoot(root);
    if valid.Err? {
      r := Err(valid.error);
      return;
    }
    r := Ok(root);
  }

  /** A second pass over the published root, with the same options and clock, expires nothing. */
  lemma SecondPass(before: map<Key, Object>, m: Manifest, after: map<Key, Object>, root: Root, k: nat, options: Options,
                   now: nat, again: nat)
    requires ManifestSound(before, m) && Trimmed(before, m, after, root, k) && Carries(m, root, k, now)
    requires IsCut(Log(before, m), k, LimitsOf(m, options, now))
    ensures ManifestSound(after, Indexed(root))
    ensures IsCut(Log(after, Indexed(root)), again, LimitsOf(Indexed(root), options, now)) ==> again == 0
  {
    hide RootSound, ManifestStates, ManifestKeys, Log;
    SecondPassKeepsAll(Log(before, m), k, LimitsOf(m, options, now));
    if IsCut(Log(after, Indexed(root)), again, LimitsOf(Indexed(root), options, now)) {
      CutUnique(Log(after, Indexed(root)), again, 0, LimitsOf(Indexed(root), options, now));
    }
  }

  lemma CutInRange(segments: seq<Segment>, k: nat, l: Limits)
    requires IsCut(segments, k, l)
    ensures k <= |segments|
  {
  }

  /** The traced segments are the log, so any suffix of them can be indexed again. */
  lemma RetainedOk(objects: map<Key, Object>, m: Manifest, segments: seq<Segment>, keys: set<Key>, k: nat)
    requires ManifestSound(objects, m) && Traced(objects, m, segments, keys) && k <= |segments|
    ensures segments == Log(objects, m)
    ensures var start := if k < |segments| then segments[k].baseOffset else NextOffset(m);
      && start == EndOffset(segments[..k], StartOffset(m))
      && 0 <= StartOffset(m) <= start <= NextOffset(m) <= I64_MAX
      && SegmentsOk(segments[k..], start)
      && EndOffset(segments[k..], start) == NextOffset(m)
  {
    hide Sound, RootSound, ProducerPages.Sound, Keys, Load, ProducerTrace.RootKeys, Recorded, DistinctObjects, LegacyOk, Run,
      EndOffset, TreeContents;
    TracedLog(objects, m, segments, keys);
    LogRun(objects, m);
    CutOfRun(segments, StartOffset(m), k);
  }

  lemma TracedLog(objects: map<Key, Object>, m: Manifest, segments: seq<Segment>, keys: set<Key>)
    requires ManifestSound(objects, m) && Traced(objects, m, segments, keys)
    ensures segments == Log(objects, m) && DistinctObjects(segments)
  {
    hide Sound, RootSound, ProducerPages.Sound, Keys, Load, ProducerTrace.RootKeys, Recorded, DistinctObjects, LegacyOk;
    LogIs(objects, m);
  }

  lemma CutOfRun(segments: seq<Segment>, start: int, k: nat)
    requires Run(segments, start) && DistinctObjects(segments) && EndOffset(segments, start) <= I64_MAX && k <= |segments|
    ensures var cut := EndOffset(segments[..k], start);
      && (k < |segments| ==> segments[k].baseOffset == cut)
      && start <= cut <= EndOffset(segments, start)
      && SegmentsOk(segments[k..], cut)
      && EndOffset(segments[k..], cut) == EndOffset(segments, start)
    ensures k == |segments| ==> EndOffset(segments[..k], start) == EndOffset(segments, start)
  {
    var n := |segments|;
    assert segments[k..n] == segments[k..] && segments[..n] == segments;
    SegmentsOkWindow(segments, k, n, start);
    SegmentsOkPrefix(segments, k, start);
    RunRises(segments[..k], start);
    RunRises(segments[k..], EndOffset(segments[..k], start));
    if k < n {
      SegmentsOkPrefix(segments, k + 1, start);
      assert segments[..k + 1][..k] == segments[..k];
    }
  }

  /** So are those of any suffix. */
  lemma SuffixKeys(objects: map<Key, Object>, m: Manifest, k: nat)
    requires ManifestSound(objects, m) && k <= |Log(objects, m)|
    ensures SegmentKeys(Log(objects, m)[k..]) <= ManifestKeys(objects, m)
  {
    hide ManifestSound;
    LogKeys(objects, m);
    var log := Log(objects, m);
    assert log == log[..k] + log[k..];
    SegmentKeysAppend(log[..k], log[k..]);
  }

  lemma RebuiltPrepared(before: map<Key, Object>, m: Manifest, segments: seq<Segment>, keys: set<Key>, k: nat,
                        after: map<Key, Object>, root: Root)
    requires ManifestSound(before, m) && Traced(before, m, segments, keys) && k <= |segments| && Extends(before, after)
    requires var start := if k < |segments| then segments[k].baseOffset else NextOffset(m);
      IndexRebuild.Rebuilt(before, after, segments[k..], start, NextOffset(m), root)
    ensures Prepared(before, m, after, root, k)
  {
    hide ManifestSound, Traced, PartsSound, Bulk, EndOffset, SegmentsOk, IndexKeys;
    RetainedOk(before, m, segments, keys, k);
    BulkCorrect(segments[k..]);
    SuffixKeys(before, m, k);
    SegmentsDistinct(segments[k..], if k < |segments| then segments[k].baseOffset else NextOffset(m));
  }

  lemma SegmentsDistinct(segments: seq<Segment>, start: int)
    requires SegmentsOk(segments, start)
    ensures DistinctObjects(segments)
  {
  }

  lemma KeptPrepared(objects: map<Key, Object>, m: Manifest)
    requires ManifestSound(objects, m) && m.Indexed?
    ensures Prepared(objects, m, objects, m.root, 0)
  {
    hide Sound, WellFormed, ProducerWriter.DirectorySound, SegmentsOk;
    SoundParts(objects, m.root);
    assert Log(objects, m)[0..] == Log(objects, m) && Log(objects, m)[..0] == [];
  }

  /** Putting the kept producers and the new revision around the index gives a valid, sound root. */
  lemma Offered(before: map<Key, Object>, m: Manifest, after: map<Key, Object>, index: Root, root: Root, k: nat)
    requires ManifestSound(before, m) && Extends(before, after) && Prepared(before, m, after, index, k)
    requires Revision(m) + 1 <= U64_MAX
    requires root == index.(producers := ProducersOf(m), schema := INDEX_SCHEMA, adoptedAt := root.adoptedAt,
                            revision := Revision(m) + 1)
    requires root.adoptedAt.Some?
    ensures Trimmed(before, m, after, root, k) && RootOk(root)
    ensures root.nextOffset <= I64_MAX && root.revision <= U64_MAX
  {
    hide ManifestSound, PartsSound, WellFormed, RootOk, ProducerWriter.DirectorySound, ProducerWriter.DirectoryKeys,
      IndexKeys, StatesOf, Recorded, SegmentsOk, EndOffset, IndexOf, Contents;
    SameIndex(after, index, root);
    LogRun(before, m);
    KeptProducers(before, m, after);
    Committing.DirectoryRef(after, root.producers, root.nextOffset);
    StartsInside(before, m, k);
    TailWhenSealed(after, root);
    RecordedSuffix(before, m, after, k);
    Committing.ValidFinal(after, root);
    Assembled(before, m, after, root, k);
  }

  lemma Assembled(before: map<Key, Object>, m: Manifest, after: map<Key, Object>, root: Root, k: nat)
    requires ManifestSound(before, m) && Extends(before, after) && Prepared(before, m, after, root, k)
    requires RootOk(root) && root.revision == Revision(m) + 1 && StartOffset(m) <= root.startOffset
    requires ProducerWriter.DirectorySound(after, root.producers, root.nextOffset)
    requires StatesOf(after, root.producers, root.nextOffset) == ManifestStates(before, m)
    requires ProducerWriter.DirectoryKeys(after, root.producers, root.nextOffset) <= DirectoryPages(ManifestKeys(before, m))
    requires Recorded(after, Log(before, m)[k..])
    ensures Trimmed(before, m, after, root, k)
  {
    hide PartsSound, WellFormed, RootOk, ProducerWriter.DirectorySound, ProducerWriter.DirectoryKeys, IndexKeys, StatesOf,
      Recorded, EndOffset, IndexOf, Contents;
  }

  lemma SameIndex(objects: map<Key, Object>, a: Root, b: Root)
    requires PartsSound(objects, a) && b.startOffset == a.startOffset && b.tree == a.tree && b.tail == a.tail
    ensures PartsSound(objects, b) && IndexOf(objects, b) == IndexOf(objects, a)
    ensures IndexKeys(objects, b) == IndexKeys(objects, a) && TreeEnd(b) == TreeEnd(a)
  {
    hide Sound, SegmentsOk;
  }

  lemma KeptProducers(before: map<Key, Object>, m: Manifest, after: map<Key, Object>)
    requires ManifestSound(before, m) && Extends(before, after)
    ensures ProducerWriter.DirectorySound(after, ProducersOf(m), NextOffset(m))
    ensures StatesOf(after, ProducersOf(m), NextOffset(m)) == ManifestStates(before, m)
    ensures ProducerWriter.DirectoryKeys(after, ProducersOf(m), NextOffset(m)) <= DirectoryPages(ManifestKeys(before, m))
  {
    hide PartsSound, WellFormed, RootOk, ProducerWriter.DirectorySound, ProducerWriter.DirectoryKeys, IndexKeys;
    if m.Indexed? {
      SoundParts(before, m.root);
      ProducerWriter.DirectoryFrame(before, after, m.root.producers, m.root.nextOffset, m.root.nextOffset);
      forall k | k in ProducerWriter.DirectoryKeys(before, m.root.producers, m.root.nextOffset) ensures k.ProducerKey? {
        DirectoryKeysPresent(before, m.root.producers, m.root.nextOffset, k);
      }
    } else {
      Committing.NoStates(after, m.nextOffset);
      Committing.NoDirectoryKeys(after, m.nextOffset);
    }
  }

  lemma StartsInside(objects: map<Key, Object>, m: Manifest, k: nat)
    requires ManifestSound(objects, m) && k <= |Log(objects, m)|
    ensures StartOffset(m) <= EndOffset(Log(objects, m)[..k], StartOffset(m)) <= NextOffset(m)
  {
    hide ManifestSound, EndOffset;
    LogRun(objects, m);
    var log := Log(objects, m);
    assert log == log[..k] + log[k..];
    RunAppend(log[..k], log[k..], StartOffset(m));
    RunRises(log[..k], StartOffset(m));
    RunRises(log[k..], EndOffset(log[..k], StartOffset(m)));
  }

  lemma TailWhenSealed(objects: map<Key, Object>, root: Root)
    requires PartsSound(objects, root) && WellFormed(IndexOf(objects, root))
    ensures root.tree.Some? ==> root.tail != []
  {
  }

  lemma RecordedSuffix(before: map<Key, Object>, m: Manifest, after: map<Key, Object>, k: nat)
    requires ManifestSound(before, m) && Extends(before, after) && k <= |Log(before, m)|
    ensures Recorded(after, Log(before, m)[k..])
  {
    hide ManifestSound;
    LogIs(before, m);
  }
}
