/** One whole maintenance attempt: trace, cut, publish, trace again and delete what nothing reaches. */
module Collection {
  import opened LogTypes
  import opened ObjectStores
  import opened IndexPages
  import opened Manifests
  import opened Retention
  import opened Maintenance
  import Selections
  import opened IndexRoots
  import opened BulkLoad
  import ProducerWriter
  import IndexScan
  import IndexWriter
  import Restriction

  /** A prepared pass: the root to publish, how many batches it expires, and the candidates for deletion. */
  datatype Pass = Pass(root: Root, expired: nat, removable: set<Key>)

  /** What the pass expects to stay (src/log/maintenance.rs:259-280). */
  function PlannedLive(m: Manifest, segments: seq<Segment>, keys: set<Key>, expired: nat): set<Key>
    requires expired <= |segments|
  {
    if expired != 0 || m.Legacy? then SegmentKeys(segments[expired..]) + DirectoryPages(keys) else keys
  }

  /** Everything expected to stay is reached by the published root. */
  lemma PlannedStays(before: map<Key, Object>, m: Manifest, after: map<Key, Object>, root: Root, k: nat, now: nat)
    requires ManifestSound(before, m) && Extends(before, after)
    requires Trimmed(before, m, after, root, k) && Carries(m, root, k, now)
    ensures ManifestSound(after, Indexed(root))
    ensures PlannedLive(m, Log(before, m), ManifestKeys(before, m), k) <= ManifestKeys(after, Indexed(root))
  {
    hide ManifestSound, Trimmed;
    RootStands(before, m, after, root, k);
    LogKeys(after, Indexed(root));
    if k != 0 || m.Legacy? {
      DirectoryStays(before, m, after, root);
    } else {
      ManifestFrame(before, after, m);
      SameKeys(after, m, root);
    }
  }

  lemma RootStands(before: map<Key, Object>, m: Manifest, after: map<Key, Object>, root: Root, k: nat)
    requires ManifestSound(before, m) && Trimmed(before, m, after, root, k)
    ensures ManifestSound(after, Indexed(root)) && k <= |Log(before, m)|
    ensures Log(after, Indexed(root)) == Log(before, m)[k..] && root.nextOffset == NextOffset(m)
  {
  }

  lemma DirectoryStays(before: map<Key, Object>, m: Manifest, after: map<Key, Object>, root: Root)
    requires ManifestSound(before, m) && ManifestSound(after, Indexed(root)) && Extends(before, after)
    requires root.producers == ProducersOf(m) && root.nextOffset == NextOffset(m)
    ensures DirectoryPages(ManifestKeys(before, m)) <= ManifestKeys(after, Indexed(root))
  {
    hide PartsSound, WellFormed, RootOk, ProducerWriter.DirectorySound, ProducerWriter.DirectoryKeys, IndexKeys;
    if m.Indexed? {
      SoundParts(before, m.root);
      ProducerWriter.DirectoryFrame(before, after, m.root.producers, m.root.nextOffset, m.root.nextOffset);
    }
    forall k | k in DirectoryPages(ManifestKeys(before, m)) ensures k in ManifestKeys(after, Indexed(root)) {
      if m.Legacy? {
        LogRun(before, m);
        RunKeys(m.segments, 0, k);
      } else if k in IndexKeys(before, m.root) {
        IndexPagesOnly(before, m, k);
      }
    }
  }

  lemma IndexPagesOnly(objects: map<Key, Object>, m: Manifest, k: Key)
    requires ManifestSound(objects, m) && m.Indexed? && PartsSound(objects, m.root) && k in IndexKeys(objects, m.root)
    ensures !k.ProducerKey?
  {
    hide Sound, Keys, Load, WellFormed, ProducerWriter.DirectorySound;
    var tree := m.root.tree;
    LogIs(objects, m);
    LogRun(objects, m);
    if tree.Some? && k in Keys(objects, tree.value) {
      KeysPages(objects, tree.value, k);
    }
    SegmentKeysAppend(IndexScan.TreeContents(objects, tree), m.root.tail);
    if k.ProducerKey? {
      RunKeys(Log(objects, m), StartOffset(m), k);
    }
  }

  lemma SameKeys(objects: map<Key, Object>, m: Manifest, root: Root)
    requires ManifestSound(objects, m) && ManifestSound(objects, Indexed(root)) && m.Indexed?
    requires root.tree == m.root.tree && root.tail == m.root.tail && root.producers == m.root.producers
    requires root.nextOffset == m.root.nextOffset
    ensures ManifestKeys(objects, Indexed(root)) == ManifestKeys(objects, m)
  {
  }

  /** What a pass expects to stay is exactly what its root reaches of the objects that were there before. */
  lemma PlannedExactly(before: map<Key, Object>, m: Manifest, after: map<Key, Object>, root: Root, k: nat, now: nat)
    requires ManifestSound(before, m) && Extends(before, after)
    requires Trimmed(before, m, after, root, k) && Carries(m, root, k, now)
    ensures ManifestSound(after, Indexed(root)) && k <= |Log(before, m)|
    ensures PlannedLive(m, Log(before, m), ManifestKeys(before, m), k)
      == ManifestKeys(after, Indexed(root)) * before.Keys
  {
    hide ManifestSound, ManifestKeys, Log, Trimmed, Carries;
    RootStands(before, m, after, root, k);
    PlannedStays(before, m, after, root, k, now);
    var keys, reached := ManifestKeys(before, m), ManifestKeys(after, Indexed(root));
    forall key | key in keys ensures key in before {
      KeysPresent(before, m, key);
    }
    PlannedReached(before, m, k);
    if k == 0 && m.Indexed? {
      ManifestFrame(before, after, m);
      KeptKeys(before, m, after, root, now);
    } else {
      RebuiltKeys(before, m, after, root, k);
    }
  }

  lemma PlannedReached(before: map<Key, Object>, m: Manifest, k: nat)
    requires ManifestSound(before, m) && k <= |Log(before, m)|
    ensures PlannedLive(m, Log(before, m), ManifestKeys(before, m), k) <= ManifestKeys(before, m)
  {
    hide ManifestSound, ManifestKeys, Log;
    var log := Log(before, m);
    LogKeys(before, m);
    assert log == log[..k] + log[k..];
    SegmentKeysAppend(log[..k], log[k..]);
  }

  lemma RebuiltKeys(before: map<Key, Object>, m: Manifest, after: map<Key, Object>, root: Root, k: nat)
    requires ManifestSound(before, m) && Trimmed(before, m, after, root, k) && (k != 0 || m.Legacy?)
    requires ManifestSound(after, Indexed(root)) && k <= |Log(before, m)|
    ensures ManifestKeys(after, Indexed(root)) * before.Keys <= PlannedLive(m, Log(before, m), ManifestKeys(before, m), k)
  {
    hide ManifestSound, ManifestKeys, Log, RootSound;
  }

  lemma KeptKeys(before: map<Key, Object>, m: Manifest, after: map<Key, Object>, root: Root, now: nat)
    requires ManifestSound(before, m) && ManifestSound(after, m) && ManifestSound(after, Indexed(root)) && m.Indexed?
    requires Trimmed(before, m, after, root, 0) && Carries(m, root, 0, now)
    ensures ManifestKeys(after, Indexed(root)) == ManifestKeys(after, m)
  {
    hide ManifestSound;
    SameKeys(after, m, root);
  }

  /**
   * src/log/maintenance.rs:192-340 and the check of the options at line 42: one attempt up to the
   * swap. On a manifest that was ever sound, of which other collectors may have left any part, it
   * prepares exactly the retention cut of the log, or fails on the budget, on a full revision
   * counter, or on an object that is gone.
   */
  method PreparePass(store: ObjectStore, inventory: set<Key>, m: Manifest, options: Options, now: nat)
    returns (r: Result<Pass>)
    requires store.Valid()
    modifies store
    ensures store.Valid()
    ensures IndexWriter.Grew(old(store.ever), old(store.nextId), store.ever)
    ensures store.Gone() == old(store.Gone())
    ensures !(1 <= options.maxObjects <= MAX_OBJECTS) ==> r == Err(InvalidMaintenance) && store.ever == old(store.ever)
    ensures ManifestSound(old(store.ever), m) && 1 <= options.maxObjects <= MAX_OBJECTS ==>
      && (r.Err? ==> r.error in {MaintenanceBudget, RevisionOverflow, NotFound})
      && (r.Err? && r.error == RevisionOverflow ==> Revision(m) >= U64_MAX)
      && (r.Err? && r.error == NotFound ==> !ManifestSound(old(store.objects), m))
      && (r.Err? && r.error == MaintenanceBudget ==>
            || |ManifestKeys(old(store.ever), m)| > options.maxObjects
            || exists k :: 0 <= k <= |Log(old(store.ever), m)| && (k != 0 || m.Legacy?)
                 && IsCut(Log(old(store.ever), m), k, LimitsOf(m, options, now))
                 && RebuildSize(|Log(old(store.ever), m)| - k) > options.maxObjects)
      && var log := Log(old(store.ever), m);
      && (r.Ok? ==>
            && Selections.Bytes(log) <= U64_MAX
            && IsCut(log, r.value.expired, LimitsOf(m, options, now))
            && Expires(m, log, r.value.expired, options, now, r.value.root.adoptedAt)
            && Trimmed(old(store.ever), m, store.ever, r.value.root, r.value.expired)
            && Carries(m, r.value.root, r.value.expired, now)
            && r.value.removable ==
               inventory - PlannedLive(m, log, ManifestKeys(old(store.ever), m), r.value.expired))
  {
    hide ManifestSound, Traced, Trimmed, IsCut, Expires, ManifestKeys, Log;
    if !(1 <= options.maxObjects <= MAX_OBJECTS) {
      return Err(InvalidMaintenance);
    }
    ghost var seen, before := store.objects, store.ever;
    var traced := TraceManifest(store, m, options.maxObjects);
    if traced.Err? {
      return Err(traced.error);
    }
    var segments, keys := traced.value.segments, traced.value.objects;
    var planned, expired := PlanMaintenance(store, m, segments, options, now, seen, keys);
    CutInRange(segments, expired, LimitsOf(m, options, now));
    if ManifestSound(before, m) {
      LogRun(before, m);
      TotalFits(segments, StartOffset(m));
    }
    if planned.Err? {
      return Err(planned.error);
    }
    r := Ok(Pass(planned.value, expired, inventory - PlannedLive(m, segments, keys, expired)));
  }

  /**
   * src/log/maintenance.rs:360-391: trace the published root again, then delete every candidate that
   * it does not reach. If the trace fails, nothing is deleted. A root that is readable stays
   * readable, with the same log.
   */
  method Sweep(store: ObjectStore, root: Root, removable: set<Key>, maximum: nat) returns (r: Result<()>)
    requires store.Valid() && ManifestSound(store.ever, Indexed(root))
    modifies store`objects, store`gets
    ensures store.Valid()
    ensures r.Err? ==> r.error in {MaintenanceBudget, NotFound} && store.objects == old(store.objects)
    ensures r.Err? && r.error == MaintenanceBudget ==> |ManifestKeys(store.ever, Indexed(root))| > maximum
    ensures r.Err? && r.error == NotFound ==> !ManifestSound(old(store.objects), Indexed(root))
    ensures r.Ok? ==>
      && store.objects == old(store.objects) - (removable - ManifestKeys(store.ever, Indexed(root)))
      && ManifestSound(store.objects, Indexed(root))
      && Log(store.objects, Indexed(root)) == Log(store.ever, Indexed(root))
  {
    hide ManifestSound, Traced, ManifestKeys, Log;
    ghost var before := store.objects;
    var live := TraceManifest(store, Indexed(root), maximum);
    if live.Err? {
      return Err(live.error);
    }
    TracedPresent(before, store.ever, Indexed(root), live.value.segments, live.value.objects);
    var reached := live.value.objects;
    ghost var doomed := removable - reached;
    var rest := removable;
    while rest != {}
      invariant rest <= removable
      invariant store.objects == before - (doomed - rest)
      decreases rest
    {
      var key :| key in rest;
      if key !in reached {
        store.Delete(key);
      }
      rest := rest - {key};
    }
    Restriction.ManifestWithin(store.ever, store.objects, Indexed(root));
    r := Ok(());
  }

  /** A complete trace found everything the manifest reaches. */
  lemma TracedPresent(objects: map<Key, Object>, ever: map<Key, Object>, m: Manifest, segments: seq<Segment>, keys: set<Key>)
    requires Extends(objects, ever) && ManifestSound(ever, m) && Traced(objects, m, segments, keys)
    ensures ManifestKeys(ever, m) <= objects.Keys
  {
    hide ManifestSound, Traced, ManifestKeys;
    TracedEver(objects, ever, m, segments, keys);
    forall k | k in ManifestKeys(ever, m) ensures k in objects {
      KeysPresent(objects, m, k);
    }
  }

  /**
   * Filtering by what was expected to stay changes nothing: the candidates that the published root
   * does not reach are the whole inventory outside what it reaches.
   */
  lemma SweepsAll(inventory: set<Key>, before: map<Key, Object>, m: Manifest, after: map<Key, Object>, root: Root, k: nat,
                  now: nat)
    requires ManifestSound(before, m) && Extends(before, after)
    requires Trimmed(before, m, after, root, k) && Carries(m, root, k, now)
    ensures ManifestSound(after, Indexed(root)) && k <= |Log(before, m)|
    ensures var live := ManifestKeys(after, Indexed(root));
      inventory - PlannedLive(m, Log(before, m), ManifestKeys(before, m), k) - live == inventory - live
  {
    hide ManifestSound, Trimmed, PlannedLive;
    RootStands(before, m, after, root, k);
    PlannedStays(before, m, after, root, k, now);
  }
}
