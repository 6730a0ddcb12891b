/** Validity of the manifest object, and everything a manifest denotes. */
module Manifests {
  import opened LogTypes
  import opened ObjectStores
  import opened IndexPages
  import opened IndexRoots
  import opened BulkLoad
  import IndexTree
  import ProducerTree
  import ProducerPages
  import ProducerWriter
  import Idempotence

  // -------------------------------------------------------------- validity

  function Count(root: Root): nat {
    (if root.tree.Some? then root.tree.value.segmentCount else 0) + |root.tail|
  }

  ghost predicate SchemaOk(root: Root) {
    && root.schema in {2, 3, INDEX_SCHEMA}
    && (root.schema >= 3 ==> root.adoptedAt.Some?)
    && (root.producers.Some? ==> root.schema == INDEX_SCHEMA)
    && (root.schema == 2 ==>
          && root.startOffset == 0 && root.adoptedAt.None?
          && forall i :: 0 <= i < |root.tail| ==> root.tail[i].receivedAt.None?)
  }

  /** src/log/index.rs:121-162; revision and offsets are within their integer types there. */
  ghost predicate RootOk(root: Root) {
    && SchemaOk(root)
    && |root.tail| <= PAGE_ENTRIES
    && 0 <= root.startOffset <= root.nextOffset <= I64_MAX
    && (root.producers.Some? ==> ProducerPages.RefValid(root.producers.value))
    && (root.tree.Some? ==>
          RefValid(root.tree.value) && root.tree.value.firstOffset == root.startOffset && root.tail != [])
    && SegmentsOk(root.tail, TreeEnd(root))
    && EndOffset(root.tail, TreeEnd(root)) == root.nextOffset
    && Count(root) <= root.revision <= U64_MAX
    && (root.schema == 2 ==> Count(root) == root.revision)
  }

  /** src/log.rs:963-984 */
  ghost predicate LegacyOk(revision: nat, nextOffset: int, segments: seq<Segment>) {
    revision == |segments| <= U64_MAX && SegmentsOk(segments, 0) && nextOffset == EndOffset(segments, 0)
  }

  /** What every loaded manifest satisfies (src/log.rs:825-843). */
  ghost predicate ManifestOk(m: Manifest) {
    match m
    case Legacy(revision, nextOffset, segments) => LegacyOk(revision, nextOffset, segments)
    case Indexed(root) => RootOk(root)
  }

  method ValidateRoot(root: Root) returns (r: Result<()>)
    ensures r.Ok? && root.nextOffset <= I64_MAX && root.revision <= U64_MAX <==> RootOk(root)
  {
    var received := exists i :: 0 <= i < |root.tail| && root.tail[i].receivedAt.Some?;
    if root.schema !in {2, 3, INDEX_SCHEMA} || |root.tail| > PAGE_ENTRIES || root.startOffset < 0
       || root.nextOffset < root.startOffset || (root.schema >= 3 && root.adoptedAt.None?)
       || (root.schema < 4 && root.producers.Some?)
       || (root.schema == 2 && (root.startOffset != 0 || root.adoptedAt.Some? || received)) {
      return Err(Invalid);
    }
    if root.producers.Some? {
      var valid := ProducerPages.CheckReference(root.producers.value);
      if !valid {
        return Err(Invalid);
      }
    }
    var start, count := root.startOffset, 0;
    if root.tree.Some? {
      var tree := root.tree.value;
      var valid := CheckReference(tree);
      if !valid || tree.firstOffset != root.startOffset {
        return Err(Invalid);
      }
      start, count := tree.nextOffset, tree.segmentCount;
    }
    var next :- ValidateSegments(root.tail, start);
    count := count + |root.tail|;
    if next != root.nextOffset || count > U64_MAX || count > root.revision || (root.schema == 2 && count != root.revision)
       || (root.tail == [] && root.tree.Some?) {
      return Err(Invalid);
    }
    r := Ok(());
  }

  // -------------------------------------------------------------- what a manifest denotes

  /** Every segment of the list was stored, at its recorded length. */
  ghost predicate Recorded(objects: map<Key, Object>, segments: seq<Segment>) {
    forall i :: 0 <= i < |segments| ==>
      segments[i].key in objects && objects[segments[i].key] == RecordObject(segments[i].byteLength)
  }

  ghost predicate RootSound(objects: map<Key, Object>, root: Root) {
    && RootOk(root)
    && PartsSound(objects, root)
    && WellFormed(IndexOf(objects, root))
    && ProducerWriter.DirectorySound(objects, root.producers, root.nextOffset)
    && Recorded(objects, Contents(IndexOf(objects, root)))
    && DistinctObjects(Contents(IndexOf(objects, root)))
  }

  ghost predicate ManifestSound(objects: map<Key, Object>, m: Manifest) {
    match m
    case Legacy(revision, nextOffset, segments) => LegacyOk(revision, nextOffset, segments) && Recorded(objects, segments)
    case Indexed(root) => RootSound(objects, root)
  }

  function StartOffset(m: Manifest): int {
    if m.Legacy? then 0 else m.root.startOffset
  }

  function NextOffset(m: Manifest): int {
    if m.Legacy? then m.nextOffset else m.root.nextOffset
  }

  function Revision(m: Manifest): nat {
    if m.Legacy? then m.revision else m.root.revision
  }

  function ProducersOf(m: Manifest): Option<ProducerRef> {
    if m.Legacy? then None else m.root.producers
  }

  /** The time of adoption is set once, and kept from then on. */
  predicate AdoptionKept(m: Manifest, adoptedAt: Option<nat>, now: nat) {
    if m.Indexed? && m.root.adoptedAt.Some? then adoptedAt == m.root.adoptedAt else adoptedAt == Some(now)
  }

  /** The segments of the log, oldest first. */
  ghost function Log(objects: map<Key, Object>, m: Manifest): seq<Segment>
    requires ManifestSound(objects, m)
  {
    if m.Legacy? then m.segments else Contents(IndexOf(objects, m.root))
  }

  /** The states of an ordered list, by identifier. */
  function Mapped(states: seq<ProducerState>): Idempotence.Directory {
    if states == [] then map[] else Mapped(states[1..])[states[0].id := states[0]]
  }

  lemma {:induction false} MappedFind(states: seq<ProducerState>, id: int)
    ensures ProducerTree.Find(states, id) == if id in Mapped(states) then Some(Mapped(states)[id]) else None
  {
    if states != [] {
      MappedFind(states[1..], id);
    }
  }

  /** Setting one state in the ordered list sets one key of the map. */
  lemma MappedUpsert(states: seq<ProducerState>, st: ProducerState)
    requires ProducerTree.Sorted(states)
    ensures Mapped(ProducerTree.Upsert(states, st)) == Mapped(states)[st.id := st]
  {
    hide Mapped, ProducerTree.Sorted, ProducerTree.Upsert, ProducerTree.Find;
    var after, expected := Mapped(ProducerTree.Upsert(states, st)), Mapped(states)[st.id := st];
    forall id ensures id in after <==> id in expected
      ensures id in after && id in expected ==> after[id] == expected[id]
    {
      ProducerTree.UpsertFind(states, st, id);
      MappedFind(states, id);
      MappedFind(ProducerTree.Upsert(states, st), id);
    }
  }

  ghost function StatesOf(objects: map<Key, Object>, root: Option<ProducerRef>, nextOffset: int): Idempotence.Directory
    requires ProducerWriter.DirectorySound(objects, root, nextOffset)
  {
    Mapped(ProducerTree.Contents(ProducerWriter.Directory(objects, root, nextOffset)))
  }

  ghost function ManifestStates(objects: map<Key, Object>, m: Manifest): Idempotence.Directory
    requires ManifestSound(objects, m)
  {
    if m.Legacy? then map[] else StatesOf(objects, m.root.producers, m.root.nextOffset)
  }

  /** Every object the manifest reaches: segments, index pages and producer pages. */
  ghost function ManifestKeys(objects: map<Key, Object>, m: Manifest): set<Key>
    requires ManifestSound(objects, m)
  {
    match m
    case Legacy(_, _, segments) => SegmentKeys(segments)
    case Indexed(root) =>
      IndexKeys(objects, root) + ProducerWriter.DirectoryKeys(objects, root.producers, root.nextOffset)
  }

  // -------------------------------------------------------------- basic facts

  lemma SoundParts(objects: map<Key, Object>, root: Root)
    requires RootSound(objects, root)
    ensures RootOk(root) && PartsSound(objects, root)
    ensures WellFormed(IndexOf(objects, root))
    ensures ProducerWriter.DirectorySound(objects, root.producers, root.nextOffset)
    ensures Recorded(objects, Contents(IndexOf(objects, root)))
    ensures DistinctObjects(Contents(IndexOf(objects, root)))
  {
  }

  /** Immutable pages and objects: a manifest means the same in every later store. */
  lemma ManifestFrame(before: map<Key, Object>, after: map<Key, Object>, m: Manifest)
    requires ManifestSound(before, m) && Extends(before, after)
    ensures ManifestSound(after, m)
    ensures Log(after, m) == Log(before, m)
    ensures ManifestStates(after, m) == ManifestStates(before, m)
    ensures ManifestKeys(after, m) == ManifestKeys(before, m)
  {
    hide RootOk, PartsSound, WellFormed, ProducerWriter.DirectorySound;
    if m.Indexed? {
      SoundParts(before, m.root);
      PartsFrame(before, after, m.root);
      ProducerWriter.DirectoryFrame(before, after, m.root.producers, m.root.nextOffset, m.root.nextOffset);
    }
  }

  lemma {:induction false} SegmentKeysIn(segments: seq<Segment>, k: Key)
    ensures k in SegmentKeys(segments) <==> exists i :: 0 <= i < |segments| && segments[i].key == k
  {
    if segments != [] {
      var front := segments[..|segments| - 1];
      SegmentKeysIn(front, k);
      assert forall i :: 0 <= i < |front| ==> front[i] == segments[i];
    }
  }

  /** Index keys are the pages of the tree and the keys of the contents. */
  lemma IndexKeysPresent(objects: map<Key, Object>, root: Root, k: Key)
    requires PartsSound(objects, root) && Recorded(objects, Contents(IndexOf(objects, root)))
    requires k in IndexKeys(objects, root)
    ensures k in objects
  {
    hide Sound, Keys, Load, IndexTree.Flatten, SegmentsOk;
    var body := if root.tree.Some? then IndexTree.Flatten(Load(objects, root.tree.value)) else [];
    assert Contents(IndexOf(objects, root)) == body + root.tail;
    if root.tree.Some? && k in Keys(objects, root.tree.value) {
      TreeKeysPresent(objects, root.tree.value, body + root.tail, k);
    } else {
      SegmentKeysIn(root.tail, k);
      var i :| 0 <= i < |root.tail| && root.tail[i].key == k;
      assert (body + root.tail)[|body| + i].key == k;
    }
  }

  lemma TreeKeysPresent(objects: map<Key, Object>, r: PageRef, all: seq<Segment>, k: Key)
    requires Sound(objects, r) && k in Keys(objects, r)
    requires IndexTree.Flatten(Load(objects, r)) <= all && Recorded(objects, all)
    ensures k in objects
  {
    hide Sound, Keys, Load, IndexTree.Flatten;
    KeysPages(objects, r, k);
    if k in SegmentKeys(IndexTree.Flatten(Load(objects, r))) {
      SegmentKeysIn(IndexTree.Flatten(Load(objects, r)), k);
    }
  }

  /** Everything a sound manifest reaches is in the store. */
  lemma KeysPresent(objects: map<Key, Object>, m: Manifest, k: Key)
    requires ManifestSound(objects, m) && k in ManifestKeys(objects, m)
    ensures k in objects
  {
    hide RootOk, PartsSound, WellFormed, ProducerWriter.DirectorySound;
    match m
    case Legacy(_, _, segments) => SegmentKeysIn(segments, k);
    case Indexed(root) =>
      SoundParts(objects, root);
      if k in IndexKeys(objects, root) {
        IndexKeysPresent(objects, root, k);
      } else {
        DirectoryKeysPresent(objects, root.producers, root.nextOffset, k);
      }
  }

  lemma DirectoryKeysPresent(objects: map<Key, Object>, root: Option<ProducerRef>, nextOffset: int, k: Key)
    requires ProducerWriter.DirectorySound(objects, root, nextOffset)
    requires k in ProducerWriter.DirectoryKeys(objects, root, nextOffset)
    ensures k in objects && k.ProducerKey?
  {
    ProducerWriter.KeysPresent(objects, root.value, nextOffset, k);
  }

  /** Every segment of the log is a key the manifest reaches. */
  lemma LogKeys(objects: map<Key, Object>, m: Manifest)
    requires ManifestSound(objects, m)
    ensures SegmentKeys(Log(objects, m)) <= ManifestKeys(objects, m)
  {
    hide Sound, RootOk, WellFormed, ProducerWriter.DirectorySound, Load, Keys, ProducerWriter.DirectoryKeys;
    if m.Indexed? {
      SoundParts(objects, m.root);
      var tree := m.root.tree;
      var body := if tree.Some? then IndexTree.Flatten(Load(objects, tree.value)) else [];
      SegmentKeysAppend(body, m.root.tail);
      if tree.Some? {
        forall key | key in SegmentKeys(body) ensures key in Keys(objects, tree.value) {
          KeysPages(objects, tree.value, key);
        }
      } else {
        NothingOk(0);
      }
    }
  }

  /** The log is one gapless run between the two offsets, no longer than the revision. */
  lemma LogRun(objects: map<Key, Object>, m: Manifest)
    requires ManifestSound(objects, m)
    ensures Run(Log(objects, m), StartOffset(m))
    ensures EndOffset(Log(objects, m), StartOffset(m)) == NextOffset(m)
    ensures |Log(objects, m)| <= Revision(m)
    ensures 0 <= StartOffset(m) <= NextOffset(m) <= I64_MAX
  {
    if m.Indexed? {
      var root := m.root;
      PartsRun(objects, root);
      if root.tree.Some? {
        SoundShaped(objects, root.tree.value);
      }
    } else {
      RunRises(m.segments, 0);
    }
  }

  /** A segment list has one index: every published root holds the bulk-loaded one. */
  lemma RootIsBulk(objects: map<Key, Object>, root: Root)
    requires RootSound(objects, root)
    ensures IndexOf(objects, root) == Bulk(Contents(IndexOf(objects, root)))
  {
    BulkCorrect(Contents(IndexOf(objects, root)));
    WellFormedUnique(IndexOf(objects, root), Bulk(Contents(IndexOf(objects, root))));
  }
}
