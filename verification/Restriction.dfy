/** A manifest is sound in any part of the store that still holds everything it reaches. */
module Restriction {
  import opened LogTypes
  import opened ObjectStores
  import opened IndexRoots
  import opened BulkLoad
  import opened Manifests
  import IndexPages
  import ProducerPages
  import ProducerTree
  import ProducerWriter

  lemma {:induction false} IndexWithin(all: map<Key, Object>, part: map<Key, Object>, r: PageRef)
    requires IndexPages.Sound(all, r) && Extends(part, all) && IndexPages.Keys(all, r) <= part.Keys
    ensures IndexPages.Sound(part, r)
    decreases r.level
  {
    hide IndexPages.Union, IndexPages.PageOk;
    match all[r.key].page
    case LeafPage(_) =>
    case BranchPage(c) =>
      IndexPages.LoadBranch(all, r);
      forall i | 0 <= i < |c| ensures c[i].level < r.level && IndexPages.Sound(part, c[i]) {
        ChildKeys(IndexPages.KeysAll(all, c), i, IndexPages.Keys(all, r));
        assert IndexPages.KeysAll(all, c)[i] == IndexPages.Keys(all, c[i]);
        IndexWithin(all, part, c[i]);
      }
  }

  lemma ChildKeys(sets: seq<set<Key>>, i: nat, keys: set<Key>)
    requires i < |sets| && IndexPages.Union(sets) <= keys
    ensures sets[i] <= keys
  {
    forall k | k in sets[i] ensures k in keys {
      IndexPages.UnionHas(sets, k);
    }
  }

  lemma {:induction false} ProducersWithin(all: map<Key, Object>, part: map<Key, Object>, r: ProducerRef, nextOffset: int)
    requires ProducerPages.Sound(all, r, nextOffset) && Extends(part, all)
    requires ProducerPages.Keys(all, r, nextOffset) <= part.Keys
    ensures ProducerPages.Sound(part, r, nextOffset)
    decreases r.level
  {
    hide IndexPages.Union, ProducerPages.PageOk;
    match all[r.key].producerPage
    case ProducerLeaf(_) =>
    case ProducerBranch(c) =>
      ProducerPages.LoadBranch(all, r, nextOffset);
      forall i | 0 <= i < |c| ensures c[i].level < r.level && ProducerPages.Sound(part, c[i], nextOffset) {
        ChildKeys(ProducerPages.KeysAll(all, c, nextOffset), i, ProducerPages.Keys(all, r, nextOffset));
        assert ProducerPages.KeysAll(all, c, nextOffset)[i] == ProducerPages.Keys(all, c[i], nextOffset);
        ProducersWithin(all, part, c[i], nextOffset);
      }
  }

  lemma PartsWithin(all: map<Key, Object>, part: map<Key, Object>, root: Root)
    requires PartsSound(all, root) && Extends(part, all) && IndexKeys(all, root) <= part.Keys
    ensures PartsSound(part, root) && IndexOf(part, root) == IndexOf(all, root)
  {
    hide IndexPages.Sound, IndexPages.SegmentsOk;
    if root.tree.Some? {
      IndexWithin(all, part, root.tree.value);
    }
    PartsFrame(part, all, root);
  }

  lemma DirectoryWithin(all: map<Key, Object>, part: map<Key, Object>, root: Option<ProducerRef>, nextOffset: int)
    requires ProducerWriter.DirectorySound(all, root, nextOffset) && Extends(part, all)
    requires ProducerWriter.DirectoryKeys(all, root, nextOffset) <= part.Keys
    ensures ProducerWriter.DirectorySound(part, root, nextOffset)
  {
    hide ProducerPages.Sound, ProducerTree.WellFormed;
    if root.Some? {
      ProducersWithin(all, part, root.value, nextOffset);
      ProducerPages.SoundFrame(part, all, root.value, nextOffset, nextOffset);
    }
  }

  lemma RecordedWithin(all: map<Key, Object>, part: map<Key, Object>, segments: seq<Segment>)
    requires Recorded(all, segments) && Extends(part, all) && IndexPages.SegmentKeys(segments) <= part.Keys
    ensures Recorded(part, segments)
  {
    forall i | 0 <= i < |segments|
      ensures segments[i].key in part && part[segments[i].key] == RecordObject(segments[i].byteLength)
    {
      SegmentKeysIn(segments, segments[i].key);
      assert segments[i].key in IndexPages.SegmentKeys(segments);
    }
  }

  /** Presence of everything reachable is all that soundness needs. */
  lemma ManifestWithin(all: map<Key, Object>, part: map<Key, Object>, m: Manifest)
    requires ManifestSound(all, m) && Extends(part, all) && ManifestKeys(all, m) <= part.Keys
    ensures ManifestSound(part, m)
    ensures Log(part, m) == Log(all, m) && ManifestKeys(part, m) == ManifestKeys(all, m)
    ensures ManifestStates(part, m) == ManifestStates(all, m)
  {
    hide RootOk, PartsSound, WellFormed, ProducerWriter.DirectorySound, Recorded, IndexKeys, ProducerWriter.DirectoryKeys,
      IndexPages.SegmentKeys, IndexOf, Contents, LegacyOk;
    LogKeys(all, m);
    match m
    case Legacy(_, _, segments) => RecordedWithin(all, part, segments);
    case Indexed(root) =>
      SoundParts(all, root);
      PartsWithin(all, part, root);
      DirectoryWithin(all, part, root.producers, root.nextOffset);
      RecordedWithin(all, part, Contents(IndexOf(all, root)));
    ManifestFrame(part, all, m);
  }
}
