/** The index part of a root: sealing the tail, adopting a flat manifest, and rebuilding from a segment list. */
module IndexRoots {
  import opened LogTypes
  import opened IndexTree
  import opened BulkLoad
  import opened ObjectStores
  import opened IndexPages
  import opened IndexWriter

  function TreeEnd(root: Root): int {
    if root.tree.Some? then root.tree.value.nextOffset else root.startOffset
  }

  /** A sound tree from the start offset, and a tail that continues it. */
  ghost predicate PartsSound(objects: map<Key, Object>, root: Root) {
    && 0 <= root.startOffset <= I64_MAX
    && (root.tree.Some? ==> Sound(objects, root.tree.value) && root.tree.value.firstOffset == root.startOffset)
    && |root.tail| <= PAGE_ENTRIES
    && SegmentsOk(root.tail, TreeEnd(root))
  }

  ghost function IndexOf(objects: map<Key, Object>, root: Root): Index
    requires PartsSound(objects, root)
  {
    match root.tree
    case None => Index(None, 0, root.tail)
    case Some(t) => Index(Some(Load(objects, t)), t.level, root.tail)
  }

  /** Every index page and segment the root reaches. */
  ghost function IndexKeys(objects: map<Key, Object>, root: Root): set<Key>
    requires PartsSound(objects, root)
  {
    (if root.tree.Some? then Keys(objects, root.tree.value) else {}) + SegmentKeys(root.tail)
  }

  lemma TreeEndBounds(objects: map<Key, Object>, root: Root)
    requires PartsSound(objects, root)
    ensures 0 <= TreeEnd(root) <= I64_MAX
  {
  }

  lemma PartsFrame(before: map<Key, Object>, after: map<Key, Object>, root: Root)
    requires PartsSound(before, root) && Extends(before, after)
    ensures PartsSound(after, root)
    ensures IndexOf(after, root) == IndexOf(before, root)
    ensures IndexKeys(after, root) == IndexKeys(before, root)
  {
    if root.tree.Some? {
      SoundFrame(before, after, root.tree.value);
    }
  }

  /** The contents of a root are one gapless run from its start offset to the end of its tail. */
  lemma PartsRun(objects: map<Key, Object>, root: Root)
    requires PartsSound(objects, root)
    ensures Run(Contents(IndexOf(objects, root)), root.startOffset)
    ensures EndOffset(Contents(IndexOf(objects, root)), root.startOffset) == EndOffset(root.tail, TreeEnd(root))
  {
    if root.tree.Some? {
      var t := root.tree.value;
      SoundShaped(objects, t);
      RunAppend(Flatten(Load(objects, t)), root.tail, root.startOffset);
    } else {
      assert [] + root.tail == root.tail;
    }
  }

  lemma {:induction false} RunFirst(segments: seq<Segment>, start: int)
    requires Run(segments, start) && segments != []
    ensures segments[0].baseOffset == start
  {
    if |segments| > 1 {
      RunFirst(segments[..|segments| - 1], start);
    }
  }

  // -------------------------------------------------------------- sealing

  lemma LeafSound(objects: map<Key, Object>, key: Key, segments: seq<Segment>, start: int)
    requires |segments| == PAGE_ENTRIES && SegmentsOk(segments, start) && 0 <= start
    requires key.IndexKey?
    ensures Writable(LeafPage(segments))
    ensures key in objects && objects[key] == IndexObject(LeafPage(segments)) ==>
      var r := RefTo(key, Describe(LeafPage(segments)));
      && Sound(objects, r) && Load(objects, r) == Leaf(segments)
      && Keys(objects, r) == {key} + SegmentKeys(segments)
      && r.firstOffset == start && r.nextOffset == EndOffset(segments, start) && r.level == 0
      && RefFull(r)
  {
    RunFirst(segments, start);
    RunRises(segments, start);
    assert Capacity(0) == 64;
  }

  ghost predicate Sealed(before: map<Key, Object>, root: Root, after: map<Key, Object>, result: Root)
    requires PartsSound(before, root)
  {
    && result == root.(tree := result.tree, tail := [])
    && PartsSound(after, result)
    && result.tree.Some?
    && TreeEnd(result) == EndOffset(root.tail, TreeEnd(root))
    && IndexOf(after, result) == Seal(IndexOf(before, root))
    && IndexKeys(after, result) <= IndexKeys(before, root) + Created(before, after)
  }

  lemma TreeLost(start: map<Key, Object>, mid: map<Key, Object>, root: Root, gone: set<Key>)
    requires PartsSound(start, root) && root.tree.Some? && Extends(start, mid) && Sound(mid, root.tree.value)
    requires LostPage(Keys(mid, root.tree.value), gone)
    ensures LostPage(IndexKeys(start, root), gone)
  {
    hide LostPage, Sound, Keys, Load;
    SoundFrame(start, mid, root.tree.value);
    LostMore(Keys(mid, root.tree.value), IndexKeys(start, root), gone);
  }

  /**
   * src/log/index.rs:327-347. Callers seal exactly a full tail. On parts that were ever sound it
   * fails only if a page of their tree was collected.
   */
  method SealTail(store: ObjectStore, root: Root) returns (r: Result<Root>)
    requires store.Valid() && |root.tail| == PAGE_ENTRIES
    modifies store
    ensures store.Valid() && store.nextId >= old(store.nextId)
    ensures Grew(old(store.ever), old(store.nextId), store.ever)
    ensures store.Gone() == old(store.Gone())
    ensures r.Ok? ==> r.value == root.(tree := r.value.tree, tail := [])
    ensures PartsSound(old(store.ever), root) ==>
      && (r.Err? ==> r.error == NotFound && LostPage(IndexKeys(old(store.ever), root), store.Gone()))
      && (r.Ok? ==> Sealed(old(store.ever), root, store.ever, r.value))
  {
    hide Sound, SegmentsOk, Full, InsertBelow, Flatten, ObjectStore.Gone, LostPage, IndexKeys, Keys;
    ghost var start, low := store.ever, store.nextId;
    ghost var sound := PartsSound(start, root);
    if sound {
      TreeEndBounds(start, root);
      LeafSound(start, IndexKey(low), root.tail, TreeEnd(root));
    }
    var leaf := WritePage(store, LeafPage(root.tail));
    if leaf.Err? {
      return Err(leaf.error);
    }
    ghost var mid := store.ever;
    if root.tree.None? {
      r := Ok(root.(tree := Some(leaf.value), tail := []));
      if sound {
        SealedFirst(start, mid, root, leaf.value);
      }
    } else {
      if sound {
        SealFollows(start, low, mid, root, leaf.value);
      }
      var tree := InsertLeaf(store, root.tree.value, leaf.value);
      if tree.Err? {
        if sound {
          TreeLost(start, mid, root, store.Gone());
        }
        return Err(tree.error);
      }
      r := Ok(root.(tree := Some(tree.value), tail := []));
      if sound {
        SealedMore(start, mid, store.ever, root, leaf.value, tree.value);
      }
    }
  }

  ghost predicate NewLeaf(start: map<Key, Object>, mid: map<Key, Object>, root: Root, leaf: PageRef) {
    && root.tail != [] && leaf == RefTo(leaf.key, Describe(LeafPage(root.tail)))
    && leaf.key.IndexKey? && leaf.key !in start
    && mid == start[leaf.key := IndexObject(LeafPage(root.tail))]
  }

  lemma SealedFirst(start: map<Key, Object>, mid: map<Key, Object>, root: Root, leaf: PageRef)
    requires |root.tail| == PAGE_ENTRIES && PartsSound(start, root) && root.tree.None?
    requires NewLeaf(start, mid, root, leaf)
    ensures Sealed(start, root, mid, root.(tree := Some(leaf), tail := []))
  {
    LeafSound(mid, leaf.key, root.tail, root.startOffset);
  }

  lemma SealFollows(start: map<Key, Object>, low: nat, mid: map<Key, Object>, root: Root, leaf: PageRef)
    requires |root.tail| == PAGE_ENTRIES && PartsSound(start, root) && root.tree.Some?
    requires NewLeaf(start, mid, root, leaf) && leaf.key == IndexKey(low)
    requires forall k :: k in start ==> k.id < low
    ensures Follows(mid, root.tree.value, leaf)
  {
    hide Sound, SegmentsOk, Full, InsertBelow, Flatten;
    TreeEndBounds(start, root);
    LeafSound(mid, leaf.key, root.tail, TreeEnd(root));
    SoundFrame(start, mid, root.tree.value);
    FreshUnreached(start, root.tree.value, low);
  }

  lemma SealedMore(start: map<Key, Object>, mid: map<Key, Object>, after: map<Key, Object>, root: Root,
                   leaf: PageRef, tree: PageRef)
    requires |root.tail| == PAGE_ENTRIES && PartsSound(start, root) && root.tree.Some?
    requires NewLeaf(start, mid, root, leaf) && Extends(mid, after)
    requires Follows(mid, root.tree.value, leaf) && Inserted(mid, after, root.tree.value, leaf, tree)
    ensures Sealed(start, root, after, root.(tree := Some(tree), tail := []))
  {
    hide Sound, SegmentsOk, Full, InsertBelow, Flatten;
    TreeEndBounds(start, root);
    LeafSound(mid, leaf.key, root.tail, TreeEnd(root));
    SoundFrame(start, mid, root.tree.value);
    NothingOk(TreeEnd(root.(tree := Some(tree), tail := [])));
  }

  lemma NothingOk(start: int)
    ensures SegmentsOk([], start) && SegmentKeys([]) == {}
  {
  }

  // -------------------------------------------------------------- adopting a flat manifest

  /** One segment more in the tail. */
  lemma Appended(objects: map<Key, Object>, root: Root, s: Segment)
    requires PartsSound(objects, root) && |root.tail| < PAGE_ENTRIES
    requires SegmentsOk(root.tail + [s], TreeEnd(root))
    ensures var longer := root.(tail := root.tail + [s]);
      && PartsSound(objects, longer)
      && IndexOf(objects, longer) == IndexOf(objects, root).(tail := root.tail + [s])
      && IndexKeys(objects, longer) == IndexKeys(objects, root) + {s.key}
  {
    SegmentKeysAppend(root.tail, [s]);
    assert SegmentKeys([s]) == {s.key} by {
      assert [s][..0] == [];
    }
  }

  lemma {:induction false} DistinctBack(a: seq<Segment>, b: seq<Segment>)
    requires DistinctObjects(a + b)
    ensures DistinctObjects(b)
    decreases |b|
  {
    if b != [] {
      assert (a + b)[..|a + b| - 1] == a + b[..|b| - 1];
      DistinctBack(a, b[..|b| - 1]);
      SegmentKeysAppend(a, b[..|b| - 1]);
    }
  }

  /** A window of valid segments is valid on its own. */
  lemma SegmentsOkWindow(segments: seq<Segment>, i: nat, j: nat, start: int)
    requires i <= j <= |segments| && SegmentsOk(segments, start)
    ensures SegmentsOk(segments[i..j], EndOffset(segments[..i], start))
    ensures EndOffset(segments[i..j], EndOffset(segments[..i], start)) == EndOffset(segments[..j], start)
  {
    SegmentsOkPrefix(segments, j, start);
    var a, b := segments[..i], segments[i..j];
    assert segments[..j] == a + b;
    RunAppend(a, b, start);
    DistinctBack(a, b);
  }

  /**
   * src/log/index.rs:349-370: the incremental construction. What it builds for a valid manifest
   * is the bulk-loaded index of the same segments. It reads only pages it has written itself, so
   * whatever was collected it does not fail.
   */
  method MigrateManifest(store: ObjectStore, revision: nat, nextOffset: int, segments: seq<Segment>, now: nat)
    returns (r: Result<Root>)
    requires store.Valid()
    modifies store
    ensures store.Valid() && store.nextId >= old(store.nextId)
    ensures Grew(old(store.ever), old(store.nextId), store.ever)
    ensures store.Gone() == old(store.Gone())
    ensures r.Ok? ==> |r.value.tail| <= PAGE_ENTRIES
    ensures SegmentsOk(segments, 0) ==>
      && r.Ok?
      && r.value == EmptyRoot.(revision := revision, nextOffset := nextOffset, adoptedAt := Some(now),
                               tree := r.value.tree, tail := r.value.tail)
      && PartsSound(store.ever, r.value)
      && IndexOf(store.ever, r.value) == Bulk(segments)
      && EndOffset(r.value.tail, TreeEnd(r.value)) == EndOffset(segments, 0)
      && IndexKeys(store.ever, r.value) <= SegmentKeys(segments) + Created(old(store.ever), store.ever)
  {
    hide Adopting, Sealed, PartsSound, ObjectStore.Gone, LostPage, IndexKeys;
    ghost var sound := SegmentsOk(segments, 0);
    ghost var gone := store.Gone();
    assert gone <= store.ever.Keys by {
      store.GoneWasThere();
    }
    var root := EmptyRoot.(adoptedAt := Some(now));
    AdoptNothing(store.ever, segments, root);
    var i := 0;
    while i < |segments|
      invariant 0 <= i <= |segments|
      invariant store.Valid() && store.nextId >= old(store.nextId)
      invariant Grew(old(store.ever), old(store.nextId), store.ever)
      invariant store.Gone() == old(store.Gone())
      invariant |root.tail| <= PAGE_ENTRIES
      invariant root == EmptyRoot.(adoptedAt := Some(now), tree := root.tree, tail := root.tail)
      invariant sound ==> Adopting(old(store.ever), store.ever, segments, i, root)
    {
      ghost var before, full := store.ever, root;
      if |root.tail| == PAGE_ENTRIES {
        if sound {
          AdoptingSound(old(store.ever), before, segments, i, root);
          AdoptingKept(old(store.ever), before, segments, i, root, gone);
        }
        var sealed := SealTail(store, root);
        if sealed.Err? {
          return sealed;
        }
        root := sealed.value;
        if sound {
          AdoptSealed(old(store.ever), before, store.ever, segments, i, full, root);
        }
      }
      var s := segments[i];
      if sound {
        AdoptNext(old(store.ever), store.ever, segments, i, root);
      }
      root := root.(tail := root.tail + [s]);
      i := i + 1;
    }
    r := Ok(root.(revision := revision, nextOffset := nextOffset));
    if sound {
      Adopted(old(store.ever), store.ever, segments, root, revision, nextOffset);
    }
  }

  /** The root built from the first i segments. */
  ghost predicate Adopting(before: map<Key, Object>, after: map<Key, Object>, segments: seq<Segment>, i: nat, root: Root)
    requires i <= |segments|
  {
    && PartsSound(after, root)
    && PushAll(IndexOf(after, root), segments[i..]) == PushAll(EmptyIndex, segments)
    && EndOffset(root.tail, TreeEnd(root)) == EndOffset(segments[..i], 0)
    && TailOf(root.tail, segments, i)
    && IndexKeys(after, root) <= SegmentKeys(segments[..i]) + Created(before, after)
  }

  lemma AdoptNothing(objects: map<Key, Object>, segments: seq<Segment>, root: Root)
    requires root.startOffset == 0 && root.tree.None? && root.tail == []
    ensures Adopting(objects, objects, segments, 0, root)
  {
    assert segments[0..] == segments && segments[..0] == [];
  }

  lemma AdoptingSound(before: map<Key, Object>, after: map<Key, Object>, segments: seq<Segment>, i: nat, root: Root)
    requires i <= |segments| && Adopting(before, after, segments, i, root)
    ensures PartsSound(after, root)
  {
  }

  /** The pages of the root being built were all created after the collections. */
  lemma AdoptingKept(before: map<Key, Object>, after: map<Key, Object>, segments: seq<Segment>, i: nat, root: Root,
                     gone: set<Key>)
    requires i <= |segments| && SegmentsOk(segments, 0) && Adopting(before, after, segments, i, root) && gone <= before.Keys
    ensures PartsSound(after, root) && !LostPage(IndexKeys(after, root), gone)
  {
    hide PartsSound, SegmentsOk, IndexKeys;
    SegmentsOkPrefix(segments, i, 0);
    forall k | k in IndexKeys(after, root) && k in gone ensures k.SegmentKey? {
      RunKeys(segments[..i], 0, k);
    }
  }

  lemma AdoptSealed(before: map<Key, Object>, mid: map<Key, Object>, after: map<Key, Object>,
                    segments: seq<Segment>, i: nat, root: Root, sealed: Root)
    requires i < |segments| && Adopting(before, mid, segments, i, root) && |root.tail| == PAGE_ENTRIES
    requires Extends(before, mid) && Extends(mid, after) && Sealed(mid, root, after, sealed)
    ensures Adopting(before, after, segments, i, sealed)
  {
    var ix, rest := IndexOf(mid, root), segments[i..];
    assert Push(Seal(ix), rest[0]) == Push(ix, rest[0]);
  }

  lemma AdoptNext(before: map<Key, Object>, after: map<Key, Object>, segments: seq<Segment>, i: nat, root: Root)
    requires i < |segments| && Adopting(before, after, segments, i, root) && |root.tail| < PAGE_ENTRIES
    requires SegmentsOk(segments, 0)
    ensures Adopting(before, after, segments, i + 1, root.(tail := root.tail + [segments[i]]))
  {
    MigrateStep(segments, i, root.tail, TreeEnd(root));
    Appended(after, root, segments[i]);
    assert segments[i..][0] == segments[i] && segments[i..][1..] == segments[i + 1..];
  }

  lemma Adopted(before: map<Key, Object>, after: map<Key, Object>, segments: seq<Segment>, root: Root, revision: nat,
                nextOffset: int)
    requires Adopting(before, after, segments, |segments|, root)
    ensures var final := root.(revision := revision, nextOffset := nextOffset);
      && PartsSound(after, final)
      && IndexOf(after, final) == Bulk(segments)
      && EndOffset(final.tail, TreeEnd(final)) == EndOffset(segments, 0)
      && IndexKeys(after, final) <= SegmentKeys(segments) + Created(before, after)
  {
    assert segments[|segments|..] == [] && segments[..|segments|] == segments;
    BulkEqualsIncremental(segments);
  }

  /** The tail is the end of the segments taken so far. */
  predicate TailOf(tail: seq<Segment>, segments: seq<Segment>, i: nat)
    requires i <= |segments|
  {
    |tail| <= i && tail == segments[i - |tail|..i]
  }

  lemma MigrateStep(segments: seq<Segment>, i: nat, tail: seq<Segment>, treeEnd: int)
    requires i < |segments| && SegmentsOk(segments, 0)
    requires TailOf(tail, segments, i) && SegmentsOk(tail, treeEnd)
    requires EndOffset(tail, treeEnd) == EndOffset(segments[..i], 0)
    ensures SegmentsOk(tail + [segments[i]], treeEnd)
    ensures TailOf(tail + [segments[i]], segments, i + 1)
    ensures EndOffset(tail + [segments[i]], treeEnd) == EndOffset(segments[..i + 1], 0)
    ensures SegmentKeys(segments[..i + 1]) == SegmentKeys(segments[..i]) + {segments[i].key}
  {
    var j := i - |tail|;
    var s := segments[i];
    assert segments[j..i + 1] == tail + [s];
    SegmentsOkWindow(segments, j, i + 1, 0);
    SegmentsOkWindow(segments, j, i, 0);
    assert segments[..i + 1][..i] == segments[..i];
    RunAppend(tail, [s], treeEnd);
    RunAppend(tail, [s], EndOffset(segments[..j], 0));
    if tail == [] {
      assert tail + [s] == [s];
      SegmentsOkPrefix(segments, i + 1, 0);
    } else {
      RunFirst(tail, treeEnd);
      RunFirst(tail, EndOffset(segments[..j], 0));
    }
  }
}
