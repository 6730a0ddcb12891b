/** Bulk rebuild of an index after retention: every page is written bottom up, one level at a time. */
module IndexRebuild {
  import opened LogTypes
  import opened IndexTree
  import opened BulkLoad
  import opened ObjectStores
  import opened IndexPages
  import opened IndexWriter
  import opened IndexRoots

  /** A complete level: sound siblings over a range, and the trees they denote. */
  ghost predicate Row(objects: map<Key, Object>, pages: seq<PageRef>, level: nat, ts: seq<Tree>, from: int, to: int) {
    && AllSound(objects, pages)
    && Siblings(pages, level)
    && LoadAll(objects, pages) == ts
    && (pages == [] ==> from == to)
    && (pages != [] ==> pages[0].firstOffset == from && pages[|pages| - 1].nextOffset == to)
  }

  ghost function RowKeys(objects: map<Key, Object>, pages: seq<PageRef>): set<Key>
    requires AllSound(objects, pages)
  {
    Union(KeysAll(objects, pages))
  }

  lemma EmptyRow(objects: map<Key, Object>, level: nat, from: int)
    ensures Row(objects, [], level, [], from, from) && RowKeys(objects, []) == {}
  {
  }

  lemma RowFrame(before: map<Key, Object>, after: map<Key, Object>, pages: seq<PageRef>, level: nat, ts: seq<Tree>,
                 from: int, to: int)
    requires Row(before, pages, level, ts, from, to) && Extends(before, after)
    ensures Row(after, pages, level, ts, from, to)
    ensures RowKeys(after, pages) == RowKeys(before, pages)
  {
    AllSoundFrame(before, after, pages, level + 1);
  }

  /** One more page at the right end of a level whose last page is full. */
  lemma RowSnoc(objects: map<Key, Object>, pages: seq<PageRef>, level: nat, ts: seq<Tree>, from: int, to: int, p: PageRef)
    requires Row(objects, pages, level, ts, from, to)
    requires pages != [] ==> RefFull(pages[|pages| - 1])
    requires Sound(objects, p) && p.level == level && p.firstOffset == to && p.key !in PageKeys(pages)
    ensures Row(objects, pages + [p], level, ts + [Load(objects, p)], from, p.nextOffset)
    ensures RowKeys(objects, pages + [p]) == RowKeys(objects, pages) + Keys(objects, p)
  {
    SiblingsSnoc(pages, p, level);
    LoadExtended(objects, pages, p);
    UnionSnoc(KeysAll(objects, pages), Keys(objects, p));
  }

  /** src/log/index.rs:382-393: the size of the new graph, counted before anything is written. */
  method PlannedObjects(segments: nat, sealed: nat) returns (count: nat)
    ensures count == segments + PageTotal(sealed / PAGE_ENTRIES)
  {
    count := segments;
    var levelCount: nat := sealed / PAGE_ENTRIES;
    while levelCount != 0
      invariant count + PageTotal(levelCount) == segments + PageTotal(sealed / PAGE_ENTRIES)
      decreases levelCount
    {
      count := count + levelCount;
      levelCount := if levelCount == 1 then 0 else (levelCount + PAGE_ENTRIES - 1) / PAGE_ENTRIES;
    }
  }

  // -------------------------------------------------------------- leaves

  /** Leaves written for the first i segments. */
  ghost predicate LeafRow(before: map<Key, Object>, after: map<Key, Object>, segments: seq<Segment>, start: int,
                          i: nat, pages: seq<PageRef>)
    requires |segments| % PAGE_ENTRIES == 0 && i % PAGE_ENTRIES == 0 && i <= |segments|
  {
    && AllSound(after, pages)
    && Row(after, pages, 0, LoadAll(after, pages), start, EndOffset(segments[..i], start))
    && LoadAll(after, pages) + Leaves(segments[i..]) == Leaves(segments)
    && (pages != [] ==> RefFull(pages[|pages| - 1]))
    && (forall k :: 0 <= k < |pages| ==> pages[k].key in after)
    && RowKeys(after, pages) <= SegmentKeys(segments[..i]) + Created(before, after)
  }

  /** src/log/index.rs:397-410 */
  method WriteLeaves(store: ObjectStore, segments: seq<Segment>, ghost start: int) returns (r: Result<seq<PageRef>>)
    requires store.Valid() && |segments| % PAGE_ENTRIES == 0
    modifies store
    ensures store.Valid() && store.nextId >= old(store.nextId)
    ensures Grew(old(store.ever), old(store.nextId), store.ever)
    ensures store.Gone() == old(store.Gone())
    ensures 0 <= start && SegmentsOk(segments, start) ==>
      && r.Ok?
      && Row(store.ever, r.value, 0, Leaves(segments), start, EndOffset(segments, start))
      && RowKeys(store.ever, r.value) <= SegmentKeys(segments) + Created(old(store.ever), store.ever)
      && store.nextId == old(store.nextId) + |segments| / PAGE_ENTRIES
  {
    hide LeafRow, SegmentsOk, Row, Describe, Writable, ObjectStore.Gone;
    ghost var sound := 0 <= start && SegmentsOk(segments, start);
    var pages := [];
    var i := 0;
    NoLeaves(store.ever, segments, start);
    while i < |segments|
      invariant 0 <= i <= |segments| && i % PAGE_ENTRIES == 0
      invariant store.Valid() && store.nextId >= old(store.nextId)
      invariant Grew(old(store.ever), old(store.nextId), store.ever)
      invariant store.Gone() == old(store.Gone())
      invariant sound ==> LeafRow(old(store.ever), store.ever, segments, start, i, pages)
      invariant sound ==> store.nextId == old(store.nextId) + i / PAGE_ENTRIES
    {
      ghost var before, id := store.ever, store.nextId;
      var chunk := segments[i..i + PAGE_ENTRIES];
      if sound {
        NextLeafWritable(segments, start, i, IndexKey(id));
      }
      var page := WritePage(store, LeafPage(chunk));
      if page.Err? {
        return Err(page.error);
      }
      if sound {
        NextLeaf(old(store.ever), before, store.ever, segments, start, i, pages, page.value);
      }
      pages := pages + [page.value];
      i := i + PAGE_ENTRIES;
    }
    if sound {
      AllLeaves(old(store.ever), store.ever, segments, start, pages);
    }
    r := Ok(pages);
  }

  lemma NoLeaves(objects: map<Key, Object>, segments: seq<Segment>, start: int)
    requires |segments| % PAGE_ENTRIES == 0
    ensures LeafRow(objects, objects, segments, start, 0, [])
  {
    assert segments[0..] == segments && segments[..0] == [];
    EmptyRow(objects, 0, start);
    assert LoadAll(objects, []) == [];
  }

  lemma NextLeafWritable(segments: seq<Segment>, start: int, i: nat, key: Key)
    requires 0 <= start && SegmentsOk(segments, start) && i + PAGE_ENTRIES <= |segments| && key.IndexKey?
    ensures Writable(LeafPage(segments[i..i + PAGE_ENTRIES]))
    ensures SegmentsOk(segments[i..i + PAGE_ENTRIES], EndOffset(segments[..i], start))
    ensures 0 <= EndOffset(segments[..i], start)
  {
    SegmentsOkWindow(segments, i, i + PAGE_ENTRIES, start);
    SegmentsOkPrefix(segments, i, start);
    RunRises(segments[..i], start);
    LeafSound(map[], key, segments[i..i + PAGE_ENTRIES], EndOffset(segments[..i], start));
  }

  lemma NextLeaf(first: map<Key, Object>, before: map<Key, Object>, after: map<Key, Object>, segments: seq<Segment>,
                 start: int, i: nat, pages: seq<PageRef>, p: PageRef)
    requires |segments| % PAGE_ENTRIES == 0 && i % PAGE_ENTRIES == 0 && i < |segments|
    requires 0 <= start && SegmentsOk(segments, start)
    requires LeafRow(first, before, segments, start, i, pages) && Extends(first, before)
    requires p.key.IndexKey? && p.key !in before
    requires p == RefTo(p.key, Describe(LeafPage(segments[i..i + PAGE_ENTRIES])))
    requires after == before[p.key := IndexObject(LeafPage(segments[i..i + PAGE_ENTRIES]))]
    ensures LeafRow(first, after, segments, start, i + PAGE_ENTRIES, pages + [p])
  {
    hide SegmentsOk, Describe, RefTo, Sound, Row, Load, Keys, RefFull, Leaves, EndOffset, SegmentKeys, RowKeys;
    var j := i + PAGE_ENTRIES;
    var chunk := segments[i..j];
    NextLeafWritable(segments, start, i, p.key);
    LeafSound(after, p.key, chunk, EndOffset(segments[..i], start));
    SegmentsOkWindow(segments, i, j, start);
    LeafJoins(before, after, pages, start, EndOffset(segments[..i], start), p);
    LeafSegments(segments, i);
    LoadExtended(after, pages, p);
    KeptTrees(before, after, pages, start, EndOffset(segments[..i], start));
  }

  lemma KeptTrees(before: map<Key, Object>, after: map<Key, Object>, pages: seq<PageRef>, from: int, to: int)
    requires AllSound(before, pages) && Row(before, pages, 0, LoadAll(before, pages), from, to) && Extends(before, after)
    ensures AllSound(after, pages) && LoadAll(after, pages) == LoadAll(before, pages)
  {
    RowFrame(before, after, pages, 0, LoadAll(before, pages), from, to);
  }

  /** A fresh leaf at the end of the row. */
  lemma LeafJoins(before: map<Key, Object>, after: map<Key, Object>, pages: seq<PageRef>, from: int, to: int, p: PageRef)
    requires AllSound(before, pages) && Row(before, pages, 0, LoadAll(before, pages), from, to) && Extends(before, after)
    requires pages != [] ==> RefFull(pages[|pages| - 1])
    requires forall k :: 0 <= k < |pages| ==> pages[k].key in before
    requires p.key !in before && Sound(after, p) && p.level == 0 && p.firstOffset == to
    ensures AllSound(after, pages + [p]) && AllSound(after, pages)
    ensures Row(after, pages + [p], 0, LoadAll(after, pages + [p]), from, p.nextOffset)
    ensures RowKeys(after, pages + [p]) == RowKeys(before, pages) + Keys(after, p)
  {
    hide Sound, Load, Keys, RefFull, Siblings;
    var ts := LoadAll(before, pages);
    RowFrame(before, after, pages, 0, ts, from, to);
    RowSnoc(after, pages, 0, ts, from, to, p);
  }

  lemma LeafSegments(segments: seq<Segment>, i: nat)
    requires |segments| % PAGE_ENTRIES == 0 && i % PAGE_ENTRIES == 0 && i + PAGE_ENTRIES <= |segments|
    ensures var chunk := segments[i..i + PAGE_ENTRIES];
      && Leaves(segments[i..]) == [Leaf(chunk)] + Leaves(segments[i + PAGE_ENTRIES..])
      && SegmentKeys(segments[..i + PAGE_ENTRIES]) == SegmentKeys(segments[..i]) + SegmentKeys(chunk)
  {
    var j := i + PAGE_ENTRIES;
    var chunk := segments[i..j];
    assert segments[..j] == segments[..i] + chunk;
    SegmentKeysAppend(segments[..i], chunk);
    assert segments[i..][..PAGE_ENTRIES] == chunk && segments[i..][PAGE_ENTRIES..] == segments[j..];
  }

  lemma AllLeaves(first: map<Key, Object>, after: map<Key, Object>, segments: seq<Segment>, start: int,
                  pages: seq<PageRef>)
    requires |segments| % PAGE_ENTRIES == 0
    requires LeafRow(first, after, segments, start, |segments|, pages)
    ensures Row(after, pages, 0, Leaves(segments), start, EndOffset(segments, start))
    ensures RowKeys(after, pages) <= SegmentKeys(segments) + Created(first, after)
  {
    assert segments[|segments|..] == [] && segments[..|segments|] == segments;
  }

  // -------------------------------------------------------------- parents

  /** Parents written for the first i pages of a level. */
  ghost predicate ParentRow(before: map<Key, Object>, after: map<Key, Object>, pages: seq<PageRef>, level: nat,
                            ts: seq<Tree>, from: int, i: nat, parents: seq<PageRef>)
    requires i <= |pages| == |ts| && AllSound(before, pages)
  {
    && AllSound(after, parents)
    && Row(after, parents, level + 1, LoadAll(after, parents), from, if i == 0 then from else pages[i - 1].nextOffset)
    && LoadAll(after, parents) + Parents(ts[i..]) == Parents(ts)
    && (i < |pages| && parents != [] ==> RefFull(parents[|parents| - 1]))
    && (forall k :: 0 <= k < |parents| ==> parents[k].key in after)
    && ParentKeys(before, after, pages, parents)
  }

  ghost predicate ParentKeys(before: map<Key, Object>, after: map<Key, Object>, pages: seq<PageRef>,
                             parents: seq<PageRef>)
    requires AllSound(before, pages) && AllSound(after, parents)
  {
    RowKeys(after, parents) <= RowKeys(before, pages) + Created(before, after)
  }

  lemma ParentKeysSnoc(start: map<Key, Object>, before: map<Key, Object>, after: map<Key, Object>, pages: seq<PageRef>,
                       chunk: seq<PageRef>, parents: seq<PageRef>, p: PageRef)
    requires AllSound(start, pages) && AllSound(before, parents) && ParentKeys(start, before, pages, parents)
    requires AllSound(after, parents) && RowKeys(after, parents) == RowKeys(before, parents)
    requires AllSound(start, chunk) && RowKeys(start, chunk) <= RowKeys(start, pages)
    requires Sound(after, p) && Keys(after, p) == {p.key} + RowKeys(start, chunk)
    requires AllSound(after, parents + [p])
    requires RowKeys(after, parents + [p]) == RowKeys(after, parents) + Keys(after, p)
    requires Extends(start, before) && Extends(before, after) && p.key in after && p.key !in before
    ensures ParentKeys(start, after, pages, parents + [p])
  {
    hide Sound, AllSound, RowKeys;
  }

  /** src/log/index.rs:411-424, one round of the outer loop. */
  method WriteParents(store: ObjectStore, pages: seq<PageRef>, ghost level: nat, ghost ts: seq<Tree>, ghost from: int,
                      ghost to: int)
    returns (r: Result<seq<PageRef>>)
    requires store.Valid() && |pages| > 1
    modifies store
    ensures store.Valid() && store.nextId >= old(store.nextId)
    ensures Grew(old(store.ever), old(store.nextId), store.ever)
    ensures store.Gone() == old(store.Gone())
    ensures r.Ok? ==> |r.value| == (|pages| + PAGE_ENTRIES - 1) / PAGE_ENTRIES
    ensures Row(old(store.ever), pages, level, ts, from, to) ==>
      && r.Ok?
      && Row(store.ever, r.value, level + 1, Parents(ts), from, to)
      && RowKeys(store.ever, r.value) <= RowKeys(old(store.ever), pages) + Created(old(store.ever), store.ever)
      && store.nextId == old(store.nextId) + |r.value|
  {
    hide ParentRow, Row, Describe, Writable, ObjectStore.Gone, Grew, RowKeys, Parents;
    GrewNone(store.ever, store.nextId);
    ghost var start := store.ever;
    ghost var sound := Row(start, pages, level, ts, from, to);
    if sound {
      NoParents(start, pages, level, ts, from, to);
    }
    var parents := [];
    var i := 0;
    while i < |pages|
      invariant 0 <= i <= |pages|
      invariant i < |pages| ==> i == |parents| * PAGE_ENTRIES
      invariant i == |pages| ==> |parents| == (i + PAGE_ENTRIES - 1) / PAGE_ENTRIES
      invariant store.Valid() && store.nextId >= old(store.nextId)
      invariant Grew(start, old(store.nextId), store.ever)
      invariant store.Gone() == old(store.Gone())
      invariant sound ==> |ts| == |pages| && AllSound(start, pages)
      invariant sound ==> ParentRow(start, store.ever, pages, level, ts, from, i, parents)
      invariant sound ==> store.nextId == old(store.nextId) + |parents|
    {
      ghost var before := store.ever;
      var j := if i + PAGE_ENTRIES < |pages| then i + PAGE_ENTRIES else |pages|;
      var chunk := pages[i..j];
      if sound {
        ChunkOk(start, pages, level, ts, from, to, i, j);
      }
      var page := WritePage(store, BranchPage(chunk));
      if page.Err? {
        return Err(page.error);
      }
      GrewOne(start, old(store.nextId), before, page.value.key, IndexObject(BranchPage(chunk)));
      if sound {
        NextParent(start, before, store.ever, pages, level, ts, from, to, i, j, parents, page.value);
      }
      parents := parents + [page.value];
      i := j;
    }
    if sound {
      AllParents(start, store.ever, pages, level, ts, from, to, parents);
    }
    r := Ok(parents);
  }

  lemma NoParents(objects: map<Key, Object>, pages: seq<PageRef>, level: nat, ts: seq<Tree>, from: int, to: int)
    requires Row(objects, pages, level, ts, from, to)
    ensures |ts| == |pages| && AllSound(objects, pages)
    ensures ParentRow(objects, objects, pages, level, ts, from, 0, [])
  {
    assert ts[0..] == ts;
    EmptyRow(objects, level + 1, from);
    assert LoadAll(objects, []) == [];
  }

  /** A level with two pages is below level 10: a full level-10 page cannot exist. */
  lemma RowLevel(objects: map<Key, Object>, pages: seq<PageRef>, level: nat, ts: seq<Tree>, from: int, to: int)
    requires Row(objects, pages, level, ts, from, to) && |pages| > 1
    ensures level < MAX_LEVEL
  {
    assert RefFull(pages[0]) && RefValid(pages[0]) && pages[0].level == level;
  }

  lemma ChunkSiblings(pages: seq<PageRef>, level: nat, i: nat, j: nat)
    requires Siblings(pages, level) && i <= j <= |pages|
    ensures Siblings(pages[i..j], level)
  {
    var c := pages[i..j];
    assert forall k :: 0 <= k < |c| ==> c[k] == pages[i + k];
    forall k | 0 < k < |c| ensures c[k].firstOffset == c[k - 1].nextOffset {
      assert pages[i + k].firstOffset == pages[i + k - 1].nextOffset;
    }
  }

  lemma ChunkOk(objects: map<Key, Object>, pages: seq<PageRef>, level: nat, ts: seq<Tree>, from: int, to: int,
                i: nat, j: nat)
    requires Row(objects, pages, level, ts, from, to) && |pages| > 1 && i < j <= |pages| && j - i <= PAGE_ENTRIES
    ensures ChildrenOk(pages[i..j]) && AllSound(objects, pages[i..j]) && Writable(BranchPage(pages[i..j]))
    ensures LoadAll(objects, pages[i..j]) == ts[i..j]
    ensures pages[i].firstOffset == if i == 0 then from else pages[i - 1].nextOffset
    ensures pages[i].level == level
  {
    hide Sound, RefValid;
    RowLevel(objects, pages, level, ts, from, to);
    ChunkSiblings(pages, level, i, j);
    assert forall k :: 0 <= k < j - i ==> pages[i..j][k] == pages[i + k];
  }

  lemma ChunkKeys(objects: map<Key, Object>, pages: seq<PageRef>, i: nat, j: nat)
    requires AllSound(objects, pages) && i <= j <= |pages|
    ensures AllSound(objects, pages[i..j])
    ensures RowKeys(objects, pages[i..j]) <= RowKeys(objects, pages)
  {
    hide Sound, Keys, Union;
    var c := pages[i..j];
    assert forall k :: 0 <= k < |c| ==> c[k] == pages[i + k];
    forall key | key in RowKeys(objects, c) ensures key in RowKeys(objects, pages) {
      UnionHas(KeysAll(objects, c), key);
      var k :| 0 <= k < |c| && key in KeysAll(objects, c)[k];
      assert KeysAll(objects, pages)[i + k] == KeysAll(objects, c)[k];
      UnionHas(KeysAll(objects, pages), key);
    }
  }

  /** 64 full children make a full page. */
  lemma {:induction false} FullCount(children: seq<PageRef>, level: nat)
    requires forall k :: 0 <= k < |children| ==> RefFull(children[k]) && children[k].level == level
    requires level < MAX_LEVEL
    ensures CountAll(children) == |children| * Capacity(level)
  {
    if children != [] {
      FullCount(children[..|children| - 1], level);
      assert (|children| - 1) * Capacity(level) + Capacity(level) == |children| * Capacity(level);
    }
  }

  lemma FullPage(children: seq<PageRef>, key: Key)
    requires ChildrenOk(children) && |children| == PAGE_ENTRIES && RefFull(children[|children| - 1])
    requires key.IndexKey?
    ensures RefFull(RefTo(key, Describe(BranchPage(children))))
  {
    var level := children[0].level;
    FullCount(children, level);
    CountsFit(children);
    CapacityTen();
    assert Capacity(level + 1) == 64 * Capacity(level);
  }

  /** Parents of a prefix of whole groups, then parents of the rest. */
  lemma ParentsOfGroup(ts: seq<Tree>, i: nat, j: nat)
    requires i < j <= |ts| && ((j == |ts| && j - i <= PAGE_ENTRIES) || j == i + PAGE_ENTRIES)
    ensures Parents(ts[i..]) == [Branch(ts[i..j])] + Parents(ts[j..])
  {
    var rest := ts[i..];
    assert rest[..j - i] == ts[i..j] && rest[j - i..] == ts[j..];
    if j == |ts| {
      assert rest == ts[i..j];
    }
  }

  lemma NextParent(start: map<Key, Object>, before: map<Key, Object>, after: map<Key, Object>, pages: seq<PageRef>,
                   level: nat, ts: seq<Tree>, from: int, to: int, i: nat, j: nat, parents: seq<PageRef>, p: PageRef)
    requires |pages| > 1 && i < j <= |pages|
    requires (j == |pages| && j - i <= PAGE_ENTRIES) || j == i + PAGE_ENTRIES
    requires Row(start, pages, level, ts, from, to) && |ts| == |pages|
    requires Extends(start, before) && ParentRow(start, before, pages, level, ts, from, i, parents)
    requires p.key.IndexKey? && p.key !in before && p == RefTo(p.key, Describe(BranchPage(pages[i..j])))
    requires after == before[p.key := IndexObject(BranchPage(pages[i..j]))]
    ensures ParentRow(start, after, pages, level, ts, from, j, parents + [p])
  {
    hide Sound, Siblings, RefValid, SegmentsOk, ChildrenOk, RefFull, Load, CountAll, ParentKeys, RowKeys, Parents;
    var chunk := pages[i..j];
    ChunkOk(start, pages, level, ts, from, to, i, j);
    ChunkKeys(start, pages, i, j);
    ParentSound(start, after, chunk, level, ts[i..j], p.key);
    var end := if i == 0 then from else pages[i - 1].nextOffset;
    RowFrame(before, after, parents, level + 1, LoadAll(before, parents), from, end);
    RowSnoc(after, parents, level + 1, LoadAll(after, parents), from, end, p);
    LoadExtended(after, parents, p);
    ParentKeysSnoc(start, before, after, pages, chunk, parents, p);
    ParentsOfGroup(ts, i, j);
    if j < |pages| {
      RowFull(start, pages, level, ts, from, to, j - 1);
      FullPage(chunk, p.key);
    }
  }

  lemma RowFull(objects: map<Key, Object>, pages: seq<PageRef>, level: nat, ts: seq<Tree>, from: int, to: int, k: nat)
    requires Row(objects, pages, level, ts, from, to) && k + 1 < |pages|
    ensures RefFull(pages[k])
  {
  }

  lemma ParentSound(start: map<Key, Object>, after: map<Key, Object>, chunk: seq<PageRef>, level: nat, ts: seq<Tree>,
                    key: Key)
    requires ChildrenOk(chunk) && AllSound(start, chunk) && LoadAll(start, chunk) == ts && chunk[0].level == level
    requires Extends(start, after) && key.IndexKey? && key in after && after[key] == IndexObject(BranchPage(chunk))
    ensures var p := RefTo(key, Describe(BranchPage(chunk)));
      && Sound(after, p) && Load(after, p) == Branch(ts) && p.level == level + 1
      && p.firstOffset == chunk[0].firstOffset && p.nextOffset == chunk[|chunk| - 1].nextOffset
      && Keys(after, p) == {key} + RowKeys(start, chunk)
  {
    AllSoundFrame(start, after, chunk, level + 1);
    BranchSound(after, chunk, key);
  }

  lemma AllParents(start: map<Key, Object>, after: map<Key, Object>, pages: seq<PageRef>, level: nat, ts: seq<Tree>,
                   from: int, to: int, parents: seq<PageRef>)
    requires Row(start, pages, level, ts, from, to) && |ts| == |pages| > 0
    requires ParentRow(start, after, pages, level, ts, from, |pages|, parents)
    ensures Row(after, parents, level + 1, Parents(ts), from, to)
    ensures RowKeys(after, parents) <= RowKeys(start, pages) + Created(start, after)
  {
    assert ts[|pages|..] == [];
  }

  // -------------------------------------------------------------- the whole index

  /** The row the outer loop has reached, on the way from the leaves to the one top page. */
  ghost predicate Climbing(before: map<Key, Object>, after: map<Key, Object>, segments: seq<Segment>, start: int,
                           pages: seq<PageRef>, level: nat, ts: seq<Tree>)
    requires |segments| % PAGE_ENTRIES == 0
  {
    && Row(after, pages, level, ts, start, EndOffset(segments, start))
    && Tower(ts, level) == Tower(Leaves(segments), 0)
    && RowKeys(after, pages) <= SegmentKeys(segments) + Created(before, after)
  }

  /** src/log/index.rs:397-424: all pages above the sealed segments. */
  method BuildTree(store: ObjectStore, segments: seq<Segment>, ghost start: int) returns (r: Result<Option<PageRef>>)
    requires store.Valid() && |segments| % PAGE_ENTRIES == 0
    modifies store
    ensures store.Valid() && store.nextId >= old(store.nextId)
    ensures Grew(old(store.ever), old(store.nextId), store.ever)
    ensures store.Gone() == old(store.Gone())
    ensures 0 <= start && SegmentsOk(segments, start) ==>
      && r.Ok?
      && Built(old(store.ever), store.ever, segments, start, r.value)
      && store.nextId == old(store.nextId) + PageTotal(|segments| / PAGE_ENTRIES)
  {
    hide Climbing, Row, SegmentsOk, ObjectStore.Gone;
    ghost var before := store.ever;
    ghost var sound := 0 <= start && SegmentsOk(segments, start);
    var leaves := WriteLeaves(store, segments, start);
    if leaves.Err? {
      return Err(leaves.error);
    }
    var pages := leaves.value;
    ghost var level, ts := 0, Leaves(segments);
    if sound {
      LeavesCorrect(segments);
      StartClimb(before, store.ever, segments, start, pages);
    }
    while |pages| > 1
      invariant store.Valid() && store.nextId >= old(store.nextId)
      invariant Grew(before, old(store.nextId), store.ever)
      invariant store.Gone() == old(store.Gone())
      invariant sound ==> Climbing(before, store.ever, segments, start, pages, level, ts)
      invariant sound && |pages| > 1 ==>
        store.nextId + PageTotal(|pages|) == old(store.nextId) + |pages| + PageTotal(|segments| / PAGE_ENTRIES)
      invariant sound && |pages| <= 1 ==> store.nextId == old(store.nextId) + PageTotal(|segments| / PAGE_ENTRIES)
      decreases |pages|
    {
      ghost var mid := store.ever;
      if sound {
        ClimbingRow(before, mid, segments, start, pages, level, ts);
      }
      var parents := WriteParents(store, pages, level, ts, start, EndOffset(segments, start));
      if parents.Err? {
        return Err(parents.error);
      }
      if sound {
        Climb(before, mid, store.ever, segments, start, pages, level, ts, parents.value);
      }
      pages, level, ts := parents.value, level + 1, Parents(ts);
    }
    if sound {
      Climbed(before, store.ever, segments, start, pages, level, ts);
    }
    r := Ok(if pages == [] then None else Some(pages[|pages| - 1]));
  }

  /** The reference returned by a rebuild, against the bulk-loaded tree. */
  ghost predicate Built(before: map<Key, Object>, after: map<Key, Object>, segments: seq<Segment>, start: int,
                        top: Option<PageRef>)
    requires |segments| % PAGE_ENTRIES == 0
  {
    match top
    case None => segments == [] && Tower(Leaves(segments), 0) == (None, 0)
    case Some(p) =>
      && Sound(after, p)
      && Tower(Leaves(segments), 0) == (Some(Load(after, p)), p.level)
      && p.firstOffset == start && p.nextOffset == EndOffset(segments, start)
      && Keys(after, p) <= SegmentKeys(segments) + Created(before, after)
  }

  lemma StartClimb(before: map<Key, Object>, after: map<Key, Object>, segments: seq<Segment>, start: int,
                   pages: seq<PageRef>)
    requires |segments| % PAGE_ENTRIES == 0
    requires Row(after, pages, 0, Leaves(segments), start, EndOffset(segments, start))
    requires RowKeys(after, pages) <= SegmentKeys(segments) + Created(before, after)
    ensures Climbing(before, after, segments, start, pages, 0, Leaves(segments))
    ensures |pages| == |segments| / PAGE_ENTRIES
  {
    LeavesCorrect(segments);
  }

  lemma ClimbingRow(before: map<Key, Object>, after: map<Key, Object>, segments: seq<Segment>, start: int,
                    pages: seq<PageRef>, level: nat, ts: seq<Tree>)
    requires |segments| % PAGE_ENTRIES == 0 && Climbing(before, after, segments, start, pages, level, ts)
    ensures Row(after, pages, level, ts, start, EndOffset(segments, start))
  {
  }

  lemma Climb(before: map<Key, Object>, mid: map<Key, Object>, after: map<Key, Object>, segments: seq<Segment>,
              start: int, pages: seq<PageRef>, level: nat, ts: seq<Tree>, parents: seq<PageRef>)
    requires |segments| % PAGE_ENTRIES == 0 && Climbing(before, mid, segments, start, pages, level, ts)
    requires |pages| > 1 && Extends(before, mid) && Extends(mid, after)
    requires Row(after, parents, level + 1, Parents(ts), start, EndOffset(segments, start))
    requires RowKeys(after, parents) <= RowKeys(mid, pages) + Created(mid, after)
    ensures Climbing(before, after, segments, start, parents, level + 1, Parents(ts))
  {
    hide Siblings, Sound, AllSound, RowKeys;
  }

  lemma Climbed(before: map<Key, Object>, after: map<Key, Object>, segments: seq<Segment>, start: int,
                pages: seq<PageRef>, level: nat, ts: seq<Tree>)
    requires |segments| % PAGE_ENTRIES == 0 && Climbing(before, after, segments, start, pages, level, ts)
    requires |pages| <= 1
    ensures Built(before, after, segments, start, if pages == [] then None else Some(pages[|pages| - 1]))
  {
    LeavesCorrect(segments);
    TowerCorrect(Leaves(segments), 0);
    if pages != [] {
      UnionSnoc([], Keys(after, pages[0]));
      assert KeysAll(after, pages) == [] + [Keys(after, pages[0])];
    }
  }

  /**
   * src/log/index.rs:372-432. A rebuild of valid segments succeeds exactly within the object
   * budget, writes exactly the pages it counted, and gives the bulk-loaded index.
   */
  method RebuildIndex(store: ObjectStore, segments: seq<Segment>, startOffset: int, nextOffset: int, maximum: nat)
    returns (r: Result<Root>)
    requires store.Valid()
    modifies store
    ensures store.Valid() && store.nextId >= old(store.nextId)
    ensures Grew(old(store.ever), old(store.nextId), store.ever)
    ensures store.Gone() == old(store.Gone())
    ensures 0 <= startOffset <= I64_MAX && SegmentsOk(segments, startOffset) ==>
      var planned := |segments| + PageTotal(SealedLength(|segments|) / PAGE_ENTRIES);
      && (r.Ok? <==> planned <= maximum)
      && (r.Err? ==> r.error == MaintenanceBudget && store.objects == old(store.objects) && store.ever == old(store.ever))
      && (r.Ok? ==> Rebuilt(old(store.ever), store.ever, segments, startOffset, nextOffset, r.value))
      && (r.Ok? ==> store.nextId == old(store.nextId) + (planned - |segments|))
  {
    ghost var before := store.ever;
    var sealed := SealedLength(|segments|);
    var count := PlannedObjects(|segments|, sealed);
    if count > maximum {
      return Err(MaintenanceBudget);
    }
    if 0 <= startOffset <= I64_MAX && SegmentsOk(segments, startOffset) {
      SegmentsOkPrefix(segments, sealed, startOffset);
    }
    var tree := BuildTree(store, segments[..sealed], startOffset);
    if tree.Err? {
      return Err(tree.error);
    }
    var root := EmptyRoot.(startOffset := startOffset, nextOffset := nextOffset, tree := tree.value,
                           tail := segments[sealed..]);
    if 0 <= startOffset <= I64_MAX && SegmentsOk(segments, startOffset) {
      RebuiltRoot(before, store.ever, segments, startOffset, nextOffset, root);
    }
    r := Ok(root);
  }

  ghost predicate Rebuilt(before: map<Key, Object>, after: map<Key, Object>, segments: seq<Segment>, startOffset: int,
                          nextOffset: int, root: Root)
  {
    && root == EmptyRoot.(startOffset := startOffset, nextOffset := nextOffset, tree := root.tree, tail := root.tail)
    && PartsSound(after, root)
    && IndexOf(after, root) == Bulk(segments)
    && EndOffset(root.tail, TreeEnd(root)) == EndOffset(segments, startOffset)
    && IndexKeys(after, root) <= SegmentKeys(segments) + Created(before, after)
  }

  lemma RebuiltRoot(before: map<Key, Object>, after: map<Key, Object>, segments: seq<Segment>, startOffset: int,
                    nextOffset: int, root: Root)
    requires 0 <= startOffset <= I64_MAX && SegmentsOk(segments, startOffset)
    requires var sealed := SealedLength(|segments|);
      && root == EmptyRoot.(startOffset := startOffset, nextOffset := nextOffset, tree := root.tree,
                            tail := segments[sealed..])
      && Built(before, after, segments[..sealed], startOffset, root.tree)
    ensures Rebuilt(before, after, segments, startOffset, nextOffset, root)
  {
    hide Sound, Tower, Leaves, Run, DistinctObjects;
    var sealed := SealedLength(|segments|);
    var front, tail := segments[..sealed], segments[sealed..];
    assert front + tail == segments && tail == segments[sealed..|segments|] && segments[..|segments|] == segments;
    SegmentsOkWindow(segments, sealed, |segments|, startOffset);
    SegmentKeysAppend(front, tail);
    assert TreeEnd(root) == EndOffset(front, startOffset);
  }
}
