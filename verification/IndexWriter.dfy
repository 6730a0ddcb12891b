/** Growing the index in the store: right-edge insertion, sealing the tail, and bulk rebuild. */
module IndexWriter {
  import opened LogTypes
  import opened IndexTree
  import opened BulkLoad
  import opened ObjectStores
  import opened IndexPages

  // -------------------------------------------------------------- frames

  /** Only fresh keys were added. */
  ghost predicate Grew(before: map<Key, Object>, low: nat, after: map<Key, Object>) {
    && Extends(before, after)
    && forall k :: k in after && k !in before ==> k.id >= low
  }

  lemma GrewThen(a: map<Key, Object>, low: nat, b: map<Key, Object>, mid: nat, c: map<Key, Object>)
    requires Grew(a, low, b) && Grew(b, mid, c) && low <= mid
    ensures Grew(a, low, c) && Extends(b, c)
  {
  }

  lemma GrewNone(start: map<Key, Object>, low: nat)
    ensures Grew(start, low, start)
  {
  }

  lemma GrewOne(start: map<Key, Object>, low: nat, before: map<Key, Object>, k: Key, body: Object)
    requires Grew(start, low, before) && k !in before && k.id >= low
    ensures Grew(start, low, before[k := body])
    ensures Extends(start, before)
  {
  }

  /** A fresh index key cannot be reached from what was there before. */
  lemma FreshUnreached(objects: map<Key, Object>, r: PageRef, id: nat)
    requires Sound(objects, r)
    requires forall k :: k in objects ==> k.id < id
    ensures forall n :: n >= id ==> IndexKey(n) !in Keys(objects, r)
  {
    SoundShaped(objects, r);
    forall n | n >= id ensures IndexKey(n) !in Keys(objects, r) {
      KeysPages(objects, r, IndexKey(n));
      RunKeys(Flatten(Load(objects, r)), r.firstOffset, IndexKey(n));
    }
  }

  // -------------------------------------------------------------- one page

  ghost predicate Writable(page: IndexPage) {
    match page
    case LeafPage(s) =>
      s != [] && SegmentsOk(s, s[0].baseOffset) && RefValid(RefTo(IndexKey(0), Describe(page)))
    case BranchPage(c) => ChildrenOk(c)
  }

  /** src/log/index.rs:164-208 */
  method WritePage(store: ObjectStore, page: IndexPage) returns (r: Result<PageRef>)
    requires store.Valid()
    modifies store
    ensures store.Valid()
    ensures r.Ok? <==> Writable(page)
    ensures r.Ok? ==>
      && r.value == RefTo(IndexKey(old(store.nextId)), Describe(page))
      && store.nextId == old(store.nextId) + 1
      && store.objects == old(store.objects)[r.value.key := IndexObject(page)]
      && store.ever == old(store.ever)[r.value.key := IndexObject(page)]
    ensures r.Err? ==> store.objects == old(store.objects) && store.ever == old(store.ever) && store.nextId >= old(store.nextId)
    ensures store.Gone() == old(store.Gone())
  {
    var summary: Summary;
    match page {
      case LeafPage(segments) =>
        if segments == [] {
          return Err(Invalid);
        }
        var end := ValidateSegments(segments, segments[0].baseOffset);
        if end.Err? {
          return Err(end.error);
        }
        summary := Summary(segments[0].baseOffset, end.value, |segments|, 0);
      case BranchPage(children) =>
        var checked := ValidateChildren(children);
        if checked.Err? {
          return Err(checked.error);
        }
        summary := checked.value;
        BranchRefValid(children, IndexKey(store.nextId));
    }
    var id := store.FreshId();
    var reference := RefTo(IndexKey(id), summary);
    var valid := CheckReference(reference);
    if !valid {
      return Err(Invalid);
    }
    var put := store.PutCreate(reference.key, IndexObject(page));
    r := Ok(reference);
  }

  /** What a checked read of a page finds, on any contents of the store. */
  ghost function PageIn(objects: map<Key, Object>, r: PageRef): Result<IndexPage> {
    if Holds(objects, r) then Ok(objects[r.key].page)
    else Err(if RefValid(r) && r.key !in objects then NotFound else Invalid)
  }

  /** A page that was ever valid is read as it was, or is gone. */
  lemma PageGone(objects: map<Key, Object>, ever: map<Key, Object>, r: PageRef)
    requires Extends(objects, ever) && Holds(ever, r)
    ensures PageIn(objects, r) == if r.key in objects then PageIn(ever, r) else Err(NotFound)
    ensures PageIn(objects, r).Err? ==> r.key in ever.Keys - objects.Keys
  {
  }

  lemma SamePage(objects: map<Key, Object>, ever: map<Key, Object>, r: PageRef)
    requires Extends(objects, ever) && PageIn(objects, r).Ok?
    ensures r.key in ever && objects[r.key] == ever[r.key] && PageIn(ever, r) == PageIn(objects, r)
  {
  }

  lemma TreeHolds(objects: map<Key, Object>, r: PageRef)
    requires Sound(objects, r)
    ensures Holds(objects, r)
  {
  }

  /** src/log/index.rs:210-264 */
  method ReadPage(store: ObjectStore, reference: PageRef) returns (r: Result<IndexPage>)
    modifies store`gets
    ensures r == PageIn(store.objects, reference)
    ensures store.gets <= old(store.gets) + 1
    ensures store.Valid() && Holds(store.ever, reference) && r.Err? ==>
      r.error == NotFound && reference.key in store.Gone()
  {
    if store.Valid() && Holds(store.ever, reference) {
      PageGone(store.objects, store.ever, reference);
    }
    var valid := CheckReference(reference);
    if !valid {
      return Err(Invalid);
    }
    var got := store.Get(reference.key);
    if got.Err? {
      return Err(NotFound);
    }
    if !got.value.IndexObject? {
      return Err(Invalid);
    }
    var page := got.value.page;
    var actual: Summary;
    match page {
      case LeafPage(segments) =>
        if |segments| != PAGE_ENTRIES {
          return Err(Invalid);
        }
        if segments[0].baseOffset != reference.firstOffset {
          return Err(Invalid);
        }
        var end := ValidateSegments(segments, reference.firstOffset);
        if end.Err? {
          return Err(Invalid);
        }
        actual := Summary(reference.firstOffset, end.value, |segments|, 0);
      case BranchPage(children) =>
        var checked := ValidateChildren(children);
        if checked.Err? {
          return Err(Invalid);
        }
        actual := checked.value;
    }
    if actual != Summary(reference.firstOffset, reference.nextOffset, reference.segmentCount, reference.level) {
      return Err(Invalid);
    }
    r := Ok(page);
  }

  /** A branch written over sound siblings denotes the branch of their trees. */
  lemma BranchSound(objects: map<Key, Object>, children: seq<PageRef>, key: Key)
    requires ChildrenOk(children) && AllSound(objects, children)
    requires key.IndexKey? && key in objects && objects[key] == IndexObject(BranchPage(children))
    ensures var r := RefTo(key, Describe(BranchPage(children)));
      && Sound(objects, r)
      && Load(objects, r) == Branch(LoadAll(objects, children))
      && Keys(objects, r) == {key} + Union(KeysAll(objects, children))
  {
    var r := RefTo(key, Describe(BranchPage(children)));
    BranchRefValid(children, key);
    assert Holds(objects, r);
    assert Sound(objects, r);
    LoadBranch(objects, r);
  }

  lemma UnionSnoc(sets: seq<set<Key>>, last: set<Key>)
    ensures Union(sets + [last]) == Union(sets) + last
  {
    assert (sets + [last])[..|sets|] == sets;
  }

  lemma UnionPair(a: set<Key>, b: set<Key>)
    ensures Union([a, b]) == a + b
  {
    UnionSnoc([], a);
    UnionSnoc([a], b);
    assert [] + [a] == [a] && [a] + [b] == [a, b];
  }

  // -------------------------------------------------------------- the new right edge

  /** src/log/index.rs:268-288 */
  method IndexPath(store: ObjectStore, leaf: PageRef, level: nat) returns (r: Result<PageRef>)
    requires store.Valid()
    modifies store
    ensures store.Valid() && store.nextId >= old(store.nextId)
    ensures Grew(old(store.ever), old(store.nextId), store.ever)
    ensures store.Gone() == old(store.Gone())
    ensures Sound(old(store.ever), leaf) && leaf.level == 0 && level <= MAX_LEVEL ==>
      && r.Ok?
      && store.nextId == old(store.nextId) + level
      && Lifted(old(store.ever), store.ever, leaf, level, r.value)
  {
    hide Sound, Lifted, Load, Writable;
    ghost var sound := Sound(old(store.ever), leaf) && leaf.level == 0 && level <= MAX_LEVEL;
    if sound {
      LiftedNone(store.ever, leaf);
    }
    var current := leaf;
    while current.level < level
      invariant store.Valid() && store.nextId >= old(store.nextId)
      invariant Grew(old(store.ever), old(store.nextId), store.ever)
      invariant store.Gone() == old(store.Gone())
      invariant sound ==>
        && store.nextId == old(store.nextId) + current.level
        && current.level <= level
        && Lifted(old(store.ever), store.ever, leaf, current.level, current)
      decreases level - current.level
    {
      ghost var before := store.ever;
      ghost var id := store.nextId;
      if sound {
        LiftedWritable(old(store.ever), before, leaf, current);
      }
      var parent := WritePage(store, BranchPage([current]));
      if parent.Err? {
        return parent;
      }
      if sound {
        LiftedOnce(old(store.ever), before, store.ever, leaf, current, IndexKey(id));
      }
      current := parent.value;
    }
    r := Ok(current);
  }

  /** `r` is the chain above `leaf` up to a level. */
  ghost predicate Lifted(before: map<Key, Object>, after: map<Key, Object>, leaf: PageRef, level: nat, r: PageRef)
    requires Sound(before, leaf)
  {
    && Sound(after, r)
    && r.level == level
    && r.firstOffset == leaf.firstOffset && r.nextOffset == leaf.nextOffset
    && Load(after, r) == Path(Load(before, leaf), level)
    && Keys(after, r) <= Keys(before, leaf) + Created(before, after)
    && (r.key == leaf.key || r.key in Created(before, after))
  }

  lemma LiftedNone(objects: map<Key, Object>, leaf: PageRef)
    requires Sound(objects, leaf) && leaf.level == 0
    ensures Lifted(objects, objects, leaf, 0, leaf)
  {
  }

  lemma LiftedWritable(start: map<Key, Object>, before: map<Key, Object>, leaf: PageRef, current: PageRef)
    requires Sound(start, leaf) && Lifted(start, before, leaf, current.level, current) && current.level < MAX_LEVEL
    ensures Writable(BranchPage([current]))
  {
  }

  lemma LiftedOnce(start: map<Key, Object>, before: map<Key, Object>, after: map<Key, Object>, leaf: PageRef,
                   current: PageRef, key: Key)
    requires Sound(start, leaf) && Extends(start, before)
    requires Lifted(start, before, leaf, current.level, current) && current.level < MAX_LEVEL
    requires key.IndexKey? && key !in before && after == before[key := IndexObject(BranchPage([current]))]
    ensures Lifted(start, after, leaf, current.level + 1, RefTo(key, Describe(BranchPage([current]))))
  {
    hide Sound, Load, Keys, ChildrenOk, Describe, Union;
    SoundFrame(before, after, current);
    OneChild(after, current);
    BranchSound(after, [current], key);
    DescribeOne(current, key);
  }

  lemma OneChild(objects: map<Key, Object>, r: PageRef)
    requires Sound(objects, r) && r.level < MAX_LEVEL
    ensures ChildrenOk([r]) && AllSound(objects, [r])
    ensures LoadAll(objects, [r]) == [Load(objects, r)]
    ensures Union(KeysAll(objects, [r])) == Keys(objects, r)
  {
    hide Load, Keys, Union;
    UnionSnoc([], Keys(objects, r));
    assert Union([]) == {} by {
      UnionNone();
    }
    assert KeysAll(objects, [r]) == [] + [Keys(objects, r)];
  }

  lemma UnionNone()
    ensures Union([]) == {}
  {
  }

  lemma DescribeOne(r: PageRef, key: Key)
    requires ChildrenOk([r])
    ensures var up := RefTo(key, Describe(BranchPage([r])));
      up.key == key && up.level == r.level + 1 && up.firstOffset == r.firstOffset && up.nextOffset == r.nextOffset
  {
  }

  // -------------------------------------------------------------- insertion

  /** What a caller of insertion supplies: a sound index and the leaf that follows it. */
  ghost predicate Follows(objects: map<Key, Object>, tree: PageRef, leaf: PageRef) {
    && Sound(objects, tree) && Sound(objects, leaf)
    && leaf.level == 0
    && leaf.firstOffset == tree.nextOffset
    && leaf.key !in Keys(objects, tree)
  }

  /** `r` denotes the tree with the leaf appended, and reaches only old pages and new ones. */
  ghost predicate Inserted(before: map<Key, Object>, after: map<Key, Object>, tree: PageRef, leaf: PageRef, r: PageRef)
    requires Sound(before, tree) && Sound(before, leaf)
  {
    && Sound(after, r)
    && r.firstOffset == tree.firstOffset && r.nextOffset == leaf.nextOffset
    && r.level == InsertLevel(Load(before, tree), tree.level)
    && Load(after, r) == Insert(Load(before, tree), tree.level, Load(before, leaf))
    && Keys(after, r) <= Keys(before, tree) + Keys(before, leaf) + Created(before, after)
    && r.key in Created(before, after)
  }

  /** A full index gets a new level: src/log/index.rs:297-311. */
  method InsertAbove(store: ObjectStore, tree: PageRef, leaf: PageRef) returns (r: Result<PageRef>)
    requires store.Valid() && RefFull(tree)
    modifies store
    ensures store.Valid() && store.nextId >= old(store.nextId)
    ensures Grew(old(store.ever), old(store.nextId), store.ever)
    ensures store.Gone() == old(store.Gone())
    ensures Follows(old(store.ever), tree, leaf) ==>
      && r.Ok?
      && Inserted(old(store.ever), store.ever, tree, leaf, r.value)
      && store.nextId <= old(store.nextId) + r.value.level
  {
    ghost var start := store.ever;
    ghost var sound := Follows(start, tree, leaf);
    if tree.level >= MAX_LEVEL {
      return Err(OffsetOverflow);
    }
    var right := IndexPath(store, leaf, tree.level);
    if right.Err? {
      return right;
    }
    ghost var mid := store.ever;
    if sound {
      GrowAbove(start, mid, tree, leaf, right.value);
    }
    r := WritePage(store, BranchPage([tree, right.value]));
    if sound {
      GrownAbove(start, mid, store.ever, tree, leaf, right.value, r.value);
    }
  }

  /**
   * src/log/index.rs:290-325. On an index that was ever sound it appends the leaf and writes at most
   * one page per level; the overflow and the size errors are unreachable, so it fails only if a page of
   * this index was collected.
   */
  method InsertLeaf(store: ObjectStore, tree: PageRef, leaf: PageRef) returns (r: Result<PageRef>)
    requires store.Valid()
    modifies store
    ensures store.Valid() && store.nextId >= old(store.nextId)
    ensures Grew(old(store.ever), old(store.nextId), store.ever)
    ensures store.Gone() == old(store.Gone())
    ensures Follows(old(store.ever), tree, leaf) ==>
      && (r.Err? ==> r.error == NotFound && LostPage(Keys(old(store.ever), tree), store.Gone()))
      && (r.Ok? ==>
            && Inserted(old(store.ever), store.ever, tree, leaf, r.value)
            && store.nextId <= old(store.nextId) + r.value.level)
    decreases tree.level, 1
  {
    hide Sound, Holds, Inserted, NewSiblings, NewTrees, NewKeys, RefFull, Keys, ObjectStore.Gone, LostPage;
    ghost var start := store.ever;
    ghost var sound := Follows(start, tree, leaf);
    if RefFull(tree) {
      r := InsertAbove(store, tree, leaf);
      return;
    }
    if sound {
      TreeHolds(start, tree);
    }
    var page := ReadPage(store, tree);
    if page.Err? {
      if sound {
        TopLost(start, tree, store.Gone());
      }
      return Err(page.error);
    }
    SamePage(store.objects, start, tree);
    if sound {
      LastChild(start, tree, leaf);
    }
    if page.value.LeafPage? || page.value.children == [] {
      return Err(Invalid);
    }
    var children := page.value.children;
    var replaced := NewRightEdge(store, tree, children, leaf);
    if replaced.Err? {
      return Err(replaced.error);
    }
    ghost var mid := store.ever;
    r := WritePage(store, BranchPage(replaced.value));
    if sound {
      Rewritten(start, mid, store.ever, tree, leaf, replaced.value, r.value);
    }
  }

  lemma TopLost(objects: map<Key, Object>, tree: PageRef, gone: set<Key>)
    requires Sound(objects, tree) && tree.key in gone
    ensures LostPage(Keys(objects, tree), gone)
  {
    assert Holds(objects, tree) && tree.key in Keys(objects, tree);
  }

  /** A page lost below the last child is lost below its parent. */
  lemma ChildLost(objects: map<Key, Object>, tree: PageRef, c: seq<PageRef>, gone: set<Key>)
    requires Sound(objects, tree) && objects[tree.key].page == BranchPage(c) && c != []
    requires Sound(objects, c[|c| - 1]) && LostPage(Keys(objects, c[|c| - 1]), gone)
    ensures LostPage(Keys(objects, tree), gone)
  {
    hide LostPage;
    LoadBranch(objects, tree);
    var sets := KeysAll(objects, c);
    UnionReplaced(sets, {});
    assert sets[|c| - 1] == Keys(objects, c[|c| - 1]);
    LostMore(sets[|c| - 1], Keys(objects, tree), gone);
  }

  /** The children of the rewritten page: src/log/index.rs:318-323. */
  method NewRightEdge(store: ObjectStore, ghost tree: PageRef, children: seq<PageRef>, leaf: PageRef)
    returns (r: Result<seq<PageRef>>)
    requires store.Valid() && children != [] && !RefFull(tree)
    requires Holds(store.ever, tree) && store.ever[tree.key].page == BranchPage(children)
    modifies store
    ensures store.Valid() && store.nextId >= old(store.nextId)
    ensures Grew(old(store.ever), old(store.nextId), store.ever)
    ensures store.Gone() == old(store.Gone())
    ensures Follows(old(store.ever), tree, leaf) ==>
      && (r.Err? ==> r.error == NotFound && LostPage(Keys(old(store.ever), tree), store.Gone()))
      && (r.Ok? ==>
            && NewSiblings(tree, leaf, r.value)
            && NewTrees(old(store.ever), store.ever, tree, leaf, r.value)
            && NewKeys(old(store.ever), store.ever, tree, leaf, r.value)
            && store.nextId + 1 <= old(store.nextId) + tree.level)
    decreases tree.level, 0
  {
    ghost var start := store.ever;
    ghost var sound := Follows(start, tree, leaf);
    var front, last := children[..|children| - 1], children[|children| - 1];
    if sound {
      LastChild(start, tree, leaf);
    }
    if RefFull(last) {
      var right := IndexPath(store, leaf, last.level);
      if right.Err? {
        return Err(right.error);
      }
      if sound {
        ExtendRight(start, store.ever, tree, leaf, children, right.value);
      }
      r := Ok(children + [right.value]);
    } else {
      var grown := InsertLeaf(store, last, leaf);
      if grown.Err? {
        if sound {
          ChildLost(start, tree, children, store.Gone());
        }
        return Err(grown.error);
      }
      if sound {
        ReplaceLast(start, store.ever, tree, leaf, children, grown.value);
      }
      r := Ok(front + [grown.value]);
    }
  }

  lemma GrowAbove(start: map<Key, Object>, mid: map<Key, Object>, tree: PageRef, leaf: PageRef, right: PageRef)
    requires Follows(start, tree, leaf) && RefFull(tree) && tree.level < MAX_LEVEL
    requires Extends(start, mid) && Lifted(start, mid, leaf, tree.level, right)
    ensures ChildrenOk([tree, right]) && right.key != tree.key
  {
    assert tree.key in Keys(start, tree);
    assert right.key != tree.key by {
      if right.key in Created(start, mid) {
        assert tree.key in start;
      }
    }
    var c := [tree, right];
    assert Siblings(c, tree.level);
  }

  lemma GrownAbove(start: map<Key, Object>, mid: map<Key, Object>, after: map<Key, Object>, tree: PageRef,
                   leaf: PageRef, right: PageRef, r: PageRef)
    requires Follows(start, tree, leaf) && RefFull(tree) && tree.level < MAX_LEVEL
    requires Extends(start, mid) && Lifted(start, mid, leaf, tree.level, right)
    requires ChildrenOk([tree, right])
    requires r == RefTo(r.key, Describe(BranchPage([tree, right]))) && r.key.IndexKey? && r.key !in mid
    requires after == mid[r.key := IndexObject(BranchPage([tree, right]))]
    ensures Inserted(start, after, tree, leaf, r)
  {
    hide Flatten, FlattenAll, Path, InsertBelow, Holds;
    SoundFrame(start, after, tree);
    SoundFrame(mid, after, right);
    PairSound(after, tree, right, r.key);
    SoundShaped(start, tree);
  }

  lemma PairSound(objects: map<Key, Object>, left: PageRef, right: PageRef, key: Key)
    requires ChildrenOk([left, right]) && Sound(objects, left) && Sound(objects, right)
    requires key.IndexKey? && key in objects && objects[key] == IndexObject(BranchPage([left, right]))
    ensures var r := RefTo(key, Describe(BranchPage([left, right])));
      && Sound(objects, r)
      && Load(objects, r) == Branch([Load(objects, left), Load(objects, right)])
      && Keys(objects, r) == {key} + Keys(objects, left) + Keys(objects, right)
  {
    var c := [left, right];
    BranchSound(objects, c, key);
    assert LoadAll(objects, c) == [Load(objects, left), Load(objects, right)];
    assert KeysAll(objects, c) == [Keys(objects, left), Keys(objects, right)];
    UnionPair(Keys(objects, left), Keys(objects, right));
  }

  /** A sound page with room is a branch, and a full last child leaves a free entry. */
  lemma RoomInPage(objects: map<Key, Object>, tree: PageRef)
    requires Sound(objects, tree) && !RefFull(tree)
    ensures objects[tree.key].page.BranchPage?
    ensures var c := objects[tree.key].page.children; var last := c[|c| - 1];
      && c != [] && last.level == tree.level - 1
      && Sound(objects, last)
      && (RefFull(last) <==> Full(Load(objects, last), last.level))
      && (RefFull(last) ==> |c| < PAGE_ENTRIES)
  {
    hide Capacity, Flatten, FlattenAll;
    SoundShaped(objects, tree);
    var t := Load(objects, tree);
    RoomBelow(t, tree.level);
    LoadBranch(objects, tree);
    var c := objects[tree.key].page.children;
    var last := c[|c| - 1];
    SoundShaped(objects, last);
    assert t.children[|t.children| - 1] == Load(objects, last);
  }

  /** The rightmost child of a sound page with room, as insertion finds it. */
  lemma LastChild(objects: map<Key, Object>, tree: PageRef, leaf: PageRef)
    requires Follows(objects, tree, leaf) && !RefFull(tree)
    ensures objects[tree.key].page.BranchPage?
    ensures var c := objects[tree.key].page.children; var last := c[|c| - 1];
      && c != [] && tree.level > 0
      && last.level == tree.level - 1
      && Follows(objects, last, leaf)
      && (RefFull(last) ==> |c| < PAGE_ENTRIES)
      && (RefFull(last) <==> Full(Load(objects, last), last.level))
      && (forall i :: 0 <= i < |c| ==> leaf.key !in Keys(objects, c[i]))
  {
    hide Full;
    RoomInPage(objects, tree);
    LoadBranch(objects, tree);
    var c := objects[tree.key].page.children;
    forall i | 0 <= i < |c| ensures leaf.key !in Keys(objects, c[i]) {
      UnionHas(KeysAll(objects, c), leaf.key);
      assert Keys(objects, c[i]) == KeysAll(objects, c)[i];
    }
  }

  /** The children insertion writes: valid siblings over the old range and the leaf's. */
  ghost predicate NewSiblings(tree: PageRef, leaf: PageRef, replaced: seq<PageRef>) {
    && ChildrenOk(replaced)
    && replaced[0].firstOffset == tree.firstOffset
    && replaced[|replaced| - 1].nextOffset == leaf.nextOffset
    && replaced[0].level + 1 == tree.level
  }

  /** ... the trees they denote ... */
  ghost predicate NewTrees(start: map<Key, Object>, mid: map<Key, Object>, tree: PageRef, leaf: PageRef,
                           replaced: seq<PageRef>)
    requires Sound(start, tree) && Sound(start, leaf)
  {
    && AllSound(mid, replaced)
    && Branch(LoadAll(mid, replaced)) == InsertBelow(Load(start, tree), tree.level, Load(start, leaf))
  }

  /** ... and the keys they reach. */
  ghost predicate NewKeys(start: map<Key, Object>, mid: map<Key, Object>, tree: PageRef, leaf: PageRef,
                          replaced: seq<PageRef>)
    requires Sound(start, tree) && Sound(start, leaf)
  {
    && AllSound(mid, replaced)
    && Union(KeysAll(mid, replaced)) <= Keys(start, tree) + Keys(start, leaf) + Created(start, mid)
  }

  lemma ExtendRight(start: map<Key, Object>, mid: map<Key, Object>, tree: PageRef, leaf: PageRef,
                    c: seq<PageRef>, right: PageRef)
    requires Follows(start, tree, leaf) && !RefFull(tree) && start[tree.key].page == BranchPage(c)
    requires Extends(start, mid) && RefFull(c[|c| - 1]) && Lifted(start, mid, leaf, tree.level - 1, right)
    ensures NewSiblings(tree, leaf, c + [right])
    ensures NewTrees(start, mid, tree, leaf, c + [right])
    ensures NewKeys(start, mid, tree, leaf, c + [right])
  {
    hide Load, Full, Keys, NewSiblings, NewTrees, NewKeys, RefFull, Sound, Created;
    LastChild(start, tree, leaf);
    NewRight(start, mid, tree, leaf, c, right);
    ExtendTrees(start, mid, tree, leaf, c, right);
    ExtendKeys(start, mid, tree, leaf, c, right);
  }

  lemma NewRight(start: map<Key, Object>, mid: map<Key, Object>, tree: PageRef, leaf: PageRef, c: seq<PageRef>,
                 right: PageRef)
    requires Follows(start, tree, leaf) && start[tree.key].page == BranchPage(c)
    requires RefFull(c[|c| - 1]) && |c| < PAGE_ENTRIES && Lifted(start, mid, leaf, tree.level - 1, right)
    requires tree.level > 0 && forall i :: 0 <= i < |c| ==> leaf.key !in Keys(start, c[i])
    ensures NewSiblings(tree, leaf, c + [right])
  {
    hide Load, Full, RefFull, Keys;
    LoadBranch(start, tree);
    NotSibling(start, c, right.key);
    ExtendSiblings(c, right);
  }

  lemma NotSibling(objects: map<Key, Object>, c: seq<PageRef>, key: Key)
    requires AllSound(objects, c)
    requires key !in objects || forall i :: 0 <= i < |c| ==> key !in Keys(objects, c[i])
    ensures key !in PageKeys(c)
  {
    forall i | 0 <= i < |c| ensures c[i].key != key {
      assert Holds(objects, c[i]) && c[i].key in Keys(objects, c[i]);
    }
  }

  lemma ExtendTrees(start: map<Key, Object>, mid: map<Key, Object>, tree: PageRef, leaf: PageRef,
                    c: seq<PageRef>, right: PageRef)
    requires Sound(start, tree) && Sound(start, leaf) && start[tree.key].page == BranchPage(c)
    requires Extends(start, mid) && Sound(start, c[|c| - 1]) && Full(Load(start, c[|c| - 1]), tree.level - 1)
    requires Sound(mid, right) && Load(mid, right) == Path(Load(start, leaf), tree.level - 1)
    ensures NewTrees(start, mid, tree, leaf, c + [right])
  {
    hide Sound, Holds, Full, InsertBelow, Path, Extends;
    LoadBranch(start, tree);
    LoadGrown(start, mid, c, right, tree.level);
    var t, kids, newLeaf := Load(start, tree), LoadAll(start, c), Load(start, leaf);
    var grown := LoadAll(mid, c + [right]);
    assert Full(kids[|kids| - 1], tree.level - 1);
    assert grown == kids + [Path(newLeaf, tree.level - 1)];
    InsertBeside(t, kids, tree.level, newLeaf, grown);
  }

  lemma LoadGrown(start: map<Key, Object>, mid: map<Key, Object>, c: seq<PageRef>, right: PageRef, level: nat)
    requires AllSound(start, c) && Extends(start, mid) && Sound(mid, right)
    requires forall i :: 0 <= i < |c| ==> c[i].level < level
    ensures AllSound(mid, c + [right])
    ensures LoadAll(mid, c + [right]) == LoadAll(start, c) + [Load(mid, right)]
  {
    AllSoundFrame(start, mid, c, level);
    LoadExtended(mid, c, right);
  }

  lemma ExtendKeys(start: map<Key, Object>, mid: map<Key, Object>, tree: PageRef, leaf: PageRef,
                   c: seq<PageRef>, right: PageRef)
    requires Sound(start, tree) && Sound(start, leaf) && start[tree.key].page == BranchPage(c)
    requires Extends(start, mid) && Sound(mid, right)
    requires Keys(mid, right) <= Keys(start, leaf) + Created(start, mid)
    ensures NewKeys(start, mid, tree, leaf, c + [right])
  {
    LoadBranch(start, tree);
    AllSoundFrame(start, mid, c, tree.level);
    LoadExtended(mid, c, right);
    UnionSnoc(KeysAll(mid, c), Keys(mid, right));
  }

  lemma ExtendSiblings(c: seq<PageRef>, right: PageRef)
    requires ChildrenOk(c) && |c| < PAGE_ENTRIES && RefFull(c[|c| - 1])
    requires right.key !in PageKeys(c)
    requires RefValid(right) && right.level == c[0].level && right.firstOffset == c[|c| - 1].nextOffset
    ensures ChildrenOk(c + [right])
    ensures (c + [right])[0] == c[0] && (c + [right])[|c|] == right
  {
    SiblingsSnoc(c, right, c[0].level);
  }

  lemma LoadExtended(objects: map<Key, Object>, c: seq<PageRef>, right: PageRef)
    requires AllSound(objects, c) && Sound(objects, right)
    ensures AllSound(objects, c + [right])
    ensures LoadAll(objects, c + [right]) == LoadAll(objects, c) + [Load(objects, right)]
    ensures KeysAll(objects, c + [right]) == KeysAll(objects, c) + [Keys(objects, right)]
  {
    forall i | 0 <= i < |c| + 1
      ensures (c + [right])[i] == if i < |c| then c[i] else right
    {
    }
  }

  lemma ReplaceLast(start: map<Key, Object>, mid: map<Key, Object>, tree: PageRef, leaf: PageRef,
                    c: seq<PageRef>, grown: PageRef)
    requires Follows(start, tree, leaf) && !RefFull(tree) && start[tree.key].page == BranchPage(c)
    requires Extends(start, mid) && !RefFull(c[|c| - 1]) && Follows(start, c[|c| - 1], leaf)
    requires Inserted(start, mid, c[|c| - 1], leaf, grown)
    ensures NewSiblings(tree, leaf, c[..|c| - 1] + [grown])
    ensures NewTrees(start, mid, tree, leaf, c[..|c| - 1] + [grown])
    ensures NewKeys(start, mid, tree, leaf, c[..|c| - 1] + [grown])
  {
    hide NewSiblings, NewTrees, NewKeys, Full, RefFull, Keys, Inserted, Insert, Load;
    LastChild(start, tree, leaf);
    GrownFacts(start, mid, c[|c| - 1], leaf, grown);
    ReplacedSiblings(start, mid, tree, leaf, c, grown);
    ReplaceTrees(start, mid, tree, leaf, c, grown);
    ReplaceKeys(start, mid, tree, leaf, c, grown);
  }

  lemma GrownFacts(start: map<Key, Object>, mid: map<Key, Object>, last: PageRef, leaf: PageRef, grown: PageRef)
    requires Sound(start, last) && Sound(start, leaf) && Inserted(start, mid, last, leaf, grown)
    ensures Sound(mid, grown)
    ensures Load(mid, grown) == Insert(Load(start, last), last.level, Load(start, leaf))
    ensures Keys(mid, grown) <= Keys(start, last) + Keys(start, leaf) + Created(start, mid)
  {
    hide Load, Insert, Keys;
  }

  lemma ReplacedSiblings(start: map<Key, Object>, mid: map<Key, Object>, tree: PageRef, leaf: PageRef,
                         c: seq<PageRef>, grown: PageRef)
    requires Sound(start, tree) && start[tree.key].page == BranchPage(c) && c != []
    requires Sound(start, c[|c| - 1]) && Sound(start, leaf) && c[|c| - 1].level + 1 == tree.level
    requires !Full(Load(start, c[|c| - 1]), c[|c| - 1].level) && Inserted(start, mid, c[|c| - 1], leaf, grown)
    ensures NewSiblings(tree, leaf, c[..|c| - 1] + [grown])
  {
    hide Load, Full, Keys, Insert;
    LoadBranch(start, tree);
    ReplaceSibling(start, c, grown);
  }

  lemma ReplaceTrees(start: map<Key, Object>, mid: map<Key, Object>, tree: PageRef, leaf: PageRef,
                     c: seq<PageRef>, grown: PageRef)
    requires Sound(start, tree) && Sound(start, leaf) && start[tree.key].page == BranchPage(c)
    requires Extends(start, mid) && Sound(start, c[|c| - 1]) && c[|c| - 1].level + 1 == tree.level
    requires Sound(mid, grown) && !Full(Load(start, c[|c| - 1]), tree.level - 1)
    requires Load(mid, grown) == Insert(Load(start, c[|c| - 1]), tree.level - 1, Load(start, leaf))
    ensures NewTrees(start, mid, tree, leaf, c[..|c| - 1] + [grown])
  {
    hide Sound, Holds, Full, Insert, InsertBelow, Extends;
    LoadBranch(start, tree);
    LoadRegrown(start, mid, c, grown, tree.level);
    var replaced := c[..|c| - 1] + [grown];
    InsertInside(Load(start, tree), LoadAll(start, c), tree.level, Load(start, leaf), LoadAll(mid, replaced));
  }

  lemma LoadRegrown(start: map<Key, Object>, mid: map<Key, Object>, c: seq<PageRef>, grown: PageRef, level: nat)
    requires c != [] && AllSound(start, c) && Extends(start, mid) && Sound(mid, grown)
    requires forall i :: 0 <= i < |c| ==> c[i].level < level
    ensures AllSound(mid, c[..|c| - 1] + [grown])
    ensures LoadAll(mid, c[..|c| - 1] + [grown]) == LoadAll(start, c)[..|c| - 1] + [Load(mid, grown)]
  {
    AllSoundFrame(start, mid, c, level);
    LoadReplaced(mid, c, grown);
  }

  lemma ReplaceKeys(start: map<Key, Object>, mid: map<Key, Object>, tree: PageRef, leaf: PageRef,
                    c: seq<PageRef>, grown: PageRef)
    requires Sound(start, tree) && Sound(start, leaf) && start[tree.key].page == BranchPage(c)
    requires Extends(start, mid) && Sound(start, c[|c| - 1]) && Sound(mid, grown)
    requires Keys(mid, grown) <= Keys(start, c[|c| - 1]) + Keys(start, leaf) + Created(start, mid)
    ensures NewKeys(start, mid, tree, leaf, c[..|c| - 1] + [grown])
  {
    LoadBranch(start, tree);
    AllSoundFrame(start, mid, c, tree.level);
    LoadReplaced(mid, c, grown);
    UnionReplaced(KeysAll(mid, c), Keys(mid, grown));
  }

  lemma LoadReplaced(objects: map<Key, Object>, c: seq<PageRef>, grown: PageRef)
    requires c != [] && AllSound(objects, c) && Sound(objects, grown)
    ensures AllSound(objects, c[..|c| - 1] + [grown])
    ensures LoadAll(objects, c[..|c| - 1] + [grown]) == LoadAll(objects, c)[..|c| - 1] + [Load(objects, grown)]
    ensures KeysAll(objects, c[..|c| - 1] + [grown]) == KeysAll(objects, c)[..|c| - 1] + [Keys(objects, grown)]
  {
    var replaced := c[..|c| - 1] + [grown];
    forall i | 0 <= i < |c|
      ensures replaced[i] == if i < |c| - 1 then c[i] else grown
    {
    }
  }

  lemma UnionReplaced(sets: seq<set<Key>>, last: set<Key>)
    requires sets != []
    ensures Union(sets[..|sets| - 1] + [last]) <= Union(sets) + last
    ensures sets[|sets| - 1] <= Union(sets)
  {
    UnionSnoc(sets[..|sets| - 1], last);
  }

  lemma ReplaceSibling(objects: map<Key, Object>, c: seq<PageRef>, grown: PageRef)
    requires ChildrenOk(c) && AllSound(objects, c)
    requires RefValid(grown) && grown.key !in objects
    requires grown.level == c[0].level && grown.firstOffset == c[|c| - 1].firstOffset
    ensures var replaced := c[..|c| - 1] + [grown];
      && ChildrenOk(replaced)
      && replaced[0].firstOffset == c[0].firstOffset
      && replaced[0].level == c[0].level
  {
    var n := |c| - 1;
    var front, last := c[..n], c[n];
    assert c == front + [last];
    SiblingsSnoc(front, last, c[0].level);
    assert grown.key !in PageKeys(front) by {
      forall i | 0 <= i < |front| ensures front[i].key != grown.key {
        assert front[i] == c[i] && c[i].key in objects;
      }
    }
    SiblingsSnoc(front, grown, c[0].level);
    assert n > 0 ==> (front + [grown])[0] == c[0];
  }

  lemma Rewritten(start: map<Key, Object>, mid: map<Key, Object>, after: map<Key, Object>, tree: PageRef,
                  leaf: PageRef, replaced: seq<PageRef>, r: PageRef)
    requires Follows(start, tree, leaf) && !RefFull(tree)
    requires Extends(start, mid) && NewSiblings(tree, leaf, replaced)
    requires NewTrees(start, mid, tree, leaf, replaced) && NewKeys(start, mid, tree, leaf, replaced)
    requires r == RefTo(r.key, Describe(BranchPage(replaced))) && r.key.IndexKey? && r.key !in mid
    requires after == mid[r.key := IndexObject(BranchPage(replaced))]
    ensures Inserted(start, after, tree, leaf, r)
  {
    hide Flatten, FlattenAll, InsertBelow, Holds;
    AllSoundFrame(mid, after, replaced, tree.level);
    BranchSound(after, replaced, r.key);
    SoundShaped(start, tree);
  }
}
