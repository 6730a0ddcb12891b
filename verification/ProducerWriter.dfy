/** Copy-on-write update of the producer directory (src/log/producer.rs:399-472). */
module ProducerWriter {
  import opened LogTypes
  import opened ObjectStores
  import opened ProducerTree
  import opened ProducerPages
  import ProducerWindow
  import IndexTree
  import IndexPages
  import IndexWriter

  // -------------------------------------------------------------- rows of references

  /** Sound references of one level that denote the given trees and reach no barred key. */
  ghost predicate Row(objects: map<Key, Object>, refs: seq<ProducerRef>, level: nat, nextOffset: int, ts: seq<Tree>,
                      barred: set<Key>)
  {
    && AllSound(objects, refs, nextOffset)
    && (forall i :: 0 <= i < |refs| ==> refs[i].level == level)
    && LoadAll(objects, refs, nextOffset) == ts
    && forall i :: 0 <= i < |refs| ==> Keys(objects, refs[i], nextOffset) !! barred
  }

  lemma RowFrame(before: map<Key, Object>, after: map<Key, Object>, refs: seq<ProducerRef>, level: nat, nextOffset: int,
                 ts: seq<Tree>, barred: set<Key>)
    requires Row(before, refs, level, nextOffset, ts, barred) && Extends(before, after)
    ensures Row(after, refs, level, nextOffset, ts, barred)
  {
    AllSoundFrame(before, after, refs, nextOffset, nextOffset, level + 1);
    forall i | 0 <= i < |refs| ensures Keys(after, refs[i], nextOffset) !! barred {
      assert KeysAll(after, refs, nextOffset)[i] == KeysAll(before, refs, nextOffset)[i];
    }
  }

  lemma RowSlice(objects: map<Key, Object>, refs: seq<ProducerRef>, level: nat, nextOffset: int, ts: seq<Tree>,
                 barred: set<Key>, i: nat, j: nat)
    requires Row(objects, refs, level, nextOffset, ts, barred) && i <= j <= |refs|
    ensures Row(objects, refs[i..j], level, nextOffset, ts[i..j], barred)
  {
    hide Sound, Load, Keys;
  }

  lemma RowJoin(objects: map<Key, Object>, a: seq<ProducerRef>, b: seq<ProducerRef>, level: nat, nextOffset: int,
                ts: seq<Tree>, us: seq<Tree>, barred: set<Key>)
    requires Row(objects, a, level, nextOffset, ts, barred) && Row(objects, b, level, nextOffset, us, barred)
    ensures Row(objects, a + b, level, nextOffset, ts + us, barred)
  {
    hide Sound, Load, Keys;
  }

  /** Ordered contents order the references. */
  lemma {:induction false} RowSiblings(objects: map<Key, Object>, refs: seq<ProducerRef>, level: nat, nextOffset: int,
                                       ts: seq<Tree>, barred: set<Key>)
    requires Row(objects, refs, level, nextOffset, ts, barred) && Sorted(StatesAll(ts)) && refs != []
    ensures Siblings(refs, level)
    ensures AllShaped(ts, level)
    ensures var ss := StatesAll(ts);
      && ss != [] && |ss| == CountAll(refs) && StatesOk(ss, nextOffset)
      && ss[0].id == refs[0].firstId && ss[|ss| - 1].id == refs[|refs| - 1].lastId
    decreases |refs|
  {
    hide Sound, Load, Keys, Shaped, States, StatesAll, CountAll, RefValid;
    var n := |refs| - 1;
    var front := refs[..n];
    SplitLast(ts);
    var a, b := StatesAll(ts[..n]), States(ts[n]);
    SoundShaped(objects, refs[n], nextOffset);
    ValidRef(objects, refs[n], nextOffset);
    if n > 0 {
      RowSlice(objects, refs, level, nextOffset, ts, barred, 0, n);
      assert ts[0..n] == ts[..n] && refs[0..n] == front;
      assert a + b == [] + a + b && a + b == a + b + [];
      SortedPart([], a, b);
      RowSiblings(objects, front, level, nextOffset, ts[..n], barred);
      JoinOrder(a, b);
      assert forall i :: 0 <= i < n ==> front[i] == refs[i];
      assert refs[n - 1].lastId < refs[n].firstId;
      assert Siblings(refs, level);
    } else {
      assert Siblings(refs, level);
    }
    ForestShaped(objects, refs, level, nextOffset);
  }

  lemma JoinOrder(a: seq<ProducerState>, b: seq<ProducerState>)
    requires Sorted(a + b) && a != [] && b != []
    ensures a[|a| - 1].id < b[0].id
  {
    var c := a + b;
    assert c[|a| - 1] == a[|a| - 1] && c[|a|] == b[0];
  }

  lemma ValidRef(objects: map<Key, Object>, r: ProducerRef, nextOffset: int)
    requires Sound(objects, r, nextOffset)
    ensures RefValid(r) && r.key in objects
  {
  }

  // -------------------------------------------------------------- pages that can be written

  lemma LeafWritable(states: seq<ProducerState>, nextOffset: int)
    requires 1 <= |states| <= PAGE_ENTRIES && Sorted(states) && StatesOk(states, nextOffset)
    ensures Writable(ProducerLeaf(states), nextOffset)
  {
    SortedRange(states);
    assert IndexTree.Capacity(0) == 64;
    assert ProducerWindow.StateOk(states[0], nextOffset) && ProducerWindow.StateOk(states[|states| - 1], nextOffset);
  }

  lemma LeafWritten(objects: map<Key, Object>, states: seq<ProducerState>, nextOffset: int, key: Key, barred: set<Key>)
    requires Writable(ProducerLeaf(states), nextOffset) && key.ProducerKey? && key !in barred
    requires key in objects && objects[key] == ProducerObject(ProducerLeaf(states))
    ensures Row(objects, [RefTo(key, Describe(ProducerLeaf(states)))], 0, nextOffset, [Leaf(states)], barred)
  {
  }

  lemma {:induction false} StatesFit(t: Tree, level: nat)
    requires Shaped(t, level)
    ensures |States(t)| <= IndexTree.Capacity(level)
    decreases level, 1
  {
    if level > 0 {
      StatesFitAll(t.children, level - 1);
      IndexTree.MulMonotone(|t.children|, PAGE_ENTRIES, IndexTree.Capacity(level - 1));
    }
  }

  lemma {:induction false} StatesFitAll(ts: seq<Tree>, level: nat)
    requires AllShaped(ts, level)
    ensures |StatesAll(ts)| <= |ts| * IndexTree.Capacity(level)
    decreases level, 2, |ts|
  {
    if ts != [] {
      StatesFit(ts[0], level);
      StatesFitAll(ts[1..], level);
      assert |ts| * IndexTree.Capacity(level) == IndexTree.Capacity(level) + (|ts| - 1) * IndexTree.Capacity(level);
    }
  }

  lemma BranchWritable(objects: map<Key, Object>, refs: seq<ProducerRef>, level: nat, nextOffset: int, ts: seq<Tree>,
                       barred: set<Key>)
    requires Row(objects, refs, level, nextOffset, ts, barred) && Sorted(StatesAll(ts))
    requires 2 <= |refs| <= PAGE_ENTRIES && level < MAX_LEVEL
    ensures Writable(ProducerBranch(refs), nextOffset)
  {
    hide Row, Siblings, Shaped, CountAll, StatesAll, ProducerWindow.StateOk, ProducerWindow.WindowOk;
    RowSize(objects, refs, level, nextOffset, ts, barred);
    RowSiblings(objects, refs, level, nextOffset, ts, barred);
    var ss := StatesAll(ts);
    IdRange(ss, nextOffset);
    SortedRange(ss);
    StatesFitAll(ts, level);
    IndexTree.MulMonotone(|ts|, PAGE_ENTRIES, IndexTree.Capacity(level));
    assert IndexTree.Capacity(level + 1) == PAGE_ENTRIES * IndexTree.Capacity(level);
    FitsRef(refs, level);
  }

  lemma FitsRef(refs: seq<ProducerRef>, level: nat)
    requires refs != [] && refs[0].level == level < MAX_LEVEL
    requires 0 <= refs[0].firstId <= refs[|refs| - 1].lastId <= I64_MAX
    requires 0 < CountAll(refs) <= refs[|refs| - 1].lastId - refs[0].firstId + 1
    requires CountAll(refs) <= IndexTree.Capacity(level + 1)
    ensures RefValid(RefTo(ProducerKey(0), Describe(ProducerBranch(refs))))
  {
  }

  lemma RowSize(objects: map<Key, Object>, refs: seq<ProducerRef>, level: nat, nextOffset: int, ts: seq<Tree>,
                barred: set<Key>)
    requires Row(objects, refs, level, nextOffset, ts, barred)
    ensures |ts| == |refs|
    ensures forall i :: 0 <= i < |refs| ==> refs[i].level == level
  {
  }

  lemma IdRange(ss: seq<ProducerState>, nextOffset: int)
    requires StatesOk(ss, nextOffset)
    ensures forall i :: 0 <= i < |ss| ==> 0 <= ss[i].id <= I64_MAX
  {
  }

  lemma BranchWritten(objects: map<Key, Object>, refs: seq<ProducerRef>, level: nat, nextOffset: int, ts: seq<Tree>,
                      key: Key, barred: set<Key>)
    requires Row(objects, refs, level, nextOffset, ts, barred) && Writable(ProducerBranch(refs), nextOffset)
    requires key.ProducerKey? && key !in barred
    requires key in objects && objects[key] == ProducerObject(ProducerBranch(refs))
    ensures Row(objects, [RefTo(key, Describe(ProducerBranch(refs)))], level + 1, nextOffset, [Branch(ts)], barred)
  {
    hide IndexPages.Union;
    var r := RefTo(key, Describe(ProducerBranch(refs)));
    assert Sound(objects, r, nextOffset);
    LoadBranch(objects, r, nextOffset);
    forall k | k in Keys(objects, r, nextOffset) ensures k !in barred {
      IndexPages.UnionHas(KeysAll(objects, refs, nextOffset), k);
    }
  }

  // -------------------------------------------------------------- writing one or two pages

  ghost predicate Stored(objects: map<Key, Object>, low: nat, pages: seq<ProducerPage>, nextOffset: int, refs: seq<ProducerRef>) {
    && |refs| == |pages|
    && forall i :: 0 <= i < |pages| ==>
      && Writable(pages[i], nextOffset)
      && refs[i] == RefTo(ProducerKey(low + i), Describe(pages[i]))
      && refs[i].key in objects && objects[refs[i].key] == ProducerObject(pages[i])
  }

  ghost predicate AllWritable(pages: seq<ProducerPage>, nextOffset: int) {
    forall i :: 0 <= i < |pages| ==> Writable(pages[i], nextOffset)
  }

  method WriteAll(store: ObjectStore, pages: seq<ProducerPage>, nextOffset: int) returns (r: Result<seq<ProducerRef>>)
    requires store.Valid()
    modifies store
    ensures store.Valid() && store.nextId >= old(store.nextId)
    ensures IndexWriter.Grew(old(store.ever), old(store.nextId), store.ever)
    ensures store.Gone() == old(store.Gone())
    ensures r.Ok? <==> AllWritable(pages, nextOffset)
    ensures r.Ok? ==>
      && Stored(store.ever, old(store.nextId), pages, nextOffset, r.value)
      && |r.value| == |pages|
      && store.nextId == old(store.nextId) + |pages|
  {
    hide Writable, Describe, Stored, ObjectStore.Gone;
    var refs := [];
    var i := 0;
    StoredNothing(store.ever, store.nextId, nextOffset);
    while i < |pages|
      invariant 0 <= i <= |pages| && |refs| == i
      invariant store.Valid() && store.nextId == old(store.nextId) + i
      invariant IndexWriter.Grew(old(store.ever), old(store.nextId), store.ever)
      invariant store.Gone() == old(store.Gone())
      invariant Stored(store.ever, old(store.nextId), pages[..i], nextOffset, refs)
    {
      assert pages[..i + 1] == pages[..i] + [pages[i]];
      ghost var before := store.ever;
      var written := WriteProducerPage(store, pages[i], nextOffset);
      if written.Err? {
        return Err(written.error);
      }
      StoredMore(before, store.ever, old(store.nextId), pages[..i], pages[i], nextOffset, refs, written.value);
      refs := refs + [written.value];
      i := i + 1;
    }
    assert pages[..|pages|] == pages;
    StoredWritable(store.ever, old(store.nextId), pages, nextOffset, refs);
    r := Ok(refs);
  }

  lemma StoredNothing(objects: map<Key, Object>, low: nat, nextOffset: int)
    ensures Stored(objects, low, [], nextOffset, [])
  {
  }

  lemma StoredWritable(objects: map<Key, Object>, low: nat, pages: seq<ProducerPage>, nextOffset: int, refs: seq<ProducerRef>)
    requires Stored(objects, low, pages, nextOffset, refs)
    ensures AllWritable(pages, nextOffset)
  {
    hide Writable;
  }

  lemma StoredMore(before: map<Key, Object>, after: map<Key, Object>, low: nat, pages: seq<ProducerPage>, page: ProducerPage,
                   nextOffset: int, refs: seq<ProducerRef>, r: ProducerRef)
    requires Stored(before, low, pages, nextOffset, refs) && Extends(before, after)
    requires Writable(page, nextOffset) && r == RefTo(ProducerKey(low + |pages|), Describe(page))
    requires r.key in after && after[r.key] == ProducerObject(page)
    ensures Stored(after, low, pages + [page], nextOffset, refs + [r])
  {
    hide Writable;
  }

  // -------------------------------------------------------------- the path from the root

  datatype Step = Step(children: seq<ProducerRef>, position: nat)

  predicate InRange(path: seq<Step>) {
    forall i :: 0 <= i < |path| ==> path[i].position < |path[i].children|
  }

  /** The path leads from the root `top` to the page `done`, through the children an update descends into. */
  ghost predicate Trail(objects: map<Key, Object>, path: seq<Step>, level: nat, nextOffset: int, top: Tree, done: Tree,
                        id: int, barred: set<Key>)
    decreases |path|
  {
    if path == [] then done == top
    else
      var step := path[|path| - 1];
      && AllSound(objects, step.children, nextOffset)
      && var kids := LoadAll(objects, step.children, nextOffset);
      && Row(objects, step.children, level, nextOffset, kids, barred)
      && WellFormed(Branch(kids), level + 1)
      && step.position == Position(kids, id)
      && kids[step.position] == done
      && Trail(objects, path[..|path| - 1], level + 1, nextOffset, top, Branch(kids), id, barred)
  }

  lemma {:induction false} TrailFrame(before: map<Key, Object>, after: map<Key, Object>, path: seq<Step>, level: nat,
                                      nextOffset: int, top: Tree, done: Tree, id: int, barred: set<Key>)
    requires Trail(before, path, level, nextOffset, top, done, id, barred) && Extends(before, after)
    ensures Trail(after, path, level, nextOffset, top, done, id, barred)
    decreases |path|
  {
    hide WellFormed, Sound, Load, Keys;
    if path != [] {
      var step := path[|path| - 1];
      var kids := LoadAll(before, step.children, nextOffset);
      RowFrame(before, after, step.children, level, nextOffset, kids, barred);
      TrailFrame(before, after, path[..|path| - 1], level + 1, nextOffset, top, Branch(kids), id, barred);
    }
  }

  /** The first child that ends at or after the identifier, else the last. */
  function ChildAt(children: seq<ProducerRef>, id: int): (n: nat)
    requires children != []
    ensures n < |children|
  {
    if |children| == 1 || id <= children[0].lastId then 0 else 1 + ChildAt(children[1..], id)
  }

  lemma {:induction false} ChildAtPosition(objects: map<Key, Object>, children: seq<ProducerRef>, nextOffset: int, id: int)
    requires AllSound(objects, children, nextOffset) && children != []
    ensures ChildAt(children, id) == Position(LoadAll(objects, children, nextOffset), id)
    decreases |children|
  {
    hide Sound, Load;
    SoundShaped(objects, children[0], nextOffset);
    if |children| > 1 {
      assert LoadAll(objects, children, nextOffset)[1..] == LoadAll(objects, children[1..], nextOffset);
      ChildAtPosition(objects, children[1..], nextOffset, id);
    }
  }

  /** A sound page on the trail, at most level 12. */
  ghost predicate Reached(objects: map<Key, Object>, path: seq<Step>, r: ProducerRef, nextOffset: int, top: Tree, id: int,
                          barred: set<Key>)
  {
    && Row(objects, [r], r.level, nextOffset, [Load1(objects, r, nextOffset)], barred)
    && WellFormed(Load1(objects, r, nextOffset), r.level)
    && Trail(objects, path, r.level, nextOffset, top, Load1(objects, r, nextOffset), id, barred)
  }

  ghost function Load1(objects: map<Key, Object>, r: ProducerRef, nextOffset: int): Tree {
    if Sound(objects, r, nextOffset) then Load(objects, r, nextOffset) else Leaf([])
  }

  lemma AtLeaf(objects: map<Key, Object>, path: seq<Step>, r: ProducerRef, nextOffset: int, top: Tree, id: int,
               barred: set<Key>)
    requires Reached(objects, path, r, nextOffset, top, id, barred)
    ensures Sound(objects, r, nextOffset) && Load1(objects, r, nextOffset) == Load(objects, r, nextOffset)
    ensures Keys(objects, r, nextOffset) !! barred
    ensures Holds(objects, r, nextOffset)
    ensures objects[r.key].producerPage.ProducerLeaf? ==>
      && r.level == 0
      && Load1(objects, r, nextOffset) == Leaf(objects[r.key].producerPage.producers)
  {
    hide WellFormed, Trail;
    assert [r][0] == r;
  }

  lemma ChildrenRow(objects: map<Key, Object>, r: ProducerRef, nextOffset: int, barred: set<Key>)
    requires Sound(objects, r, nextOffset) && Keys(objects, r, nextOffset) !! barred
    requires objects[r.key].producerPage.ProducerBranch?
    ensures var c := objects[r.key].producerPage.children;
      && c != [] && r.level > 0 && AllSound(objects, c, nextOffset)
      && Load(objects, r, nextOffset) == Branch(LoadAll(objects, c, nextOffset))
      && Row(objects, c, r.level - 1, nextOffset, LoadAll(objects, c, nextOffset), barred)
  {
    hide IndexPages.Union;
    var c := objects[r.key].producerPage.children;
    LoadBranch(objects, r, nextOffset);
    forall i | 0 <= i < |c| ensures Keys(objects, c[i], nextOffset) !! barred {
      forall k | k in Keys(objects, c[i], nextOffset) ensures k !in barred {
        assert k in KeysAll(objects, c, nextOffset)[i];
        IndexPages.UnionHas(KeysAll(objects, c, nextOffset), k);
      }
    }
  }

  lemma Descend(objects: map<Key, Object>, path: seq<Step>, r: ProducerRef, nextOffset: int, top: Tree, id: int,
                barred: set<Key>)
    requires Reached(objects, path, r, nextOffset, top, id, barred)
    ensures Holds(objects, r, nextOffset)
    ensures objects[r.key].producerPage.ProducerBranch? ==>
      var c := objects[r.key].producerPage.children;
      && c != [] && r.level > 0
      && Reached(objects, path + [Step(c, ChildAt(c, id))], c[ChildAt(c, id)], nextOffset, top, id, barred)
  {
    hide WellFormed, Trail, Row, Sound, Load, Keys;
    AtLeaf(objects, path, r, nextOffset, top, id, barred);
    if objects[r.key].producerPage.ProducerBranch? {
      ChildrenRow(objects, r, nextOffset, barred);
      var c := objects[r.key].producerPage.children;
      var kids := LoadAll(objects, c, nextOffset);
      ChildAtPosition(objects, c, nextOffset, id);
      var n := ChildAt(c, id);
      assert kids[n] == Load1(objects, c[n], nextOffset);
      ChildWellFormed(kids, n, r.level);
      RowSlice(objects, c, r.level - 1, nextOffset, kids, barred, n, n + 1);
      assert c[n..n + 1] == [c[n]] && kids[n..n + 1] == [kids[n]];
      OneLevel(objects, c[n], r.level - 1, nextOffset, kids[n], barred);
      TrailSnoc(objects, path, c, n, r.level, nextOffset, top, id, barred);
    }
  }

  lemma OneLevel(objects: map<Key, Object>, r: ProducerRef, level: nat, nextOffset: int, t: Tree, barred: set<Key>)
    requires Row(objects, [r], level, nextOffset, [t], barred)
    ensures r.level == level
  {
    assert [r][0] == r;
  }

  lemma TrailSnoc(objects: map<Key, Object>, path: seq<Step>, c: seq<ProducerRef>, n: nat, level: nat, nextOffset: int,
                  top: Tree, id: int, barred: set<Key>)
    requires level > 0 && AllSound(objects, c, nextOffset)
    requires var kids := LoadAll(objects, c, nextOffset);
      && Row(objects, c, level - 1, nextOffset, kids, barred) && WellFormed(Branch(kids), level)
      && c != [] && n == Position(kids, id)
      && Trail(objects, path, level, nextOffset, top, Branch(kids), id, barred)
    ensures Trail(objects, path + [Step(c, n)], level - 1, nextOffset, top, LoadAll(objects, c, nextOffset)[n], id, barred)
  {
    hide WellFormed, Row, Position;
    var longer := path + [Step(c, n)];
    assert longer[..|longer| - 1] == path;
  }

  lemma ChildWellFormed(kids: seq<Tree>, n: nat, level: nat)
    requires WellFormed(Branch(kids), level) && n < |kids| && level > 0
    ensures WellFormed(kids[n], level - 1)
  {
    SplitAt(kids, n);
    SortedPart(StatesAll(kids[..n]), States(kids[n]), StatesAll(kids[n + 1..]));
    FilledIsRoot(kids[n], level - 1);
  }

  // -------------------------------------------------------------- writing back up

  function LeafPages(halves: seq<seq<ProducerState>>): seq<ProducerPage> {
    seq(|halves|, i requires 0 <= i < |halves| => ProducerLeaf(halves[i]))
  }

  function BranchPages(halves: seq<seq<ProducerRef>>): seq<ProducerPage> {
    seq(|halves|, i requires 0 <= i < |halves| => ProducerBranch(halves[i]))
  }

  lemma UpsertOk(ss: seq<ProducerState>, st: ProducerState, nextOffset: int)
    requires StatesOk(ss, nextOffset) && ProducerWindow.StateOk(st, nextOffset)
    ensures StatesOk(Upsert(ss, st), nextOffset)
  {
    hide Rank, ProducerWindow.StateOk;
    RankRange(ss, st.id);
  }

  lemma LeavesWritable(states: seq<ProducerState>, nextOffset: int)
    requires 1 <= |states| <= PAGE_ENTRIES + 1 && Sorted(states) && StatesOk(states, nextOffset)
    ensures AllWritable(LeafPages(Halves(states)), nextOffset)
  {
    hide Writable;
    if |states| <= PAGE_ENTRIES {
      LeafWritable(states, nextOffset);
    } else {
      LeafWritable(states[..|states| / 2], nextOffset);
      LeafWritable(states[|states| / 2..], nextOffset);
    }
  }

  lemma LeavesStored(objects: map<Key, Object>, low: nat, states: seq<ProducerState>, nextOffset: int,
                     refs: seq<ProducerRef>, barred: set<Key>)
    requires Stored(objects, low, LeafPages(Halves(states)), nextOffset, refs)
    requires forall k :: k in barred ==> k.id < low
    ensures Row(objects, refs, 0, nextOffset, LeavesOf(Halves(states)), barred)
  {
    hide Row, Writable;
    var halves := Halves(states);
    assert LeafPages(halves)[0] == ProducerLeaf(halves[0]);
    assert |halves| == 2 ==> LeafPages(halves)[1] == ProducerLeaf(halves[1]);
    LeafWritten(objects, halves[0], nextOffset, ProducerKey(low), barred);
    if |halves| == 2 {
      LeafWritten(objects, halves[1], nextOffset, ProducerKey(low + 1), barred);
      RowJoin(objects, [refs[0]], [refs[1]], 0, nextOffset, [Leaf(halves[0])], [Leaf(halves[1])], barred);
      assert refs == [refs[0]] + [refs[1]] && LeavesOf(halves) == [Leaf(halves[0])] + [Leaf(halves[1])];
    } else {
      assert refs == [refs[0]] && LeavesOf(halves) == [Leaf(halves[0])];
    }
  }

  lemma BranchesStored(objects: map<Key, Object>, low: nat, children: seq<ProducerRef>, level: nat, nextOffset: int,
                       ts: seq<Tree>, refs: seq<ProducerRef>, barred: set<Key>)
    requires Row(objects, children, level, nextOffset, ts, barred)
    requires Stored(objects, low, BranchPages(Halves(children)), nextOffset, refs)
    requires forall k :: k in barred ==> k.id < low
    ensures Row(objects, refs, level + 1, nextOffset, BranchesOf(Halves(ts)), barred)
  {
    hide Row, Writable;
    RowSize(objects, children, level, nextOffset, ts, barred);
    var halves, trees := Halves(children), Halves(ts);
    assert BranchPages(halves)[0] == ProducerBranch(halves[0]);
    assert |halves| == 2 ==> BranchPages(halves)[1] == ProducerBranch(halves[1]);
    HalfRows(objects, children, level, nextOffset, ts, barred);
    BranchWritten(objects, halves[0], level, nextOffset, trees[0], ProducerKey(low), barred);
    if |halves| == 2 {
      BranchWritten(objects, halves[1], level, nextOffset, trees[1], ProducerKey(low + 1), barred);
      RowJoin(objects, [refs[0]], [refs[1]], level + 1, nextOffset, [Branch(trees[0])], [Branch(trees[1])], barred);
      assert refs == [refs[0]] + [refs[1]] && BranchesOf(trees) == [Branch(trees[0])] + [Branch(trees[1])];
    } else {
      assert refs == [refs[0]] && BranchesOf(trees) == [Branch(trees[0])];
    }
  }

  lemma HalfRows(objects: map<Key, Object>, children: seq<ProducerRef>, level: nat, nextOffset: int, ts: seq<Tree>,
                 barred: set<Key>)
    requires Row(objects, children, level, nextOffset, ts, barred)
    ensures |Halves(children)| == |Halves(ts)|
    ensures forall i :: 0 <= i < |Halves(children)| ==>
      Row(objects, Halves(children)[i], level, nextOffset, Halves(ts)[i], barred)
  {
    hide Row;
    RowSize(objects, children, level, nextOffset, ts, barred);
    var m := |children| / 2;
    RowSlice(objects, children, level, nextOffset, ts, barred, 0, m);
    RowSlice(objects, children, level, nextOffset, ts, barred, m, |children|);
    assert children[0..m] == children[..m] && ts[0..m] == ts[..m];
    assert children[m..|children|] == children[m..] && ts[m..|children|] == ts[m..];
  }

  lemma HalvesSorted(ts: seq<Tree>)
    requires Sorted(StatesAll(ts))
    ensures forall i :: 0 <= i < |Halves(ts)| ==> Sorted(StatesAll(Halves(ts)[i]))
  {
    if |ts| > PAGE_ENTRIES {
      var a, b := ts[..|ts| / 2], ts[|ts| / 2..];
      assert ts == a + b;
      StatesAppend(a, b);
      var x, y := StatesAll(a), StatesAll(b);
      assert x + y == [] + x + y;
      SortedPart([], x, y);
    }
  }

  /** The halves of a spliced branch can be written. */
  lemma BranchesWritable(objects: map<Key, Object>, children: seq<ProducerRef>, level: nat, nextOffset: int, ts: seq<Tree>,
                         barred: set<Key>)
    requires Row(objects, children, level, nextOffset, ts, barred) && Sorted(StatesAll(ts)) && level < MAX_LEVEL
    requires AllShaped(BranchesOf(Halves(ts)), level + 1)
    ensures AllWritable(BranchPages(Halves(children)), nextOffset)
  {
    hide Row, Writable;
    HalfRows(objects, children, level, nextOffset, ts, barred);
    HalvesSorted(ts);
    var halves, trees := Halves(children), Halves(ts);
    forall i | 0 <= i < |halves| ensures Writable(ProducerBranch(halves[i]), nextOffset) {
      assert Shaped(BranchesOf(trees)[i], level + 1);
      RowSize(objects, halves[i], level, nextOffset, trees[i], barred);
      BranchWritable(objects, halves[i], level, nextOffset, trees[i], barred);
    }
  }

  /** The refs denote the pages that replace `done`, the page the path leads to. */
  ghost predicate Replacing(objects: map<Key, Object>, path: seq<Step>, refs: seq<ProducerRef>, level: nat, nextOffset: int,
                         top: Tree, done: Tree, st: ProducerState, barred: set<Key>)
  {
    && Row(objects, refs, level, nextOffset, UpdateNode(done, st), barred)
    && Trail(objects, path, level, nextOffset, top, done, st.id, barred)
  }

  function SpliceRefs(step: Step, refs: seq<ProducerRef>): seq<ProducerRef>
    requires step.position < |step.children|
  {
    step.children[..step.position] + refs + step.children[step.position + 1..]
  }

  ghost function Parent(objects: map<Key, Object>, path: seq<Step>, nextOffset: int): Tree {
    if path != [] && AllSound(objects, path[|path| - 1].children, nextOffset)
    then Branch(LoadAll(objects, path[|path| - 1].children, nextOffset)) else Leaf([])
  }

  /** One step up: the parent's children with the new pages in place of the old one. */
  lemma RiseRow(objects: map<Key, Object>, path: seq<Step>, refs: seq<ProducerRef>, level: nat, nextOffset: int, top: Tree,
                done: Tree, st: ProducerState, barred: set<Key>)
    requires Replacing(objects, path, refs, level, nextOffset, top, done, st, barred)
    requires path != [] && InRange(path)
    ensures var node := Parent(objects, path, nextOffset);
      && node.Branch? && WellFormed(node, level + 1) && Position(node.children, st.id) < |node.children|
      && Trail(objects, path[..|path| - 1], level + 1, nextOffset, top, node, st.id, barred)
      && var grown := Splice(node.children, Position(node.children, st.id), UpdateNode(done, st));
      && Row(objects, SpliceRefs(path[|path| - 1], refs), level, nextOffset, grown, barred)
      && UpdateNode(node, st) == BranchesOf(Halves(grown))
  {
    hide WellFormed, Row, Position, UpdateNode;
    var step := path[|path| - 1];
    var kids := LoadAll(objects, step.children, nextOffset);
    SplicedRow(objects, step, refs, level, nextOffset, kids, UpdateNode(done, st), barred);
    UpdateBranch(kids, st);
  }

  lemma UpdateBranch(kids: seq<Tree>, st: ProducerState)
    requires kids != []
    ensures var n := Position(kids, st.id);
      UpdateNode(Branch(kids), st) == BranchesOf(Halves(Splice(kids, n, UpdateNode(kids[n], st))))
  {
    hide Halves, Splice, Position;
  }

  lemma SplicedRow(objects: map<Key, Object>, step: Step, refs: seq<ProducerRef>, level: nat, nextOffset: int,
                   kids: seq<Tree>, ts: seq<Tree>, barred: set<Key>)
    requires Row(objects, step.children, level, nextOffset, kids, barred)
    requires Row(objects, refs, level, nextOffset, ts, barred)
    requires step.position < |step.children| == |kids|
    ensures Row(objects, SpliceRefs(step, refs), level, nextOffset, Splice(kids, step.position, ts), barred)
  {
    hide Row;
    var n := step.position;
    RowSlice(objects, step.children, level, nextOffset, kids, barred, 0, n);
    RowSlice(objects, step.children, level, nextOffset, kids, barred, n + 1, |step.children|);
    assert step.children[0..n] == step.children[..n] && kids[0..n] == kids[..n];
    assert step.children[n + 1..|step.children|] == step.children[n + 1..] && kids[n + 1..|kids|] == kids[n + 1..];
    RowJoin(objects, step.children[..n], refs, level, nextOffset, kids[..n], ts, barred);
    RowJoin(objects, step.children[..n] + refs, step.children[n + 1..], level, nextOffset,
            kids[..n] + ts, kids[n + 1..], barred);
  }

  lemma GrownSorted(node: Tree, level: nat, st: ProducerState, grown: seq<Tree>)
    requires WellFormed(node, level) && UpdateNode(node, st) == BranchesOf(Halves(grown))
    ensures Sorted(StatesAll(grown)) && AllShaped(BranchesOf(Halves(grown)), level)
  {
    hide UpdateNode, Halves, BranchesOf;
    UpdateNodeStates(node, level, st);
    UpdateNodeShaped(node, level, st);
    UpsertSorted(States(node), st);
    HalvesStates(grown);
  }

  lemma RiseWritable(objects: map<Key, Object>, path: seq<Step>, refs: seq<ProducerRef>, level: nat, nextOffset: int,
                     top: Tree, done: Tree, st: ProducerState, barred: set<Key>)
    requires Replacing(objects, path, refs, level, nextOffset, top, done, st, barred)
    requires path != [] && InRange(path) && level < MAX_LEVEL
    ensures AllWritable(BranchPages(Halves(SpliceRefs(path[|path| - 1], refs))), nextOffset)
  {
    hide Replacing, Row, Trail, WellFormed, Parent, SpliceRefs, Halves, AllWritable;
    RiseRow(objects, path, refs, level, nextOffset, top, done, st, barred);
    var node := Parent(objects, path, nextOffset);
    var grown := Splice(node.children, Position(node.children, st.id), UpdateNode(done, st));
    GrownSorted(node, level + 1, st, grown);
    BranchesWritable(objects, SpliceRefs(path[|path| - 1], refs), level, nextOffset, grown, barred);
  }

  lemma Rise(before: map<Key, Object>, after: map<Key, Object>, low: nat, path: seq<Step>, refs: seq<ProducerRef>,
             level: nat, nextOffset: int, top: Tree, done: Tree, st: ProducerState, barred: set<Key>, next: seq<ProducerRef>)
    requires Replacing(before, path, refs, level, nextOffset, top, done, st, barred) && Extends(before, after)
    requires path != [] && InRange(path)
    requires Stored(after, low, BranchPages(Halves(SpliceRefs(path[|path| - 1], refs))), nextOffset, next)
    requires forall k :: k in barred ==> k.id < low
    ensures Replacing(after, path[..|path| - 1], next, level + 1, nextOffset, top, Parent(before, path, nextOffset), st, barred)
  {
    hide Row, Trail, WellFormed, Parent, SpliceRefs, Halves, Stored;
    RiseRow(before, path, refs, level, nextOffset, top, done, st, barred);
    var node := Parent(before, path, nextOffset);
    var grown := Splice(node.children, Position(node.children, st.id), UpdateNode(done, st));
    var children := SpliceRefs(path[|path| - 1], refs);
    RowFrame(before, after, children, level, nextOffset, grown, barred);
    TrailFrame(before, after, path[..|path| - 1], level + 1, nextOffset, top, node, st.id, barred);
    BranchesStored(after, low, children, level, nextOffset, grown, next, barred);
  }

  // -------------------------------------------------------------- the update

  ghost predicate DirectorySound(objects: map<Key, Object>, root: Option<ProducerRef>, nextOffset: int) {
    root.Some? ==> Sound(objects, root.value, nextOffset) && WellFormed(Load(objects, root.value, nextOffset), root.value.level)
  }

  ghost function Directory(objects: map<Key, Object>, root: Option<ProducerRef>, nextOffset: int): Option<Tree>
    requires DirectorySound(objects, root, nextOffset)
  {
    if root.None? then None else Some(Load(objects, root.value, nextOffset))
  }

  ghost function DirectoryKeys(objects: map<Key, Object>, root: Option<ProducerRef>, nextOffset: int): set<Key>
    requires DirectorySound(objects, root, nextOffset)
  {
    if root.None? then {} else Keys(objects, root.value, nextOffset)
  }

  lemma DirectoryFrame(before: map<Key, Object>, after: map<Key, Object>, root: Option<ProducerRef>, low: int, high: int)
    requires DirectorySound(before, root, low) && Extends(before, after) && low <= high
    ensures DirectorySound(after, root, high)
    ensures Directory(after, root, high) == Directory(before, root, low)
    ensures DirectoryKeys(after, root, high) == DirectoryKeys(before, root, low)
  {
    if root.Some? {
      SoundFrame(before, after, root.value, low, high);
    }
  }

  /** The new directory is the old one with one state set, and reaches no older page the old one did not. */
  ghost predicate Updated(before: map<Key, Object>, root: Option<ProducerRef>, after: map<Key, Object>, result: ProducerRef,
                          st: ProducerState, nextOffset: int)
    requires DirectorySound(before, root, nextOffset)
  {
    && DirectorySound(after, Some(result), nextOffset)
    && Directory(after, Some(result), nextOffset) == Some(Update(Directory(before, root, nextOffset), st))
    && DirectoryKeys(after, Some(result), nextOffset) <= DirectoryKeys(before, root, nextOffset) + Created(before, after)
  }

  /** The path to the leaf an update changes, and the states of that leaf. */
  ghost predicate Found(objects: map<Key, Object>, root: Option<ProducerRef>, nextOffset: int, id: int, path: seq<Step>,
                        producers: seq<ProducerState>)
  {
    && Trail(objects, path, 0, nextOffset, Start(objects, root, nextOffset), Leaf(producers), id,
             Barred(objects, root, nextOffset))
    && Sorted(producers) && |producers| <= PAGE_ENTRIES && StatesOk(producers, nextOffset)
    && |path| == Height(root) <= MAX_LEVEL
  }

  /** A page the descent has reached belongs to the directory. */
  lemma ReachedLost(objects: map<Key, Object>, root: Option<ProducerRef>, path: seq<Step>, r: ProducerRef, nextOffset: int,
                    id: int, gone: set<Key>)
    requires DirectorySound(objects, root, nextOffset)
    requires Reached(objects, path, r, nextOffset, Start(objects, root, nextOffset), id, Barred(objects, root, nextOffset))
    requires Holds(objects, r, nextOffset) && r.key in gone
    ensures LostPage(DirectoryKeys(objects, root, nextOffset), gone)
  {
    hide DirectorySound, DirectoryKeys, WellFormed, Trail;
    var barred := Barred(objects, root, nextOffset);
    assert [r][0] == r;
    assert r.key in Keys(objects, r, nextOffset) && r.key !in barred && r.key.ProducerKey?;
    assert r.key in DirectoryKeys(objects, root, nextOffset);
  }

  /**
   * The first loop of the update: pages are only read, and the descent ends on any contents. In a
   * directory that was ever sound it fails only if a page of it was collected.
   */
  method Locate(store: ObjectStore, root: Option<ProducerRef>, id: int, nextOffset: int)
    returns (r: Result<(seq<Step>, seq<ProducerState>)>)
    requires store.Valid()
    modifies store`gets
    ensures r.Ok? ==> InRange(r.value.0)
    ensures DirectorySound(store.ever, root, nextOffset) ==>
      && (r.Err? ==> r.error == NotFound && LostPage(DirectoryKeys(store.ever, root, nextOffset), store.Gone()))
      && (r.Ok? ==> Found(store.ever, root, nextOffset, id, r.value.0, r.value.1))
  {
    hide Trail, Reached, DirectorySound, DirectoryKeys, Barred, Start, Holds, StatesOk, ObjectStore.Gone, LostPage;
    ghost var start := store.ever;
    ghost var sound := DirectorySound(start, root, nextOffset);
    ghost var barred := Barred(start, root, nextOffset);
    ghost var top := Start(start, root, nextOffset);
    var path: seq<Step> := [];
    var cursor := root;
    var producers: seq<ProducerState> := [];
    if sound {
      Begin(start, root, nextOffset, id);
    }
    ghost var height := Height(root);
    while cursor.Some?
      invariant InRange(path)
      invariant sound && cursor.Some? ==>
        && Reached(start, path, cursor.value, nextOffset, top, id, barred)
        && cursor.value.level + |path| == height
      invariant sound && cursor.None? ==> Found(start, root, nextOffset, id, path, producers)
      decreases cursor.Some?, if cursor.Some? then cursor.value.level else 0
    {
      var reference := cursor.value;
      if sound {
        Descend(start, path, reference, nextOffset, top, id, barred);
      }
      var page := ReadProducerPage(store, reference, nextOffset);
      if page.Err? {
        if sound {
          ReachedLost(start, root, path, reference, nextOffset, id, store.Gone());
        }
        return Err(page.error);
      }
      SamePage(store.objects, start, reference, nextOffset);
      PageLevels(start, reference, nextOffset);
      match page.value {
        case ProducerLeaf(states) =>
          producers := states;
          cursor := None;
          LeafSize(start, reference, nextOffset);
          if sound {
            LeafReached(start, path, reference, nextOffset, top, id, barred);
          }
        case ProducerBranch(children) =>
          var position := ChildAt(children, id);
          cursor := Some(children[position]);
          path := path + [Step(children, position)];
      }
    }
    r := Ok((path, producers));
  }

  /** The second loop of the update: the changed leaf, then every page on the path, bottom up. */
  method WriteBack(store: ObjectStore, ghost root: Option<ProducerRef>, path: seq<Step>, producers: seq<ProducerState>,
                   st: ProducerState, nextOffset: int)
    returns (r: Result<seq<ProducerRef>>, ghost done: Tree)
    requires store.Valid() && InRange(path)
    modifies store
    ensures store.Valid() && store.nextId >= old(store.nextId)
    ensures IndexWriter.Grew(old(store.ever), old(store.nextId), store.ever)
    ensures store.Gone() == old(store.Gone())
    ensures r.Ok? ==> 1 <= |r.value| <= 2
    ensures ProducerWindow.StateOk(st, nextOffset) && Found(old(store.ever), root, nextOffset, st.id, path, producers) ==>
      && r.Ok?
      && Replacing(store.ever, [], r.value, Height(root), nextOffset, Start(old(store.ever), root, nextOffset), done,
                   st, Barred(old(store.ever), root, nextOffset))
  {
    hide Trail, Replacing, DirectorySound, Stored, Halves, ProducerWindow.StateOk, SpliceRefs, Parent, AllWritable, Upsert,
      Writable, StatesOk, Start, Barred, ObjectStore.Gone;
    ghost var start, low := store.ever, store.nextId;
    ghost var sound := ProducerWindow.StateOk(st, nextOffset) && Found(start, root, nextOffset, st.id, path, producers);
    ghost var barred, top, height := Barred(start, root, nextOffset), Start(start, root, nextOffset), Height(root);
    BarredBelow(start, root, nextOffset, low);
    if sound {
      LeafPagesReady(producers, st, nextOffset);
    }
    done := Leaf(producers);
    var written := WriteAll(store, LeafPages(Halves(Upsert(producers, st))), nextOffset);
    if written.Err? {
      r := Err(written.error);
      return;
    }
    var refs, path := written.value, path;
    HalvesCount(Upsert(producers, st));
    ghost var level := 0;
    if sound {
      TrailFrame(start, store.ever, path, 0, nextOffset, top, done, st.id, barred);
      FirstRefs(store.ever, low, path, refs, nextOffset, top, done, st, barred);
    }
    while path != []
      invariant store.Valid() && store.nextId >= low
      invariant IndexWriter.Grew(start, low, store.ever)
      invariant store.Gone() == old(store.Gone())
      invariant InRange(path) && 1 <= |refs| <= 2
      invariant sound ==>
        && Replacing(store.ever, path, refs, level, nextOffset, top, done, st, barred)
        && level + |path| == height
      decreases |path|
    {
      ghost var before, mid := store.ever, store.nextId;
      var step := path[|path| - 1];
      if sound {
        RiseWritable(before, path, refs, level, nextOffset, top, done, st, barred);
      }
      var children := SpliceRefs(step, refs);
      written := WriteAll(store, BranchPages(Halves(children)), nextOffset);
      if written.Err? {
        r := Err(written.error);
        return;
      }
      if sound {
        Rise(before, store.ever, mid, path, refs, level, nextOffset, top, done, st, barred, written.value);
        done := Parent(before, path, nextOffset);
      }
      HalvesCount(children);
      refs := written.value;
      path := path[..|path| - 1];
      level := level + 1;
    }
    r := Ok(refs);
  }

  ghost function Height(root: Option<ProducerRef>): nat {
    if root.Some? then root.value.level else 0
  }

  lemma BarredBelow(objects: map<Key, Object>, root: Option<ProducerRef>, nextOffset: int, low: nat)
    requires forall k :: k in objects ==> k.id < low
    ensures forall k :: k in Barred(objects, root, nextOffset) ==> k.id < low
  {
  }

  method UpdateProducer(store: ObjectStore, root: Option<ProducerRef>, st: ProducerState, nextOffset: int)
    returns (r: Result<ProducerRef>)
    requires store.Valid()
    modifies store
    ensures store.Valid() && store.nextId >= old(store.nextId)
    ensures IndexWriter.Grew(old(store.ever), old(store.nextId), store.ever)
    ensures store.Gone() == old(store.Gone())
    ensures DirectorySound(old(store.ever), root, nextOffset) && ProducerWindow.StateOk(st, nextOffset) ==>
      && (r.Err? ==> r.error == NotFound && LostPage(DirectoryKeys(old(store.ever), root, nextOffset), store.Gone()))
      && (r.Ok? ==> Updated(old(store.ever), root, store.ever, r.value, st, nextOffset))
  {
    hide Trail, Replacing, DirectorySound, Updated, Stored, Halves, ProducerWindow.StateOk, SpliceRefs, Parent,
      AllWritable, Upsert, Writable, StatesOk, ObjectStore.Gone, LostPage, DirectoryKeys;
    ghost var start, low := store.ever, store.nextId;
    ghost var sound := DirectorySound(start, root, nextOffset) && ProducerWindow.StateOk(st, nextOffset);
    ghost var barred := Barred(start, root, nextOffset);
    ghost var top := Start(start, root, nextOffset);
    ghost var height := Height(root);
    var found := Locate(store, root, st.id, nextOffset);
    if found.Err? {
      return Err(found.error);
    }
    var (path, producers) := found.value;
    var written, done := WriteBack(store, root, path, producers, st, nextOffset);
    if written.Err? {
      return Err(written.error);
    }
    var refs := written.value;
    if |refs| == 1 {
      r := Ok(refs[0]);
      if sound {
        FinishOne(start, root, store.ever, refs, height, nextOffset, top, done, st);
      }
    } else {
      ghost var before, mid := store.ever, store.nextId;
      if sound {
        TopWritable(start, root, before, refs, height, nextOffset, top, done, st);
      }
      r := WriteProducerPage(store, ProducerBranch(refs), nextOffset);
      if sound {
        FinishTop(start, root, before, store.ever, refs, height, nextOffset, top, done, st, ProducerKey(mid));
      }
    }
  }

  lemma HalvesCount<T>(entries: seq<T>)
    ensures 1 <= |Halves(entries)| <= 2
  {
  }

  lemma LeafPagesReady(producers: seq<ProducerState>, st: ProducerState, nextOffset: int)
    requires Sorted(producers) && |producers| <= PAGE_ENTRIES && StatesOk(producers, nextOffset)
    requires ProducerWindow.StateOk(st, nextOffset)
    ensures AllWritable(LeafPages(Halves(Upsert(producers, st))), nextOffset)
  {
    hide AllWritable, StatesOk, ProducerWindow.StateOk, Halves;
    UpsertOk(producers, st, nextOffset);
    UpsertSorted(producers, st);
    UpsertSize(producers, st);
    LeavesWritable(Upsert(producers, st), nextOffset);
  }

  lemma UpsertSize(ss: seq<ProducerState>, st: ProducerState)
    ensures 1 <= |Upsert(ss, st)| <= |ss| + 1
  {
    RankRange(ss, st.id);
  }

  lemma FirstRefs(objects: map<Key, Object>, low: nat, path: seq<Step>, refs: seq<ProducerRef>, nextOffset: int, top: Tree,
                  done: Tree, st: ProducerState, barred: set<Key>)
    requires done.Leaf? && Trail(objects, path, 0, nextOffset, top, done, st.id, barred)
    requires Stored(objects, low, LeafPages(Halves(Upsert(done.states, st))), nextOffset, refs)
    requires forall k :: k in barred ==> k.id < low
    ensures Replacing(objects, path, refs, 0, nextOffset, top, done, st, barred)
  {
    hide Trail, Row, Stored, Halves, Upsert;
    LeavesStored(objects, low, Upsert(done.states, st), nextOffset, refs, barred);
  }

  /** What the root page was replaced by. */
  lemma Replaced(start: map<Key, Object>, root: Option<ProducerRef>, objects: map<Key, Object>, refs: seq<ProducerRef>,
                 height: nat, nextOffset: int, top: Tree, done: Tree, st: ProducerState)
    requires DirectorySound(start, root, nextOffset) && top == Start(start, root, nextOffset)
    requires height == Height(root)
    requires Replacing(objects, [], refs, height, nextOffset, top, done, st, Barred(start, root, nextOffset))
    ensures 1 <= |refs| <= 2 && |UpdateNode(top, st)| == |refs|
    ensures Row(objects, refs, height, nextOffset, UpdateNode(top, st), Barred(start, root, nextOffset))
    ensures var t := Update(Directory(start, root, nextOffset), st);
      && t == Top(UpdateNode(top, st))
      && WellFormed(t, if |refs| == 1 then height else height + 1)
  {
    hide WellFormed, Keys, Sound, Load, Row, UpdateNode;
    UpdateCorrect(Directory(start, root, nextOffset), height, st);
    UpdateNodePages(top, st);
    RowSize(objects, refs, height, nextOffset, UpdateNode(top, st), Barred(start, root, nextOffset));
    FirstPage(st);
  }

  lemma FirstPage(st: ProducerState)
    ensures UpdateNode(Leaf([]), st) == [Leaf([st])]
  {
    assert Upsert([], st) == [st];
  }

  lemma FinishOne(start: map<Key, Object>, root: Option<ProducerRef>, after: map<Key, Object>, refs: seq<ProducerRef>,
                  height: nat, nextOffset: int, top: Tree, done: Tree, st: ProducerState)
    requires DirectorySound(start, root, nextOffset) && top == Start(start, root, nextOffset)
    requires height == Height(root)
    requires |refs| == 1
    requires Replacing(after, [], refs, height, nextOffset, top, done, st, Barred(start, root, nextOffset))
    ensures Updated(start, root, after, refs[0], st, nextOffset)
  {
    hide DirectorySound, Replacing, Row, Start, WellFormed, Update, Updated, UpdateNode;
    Replaced(start, root, after, refs, height, nextOffset, top, done, st);
    assert refs == [refs[0]];
    Finish(start, root, after, refs[0], height, nextOffset, UpdateNode(top, st), st);
  }

  lemma Finish(start: map<Key, Object>, root: Option<ProducerRef>, after: map<Key, Object>, result: ProducerRef, level: nat,
               nextOffset: int, ts: seq<Tree>, st: ProducerState)
    requires DirectorySound(start, root, nextOffset) && |ts| == 1
    requires Row(after, [result], level, nextOffset, ts, Barred(start, root, nextOffset))
    requires ts[0] == Update(Directory(start, root, nextOffset), st) && WellFormed(ts[0], level)
    ensures Updated(start, root, after, result, st, nextOffset)
  {
    hide WellFormed, Update;
    assert [result][0] == result;
    assert LoadAll(after, [result], nextOffset)[0] == Load(after, result, nextOffset);
    forall k | k in Keys(after, result, nextOffset)
      ensures k in DirectoryKeys(start, root, nextOffset) || k in Created(start, after)
    {
      KeysPresent(after, result, nextOffset, k);
      assert k !in Barred(start, root, nextOffset);
    }
  }

  lemma {:induction false} KeysPresent(objects: map<Key, Object>, r: ProducerRef, nextOffset: int, k: Key)
    requires Sound(objects, r, nextOffset) && k in Keys(objects, r, nextOffset)
    ensures k in objects && k.ProducerKey?
    decreases r.level
  {
    if k != r.key {
      LoadBranch(objects, r, nextOffset);
      var c := objects[r.key].producerPage.children;
      IndexPages.UnionHas(KeysAll(objects, c, nextOffset), k);
      var i :| 0 <= i < |c| && k in KeysAll(objects, c, nextOffset)[i];
      KeysPresent(objects, c[i], nextOffset, k);
    }
  }

  lemma {:induction false} AllStatesOk(objects: map<Key, Object>, refs: seq<ProducerRef>, level: nat, nextOffset: int,
                                       ts: seq<Tree>, barred: set<Key>)
    requires Row(objects, refs, level, nextOffset, ts, barred)
    ensures StatesOk(StatesAll(ts), nextOffset)
    decreases |refs|
  {
    hide Sound, Load, Keys, ProducerWindow.StateOk, States;
    if refs != [] {
      var n := |refs| - 1;
      SplitLast(ts);
      SoundShaped(objects, refs[n], nextOffset);
      RowSlice(objects, refs, level, nextOffset, ts, barred, 0, n);
      assert ts[0..n] == ts[..n];
      AllStatesOk(objects, refs[0..n], level, nextOffset, ts[..n], barred);
    }
  }

  lemma TopWritable(start: map<Key, Object>, root: Option<ProducerRef>, after: map<Key, Object>, refs: seq<ProducerRef>,
                    height: nat, nextOffset: int, top: Tree, done: Tree, st: ProducerState)
    requires DirectorySound(start, root, nextOffset) && top == Start(start, root, nextOffset)
    requires height == Height(root)
    requires |refs| == 2
    requires Replacing(after, [], refs, height, nextOffset, top, done, st, Barred(start, root, nextOffset))
    ensures Writable(ProducerBranch(refs), nextOffset)
  {
    hide DirectorySound, Replacing, Row, Start, Update, UpdateNode, Shaped, FilledRoot, Sorted, ProducerWindow.StateOk;
    Replaced(start, root, after, refs, height, nextOffset, top, done, st);
    var barred, pages := Barred(start, root, nextOffset), UpdateNode(top, st);
    AllStatesOk(after, refs, height, nextOffset, pages, barred);
    IdRange(StatesAll(pages), nextOffset);
    LevelBound(Branch(pages), height + 1);
    BranchWritable(after, refs, height, nextOffset, pages, barred);
  }

  lemma FinishTop(start: map<Key, Object>, root: Option<ProducerRef>, before: map<Key, Object>, after: map<Key, Object>,
                  refs: seq<ProducerRef>, height: nat, nextOffset: int, top: Tree, done: Tree, st: ProducerState, key: Key)
    requires DirectorySound(start, root, nextOffset) && top == Start(start, root, nextOffset)
    requires height == Height(root)
    requires |refs| == 2
    requires Replacing(before, [], refs, height, nextOffset, top, done, st, Barred(start, root, nextOffset))
    requires Extends(before, after) && Writable(ProducerBranch(refs), nextOffset)
    requires key.ProducerKey? && key !in Barred(start, root, nextOffset)
    requires key in after && after[key] == ProducerObject(ProducerBranch(refs))
    ensures Updated(start, root, after, RefTo(key, Describe(ProducerBranch(refs))), st, nextOffset)
  {
    hide DirectorySound, Replacing, Row, Start, WellFormed, Update, Updated, UpdateNode, Writable, RefTo, Describe;
    Replaced(start, root, before, refs, height, nextOffset, top, done, st);
    var barred, pages := Barred(start, root, nextOffset), UpdateNode(top, st);
    RowFrame(before, after, refs, height, nextOffset, pages, barred);
    BranchWritten(after, refs, height, nextOffset, pages, key, barred);
    Finish(start, root, after, RefTo(key, Describe(ProducerBranch(refs))), height + 1, nextOffset, [Branch(pages)], st);
  }

  ghost function Barred(objects: map<Key, Object>, root: Option<ProducerRef>, nextOffset: int): set<Key> {
    if DirectorySound(objects, root, nextOffset) then objects.Keys - DirectoryKeys(objects, root, nextOffset) else {}
  }

  ghost function Start(objects: map<Key, Object>, root: Option<ProducerRef>, nextOffset: int): Tree {
    if root.None? then Leaf([]) else Load1(objects, root.value, nextOffset)
  }

  lemma Begin(objects: map<Key, Object>, root: Option<ProducerRef>, nextOffset: int, id: int)
    requires DirectorySound(objects, root, nextOffset)
    ensures root.Some? ==>
      Reached(objects, [], root.value, nextOffset, Start(objects, root, nextOffset), id, Barred(objects, root, nextOffset))
    ensures root.Some? ==> root.value.level <= MAX_LEVEL
    ensures root.None? ==> Found(objects, root, nextOffset, id, [], [])
  {
  }

  lemma LeafSize(objects: map<Key, Object>, r: ProducerRef, nextOffset: int)
    requires Holds(objects, r, nextOffset) && objects[r.key].producerPage.ProducerLeaf?
    ensures var s := objects[r.key].producerPage.producers;
      1 <= |s| <= PAGE_ENTRIES && Sorted(s) && StatesOk(s, nextOffset)
  {
    RisingSorted(objects[r.key].producerPage.producers);
  }

  lemma LeafReached(objects: map<Key, Object>, path: seq<Step>, r: ProducerRef, nextOffset: int, top: Tree, id: int,
                    barred: set<Key>)
    requires Reached(objects, path, r, nextOffset, top, id, barred) && Holds(objects, r, nextOffset)
    requires objects[r.key].producerPage.ProducerLeaf?
    ensures r.level == 0
    ensures Trail(objects, path, 0, nextOffset, top, Leaf(objects[r.key].producerPage.producers), id, barred)
  {
    AtLeaf(objects, path, r, nextOffset, top, id, barred);
  }
}
