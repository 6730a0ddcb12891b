/** The complete trace of the producer directory (src/log/producer.rs:474-493). */
module ProducerTrace {
  import opened LogTypes
  import opened ObjectStores
  import opened ProducerPages
  import IndexPages
  import IndexTree
  import FiniteSets
  import IndexWriter
  import IndexScan

  // -------------------------------------------------------------- termination on any contents

  function StackWork(stack: seq<ProducerRef>): nat {
    if stack == [] then 0 else StackWork(stack[..|stack| - 1]) + IndexScan.Pow65(stack[|stack| - 1].level)
  }

  lemma {:induction false} StackWorkAppend(a: seq<ProducerRef>, b: seq<ProducerRef>)
    ensures StackWork(a + b) == StackWork(a) + StackWork(b)
    decreases |b|
  {
    if b == [] {
      assert a + b == a;
    } else {
      assert (a + b)[..|a + b| - 1] == a + b[..|b| - 1];
      StackWorkAppend(a, b[..|b| - 1]);
    }
  }

  lemma {:induction false} StackWorkLevel(refs: seq<ProducerRef>, level: nat)
    requires forall i :: 0 <= i < |refs| ==> refs[i].level == level
    ensures StackWork(refs) == |refs| * IndexScan.Pow65(level)
  {
    if refs != [] {
      StackWorkLevel(refs[..|refs| - 1], level);
      assert (|refs| - 1) * IndexScan.Pow65(level) + IndexScan.Pow65(level) == |refs| * IndexScan.Pow65(level);
    }
  }

  /** Replacing a page by its children lowers the work, whatever the store holds. */
  lemma StackShrinks(rest: seq<ProducerRef>, page: ProducerRef, children: seq<ProducerRef>)
    requires |children| <= PAGE_ENTRIES && page.level > 0
    requires forall i :: 0 <= i < |children| ==> children[i].level == page.level - 1
    ensures StackWork(rest + children) < StackWork(rest + [page])
  {
    StackWorkAppend(rest, children);
    StackWorkAppend(rest, [page]);
    StackWorkLevel(children, page.level - 1);
    StackWorkLevel([page], page.level);
    IndexScan.Pow65Positive(page.level - 1);
    IndexTree.MulMonotone(|children|, 64, IndexScan.Pow65(page.level - 1));
  }

  lemma StackPop(rest: seq<ProducerRef>, page: ProducerRef)
    ensures StackWork(rest) < StackWork(rest + [page])
  {
    StackWorkAppend(rest, [page]);
    StackWorkLevel([page], page.level);
    IndexScan.Pow65Positive(page.level);
  }

  // -------------------------------------------------------------- what is left on the stack

  ghost function RootKeys(objects: map<Key, Object>, root: Option<ProducerRef>, nextOffset: int): set<Key>
    requires root.Some? ==> Sound(objects, root.value, nextOffset)
  {
    if root.None? then {} else Keys(objects, root.value, nextOffset)
  }

  /** If what is on the stack is sound, so is the root, and its keys are those seen and those below the stack. */
  ghost predicate Walking(objects: map<Key, Object>, root: Option<ProducerRef>, nextOffset: int, stack: seq<ProducerRef>,
                          seen: set<Key>)
  {
    AllSound(objects, stack, nextOffset) ==>
      && (root.Some? ==> Sound(objects, root.value, nextOffset))
      && RootKeys(objects, root, nextOffset) == seen + IndexPages.Union(KeysAll(objects, stack, nextOffset))
  }

  ghost predicate StillSound(objects: map<Key, Object>, root: Option<ProducerRef>, nextOffset: int, stack: seq<ProducerRef>) {
    && (root.None? ==> stack == [])
    && (root.Some? && Sound(objects, root.value, nextOffset) ==> AllSound(objects, stack, nextOffset))
  }

  lemma WalkStart(objects: map<Key, Object>, root: Option<ProducerRef>, nextOffset: int)
    ensures var stack := if root.Some? then [root.value] else [];
      Walking(objects, root, nextOffset, stack, {}) && StillSound(objects, root, nextOffset, stack)
  {
    if root.Some? && AllSound(objects, [root.value], nextOffset) {
      assert Sound(objects, [root.value][0], nextOffset);
      assert KeysAll(objects, [root.value], nextOffset) == [] + [Keys(objects, root.value, nextOffset)];
      IndexWriter.UnionSnoc([], Keys(objects, root.value, nextOffset));
    }
  }

  lemma {:induction false} UnionAppend(a: seq<set<Key>>, b: seq<set<Key>>)
    ensures IndexPages.Union(a + b) == IndexPages.Union(a) + IndexPages.Union(b)
    decreases |b|
  {
    if b == [] {
      assert a + b == a;
    } else {
      assert (a + b)[..|a + b| - 1] == a + b[..|b| - 1];
      UnionAppend(a, b[..|b| - 1]);
    }
  }

  lemma StackKeys(objects: map<Key, Object>, rest: seq<ProducerRef>, below: seq<ProducerRef>, nextOffset: int)
    requires AllSound(objects, rest, nextOffset) && AllSound(objects, below, nextOffset)
    ensures AllSound(objects, rest + below, nextOffset)
    ensures IndexPages.Union(KeysAll(objects, rest + below, nextOffset))
      == IndexPages.Union(KeysAll(objects, rest, nextOffset)) + IndexPages.Union(KeysAll(objects, below, nextOffset))
  {
    hide Sound, Keys;
    UnionAppend(KeysAll(objects, rest, nextOffset), KeysAll(objects, below, nextOffset));
    assert KeysAll(objects, rest + below, nextOffset)
      == KeysAll(objects, rest, nextOffset) + KeysAll(objects, below, nextOffset);
  }

  lemma StackSplit(objects: map<Key, Object>, rest: seq<ProducerRef>, below: seq<ProducerRef>, nextOffset: int)
    requires AllSound(objects, rest + below, nextOffset)
    ensures AllSound(objects, rest, nextOffset) && AllSound(objects, below, nextOffset)
  {
    hide Sound;
    var all := rest + below;
    assert forall i :: 0 <= i < |rest| ==> all[i] == rest[i];
    assert forall i :: 0 <= i < |below| ==> all[|rest| + i] == below[i];
  }

  /** The references a page adds to the stack. */
  function Below(page: ProducerPage): seq<ProducerRef> {
    match page
    case ProducerLeaf(_) => []
    case ProducerBranch(children) => children
  }

  lemma PageKeys(objects: map<Key, Object>, r: ProducerRef, nextOffset: int)
    requires Holds(objects, r, nextOffset) && AllSound(objects, Below(objects[r.key].producerPage), nextOffset)
    ensures Sound(objects, r, nextOffset)
    ensures Keys(objects, r, nextOffset)
      == {r.key} + IndexPages.Union(KeysAll(objects, Below(objects[r.key].producerPage), nextOffset))
  {
    PageLevels(objects, r, nextOffset);
    assert IndexPages.Union([]) == {};
    if objects[r.key].producerPage.ProducerBranch? {
      LoadBranch(objects, r, nextOffset);
    }
  }

  lemma WalkStep(objects: map<Key, Object>, root: Option<ProducerRef>, nextOffset: int, rest: seq<ProducerRef>,
                 r: ProducerRef, seen: set<Key>)
    requires Walking(objects, root, nextOffset, rest + [r], seen) && Holds(objects, r, nextOffset)
    ensures Walking(objects, root, nextOffset, rest + Below(objects[r.key].producerPage), seen + {r.key})
  {
    hide Sound, Keys, IndexPages.Union;
    var below := Below(objects[r.key].producerPage);
    if AllSound(objects, rest + below, nextOffset) {
      StackSplit(objects, rest, below, nextOffset);
      PageKeys(objects, r, nextOffset);
      StackKeys(objects, rest, below, nextOffset);
      assert AllSound(objects, [r], nextOffset);
      StackKeys(objects, rest, [r], nextOffset);
      IndexWriter.UnionSnoc([], Keys(objects, r, nextOffset));
      NoKeys();
      assert KeysAll(objects, [r], nextOffset) == [] + [Keys(objects, r, nextOffset)];
    }
  }

  lemma NoKeys()
    ensures IndexPages.Union([]) == {}
  {
  }

  lemma StillSoundStep(objects: map<Key, Object>, root: Option<ProducerRef>, nextOffset: int, rest: seq<ProducerRef>,
                       r: ProducerRef)
    requires StillSound(objects, root, nextOffset, rest + [r])
    ensures Holds(objects, r, nextOffset) ==>
      StillSound(objects, root, nextOffset, rest + Below(objects[r.key].producerPage))
    ensures !Holds(objects, r, nextOffset) ==> root.Some? && !Sound(objects, root.value, nextOffset)
  {
    if root.Some? && Sound(objects, root.value, nextOffset) {
      StackSplit(objects, rest, [r], nextOffset);
      assert Sound(objects, [r][0], nextOffset);
      if objects[r.key].producerPage.ProducerBranch? {
        LoadBranch(objects, r, nextOffset);
      }
      StackJoin(objects, rest, Below(objects[r.key].producerPage), nextOffset);
    }
  }

  lemma StackJoin(objects: map<Key, Object>, rest: seq<ProducerRef>, below: seq<ProducerRef>, nextOffset: int)
    requires AllSound(objects, rest, nextOffset) && AllSound(objects, below, nextOffset)
    ensures AllSound(objects, rest + below, nextOffset)
  {
    hide Sound;
  }

  lemma WalkEnd(objects: map<Key, Object>, root: Option<ProducerRef>, nextOffset: int, seen: set<Key>)
    requires Walking(objects, root, nextOffset, [], seen)
    ensures root.Some? ==> Sound(objects, root.value, nextOffset)
    ensures seen == RootKeys(objects, root, nextOffset)
  {
  }

  // -------------------------------------------------------------- no page twice

  /** The identifiers rise along the stack: the page on top comes last. */
  ghost predicate Ascends(stack: seq<ProducerRef>) {
    forall i, j :: 0 <= i < j < |stack| ==> stack[i].lastId < stack[j].firstId
  }

  /** A page on the stack lies below the level of a page seen before, or before its identifiers. */
  ghost predicate Apart(objects: map<Key, Object>, r: ProducerRef, k: Key, nextOffset: int) {
    && k.ProducerKey? && k in objects && objects[k].ProducerObject? && PageOk(objects[k].producerPage, nextOffset)
    && (r.level < Describe(objects[k].producerPage).level || r.lastId < Describe(objects[k].producerPage).firstId)
  }

  /** In a directory that was ever sound, no page still to come is one seen before. */
  ghost predicate Unseen(ever: map<Key, Object>, root: Option<ProducerRef>, nextOffset: int, stack: seq<ProducerRef>,
                         seen: set<Key>)
  {
    root.Some? && Sound(ever, root.value, nextOffset) ==>
      && AllSound(ever, stack, nextOffset) && Ascends(stack)
      && (forall k :: k in seen ==> k.ProducerKey?)
      && forall i, k :: 0 <= i < |stack| && k in seen ==> Apart(ever, stack[i], k, nextOffset)
  }

  lemma UnseenStart(ever: map<Key, Object>, root: Option<ProducerRef>, nextOffset: int)
    ensures Unseen(ever, root, nextOffset, if root.Some? then [root.value] else [], {})
  {
  }

  lemma UnseenTop(ever: map<Key, Object>, root: ProducerRef, nextOffset: int, rest: seq<ProducerRef>, r: ProducerRef,
                  seen: set<Key>)
    requires Sound(ever, root, nextOffset) && Unseen(ever, Some(root), nextOffset, rest + [r], seen)
    ensures Holds(ever, r, nextOffset) && r.key.ProducerKey? && r.key !in seen
  {
    var stack := rest + [r];
    assert stack[|rest|] == r && Sound(ever, stack[|rest|], nextOffset);
    assert r.key in seen ==> Apart(ever, stack[|rest|], r.key, nextOffset);
  }

  lemma UnseenNext(ever: map<Key, Object>, root: ProducerRef, nextOffset: int, rest: seq<ProducerRef>, r: ProducerRef,
                   seen: set<Key>)
    requires Sound(ever, root, nextOffset) && Unseen(ever, Some(root), nextOffset, rest + [r], seen)
    requires Holds(ever, r, nextOffset)
    ensures Unseen(ever, Some(root), nextOffset, rest + Below(ever[r.key].producerPage), seen + {r.key})
  {
    hide Sound, PageOk;
    var below := Below(ever[r.key].producerPage);
    var stack, next := rest + [r], rest + below;
    assert stack[|rest|] == r;
    assert forall i :: 0 <= i < |rest| ==> stack[i] == rest[i];
    BelowPage(ever, r, nextOffset);
    forall i | 0 <= i < |next| ensures Sound(ever, next[i], nextOffset) {
      assert i < |rest| ==> Sound(ever, stack[i], nextOffset);
    }
    forall i, j | 0 <= i < j < |next| ensures next[i].lastId < next[j].firstId {
      if i < |rest| {
        assert stack[i].lastId < r.firstId;
        assert j < |rest| ==> stack[i].lastId < stack[j].firstId;
      }
    }
    forall i, k | 0 <= i < |next| && k in seen + {r.key} ensures Apart(ever, next[i], k, nextOffset) {
      if k in seen {
        assert Apart(ever, stack[if i < |rest| then i else |rest|], k, nextOffset);
      } else {
        PageSeen(ever, r, nextOffset);
        assert i < |rest| ==> stack[i].lastId < r.firstId;
      }
    }
  }

  lemma PageSeen(ever: map<Key, Object>, r: ProducerRef, nextOffset: int)
    requires Holds(ever, r, nextOffset)
    ensures r.key.ProducerKey? && PageOk(ever[r.key].producerPage, nextOffset)
    ensures Describe(ever[r.key].producerPage).level == r.level
    ensures Describe(ever[r.key].producerPage).firstId == r.firstId
  {
  }

  lemma BelowPage(ever: map<Key, Object>, r: ProducerRef, nextOffset: int)
    requires Sound(ever, r, nextOffset)
    ensures var below := Below(ever[r.key].producerPage);
      && AllSound(ever, below, nextOffset)
      && (forall i :: 0 <= i < |below| ==>
            below[i].level < r.level && r.firstId <= below[i].firstId && below[i].lastId <= r.lastId)
      && forall i, j :: 0 <= i < j < |below| ==> below[i].lastId < below[j].firstId
  {
    if ever[r.key].producerPage.ProducerBranch? {
      var c := ever[r.key].producerPage.children;
      LoadBranch(ever, r, nextOffset);
      RefSummary(ever, r, nextOffset);
      SiblingOrder(c, r.level - 1);
    }
  }

  lemma {:induction false} SiblingOrder(children: seq<ProducerRef>, level: nat)
    requires children != [] && Siblings(children, level)
    ensures forall i :: 0 <= i < |children| ==>
      && children[i].level == level
      && children[0].firstId <= children[i].firstId <= children[i].lastId <= children[|children| - 1].lastId
    ensures forall i, j :: 0 <= i < j < |children| ==> children[i].lastId < children[j].firstId
  {
    var n := |children| - 1;
    if n > 0 {
      var front := children[..n];
      assert forall i :: 0 <= i < n ==> front[i] == children[i];
      SiblingsPrefix(children, n, level);
      SiblingOrder(front, level);
      assert children[n - 1].lastId < children[n].firstId;
      forall i, j | 0 <= i < j < |children| ensures children[i].lastId < children[j].firstId {
        if j == n && i < n - 1 {
          assert front[i].lastId < front[n - 1].firstId;
        } else if j < n {
          assert front[i].lastId < front[j].firstId;
        }
      }
    }
  }

  lemma NotSound(ever: map<Key, Object>, root: Option<ProducerRef>, nextOffset: int, stack: seq<ProducerRef>, seen: set<Key>)
    requires !(root.Some? && Sound(ever, root.value, nextOffset))
    ensures Unseen(ever, root, nextOffset, stack, seen)
  {
  }

  lemma UnseenEnd(ever: map<Key, Object>, root: Option<ProducerRef>, nextOffset: int, seen: set<Key>)
    requires Unseen(ever, root, nextOffset, [], seen) && (root.None? ==> seen == {})
    ensures (root.Some? ==> Sound(ever, root.value, nextOffset)) ==> forall k :: k in seen ==> k.ProducerKey?
  {
  }

  /** What was met and what is on top of the stack is part of the directory. */
  lemma TopCounted(ever: map<Key, Object>, root: ProducerRef, nextOffset: int, rest: seq<ProducerRef>, r: ProducerRef,
                   seen: set<Key>)
    requires Sound(ever, root, nextOffset) && Unseen(ever, Some(root), nextOffset, rest + [r], seen)
    requires Walking(ever, Some(root), nextOffset, rest + [r], seen)
    ensures seen + {r.key} <= RootKeys(ever, Some(root), nextOffset)
  {
    hide Sound, Keys;
    StackSplit(ever, rest, [r], nextOffset);
    StackKeys(ever, rest, [r], nextOffset);
    assert [r][0] == r;
    assert KeysAll(ever, [r], nextOffset) == [] + [Keys(ever, r, nextOffset)];
    IndexWriter.UnionSnoc([], Keys(ever, r, nextOffset));
    KeyOfTop(ever, r, nextOffset);
  }

  lemma KeyOfTop(objects: map<Key, Object>, r: ProducerRef, nextOffset: int)
    requires Sound(objects, r, nextOffset)
    ensures r.key in Keys(objects, r, nextOffset)
  {
  }

  /**
   * On success every page below the root was present and valid, and its keys joined the graph. In a
   * directory that was ever sound it never meets a page twice: it fails only on the budget or on a
   * missing page.
   */
  method TraceProducers(store: ObjectStore, root: Option<ProducerRef>, nextOffset: int, graph: IndexScan.LiveGraph,
                        maximum: nat)
    returns (r: Result<()>)
    requires Extends(store.objects, store.ever)
    modifies graph`objects, store`gets
    ensures r.Ok? && |old(graph.objects)| <= maximum ==> |graph.objects| <= maximum
    ensures r.Ok? ==>
      && (root.Some? ==> Sound(store.objects, root.value, nextOffset))
      && graph.objects == old(graph.objects) + RootKeys(store.objects, root, nextOffset)
    ensures r.Err? && r.error == NotFound ==> root.Some? && !Sound(store.objects, root.value, nextOffset)
    ensures (root.Some? ==> Sound(store.ever, root.value, nextOffset)) && (forall k :: k in old(graph.objects) ==> !k.ProducerKey?) ==>
      && (r.Err? ==> r.error in {MaintenanceBudget, NotFound})
      && (r.Err? && r.error == MaintenanceBudget ==>
            |old(graph.objects) + RootKeys(store.ever, root, nextOffset)| > maximum)
      && (r.Ok? ==> forall k :: k in graph.objects ==> k in old(graph.objects) || k.ProducerKey?)
  {
    hide Sound, Holds, Walked, StackWork, RootKeys, Below;
    ghost var ever := store.ever;
    var pending: seq<ProducerRef> := if root.Some? then [root.value] else [];
    ghost var seen: set<Key> := {};
    WalkedStart(store.objects, ever, root, nextOffset);
    while pending != []
      invariant Walked(store.objects, ever, root, nextOffset, pending, seen)
      invariant graph.objects == old(graph.objects) + seen
      invariant |old(graph.objects)| <= maximum ==> |graph.objects| <= maximum
      decreases StackWork(pending)
    {
      var rest, reference := pending[..|pending| - 1], pending[|pending| - 1];
      assert pending == rest + [reference];
      WalkedTop(store.objects, ever, root, nextOffset, rest, reference, seen);
      var inserted := graph.Insert(reference.key, maximum);
      if inserted.Err? {
        if Sound(ever, root.value, nextOffset) && reference.key !in old(graph.objects) {
          FiniteSets.OneMore(old(graph.objects) + seen, reference.key, old(graph.objects) + RootKeys(ever, root, nextOffset));
        }
        return inserted;
      }
      var page := ReadProducerPage(store, reference, nextOffset);
      if page.Err? {
        return Err(page.error);
      }
      WalkedStep(store.objects, ever, root, nextOffset, rest, reference, seen);
      seen := seen + {reference.key};
      pending := rest + Below(page.value);
    }
    WalkedEnd(store.objects, ever, root, nextOffset, seen);
    r := Ok(());
  }

  /** Where the walk stands: what it has established, that nothing needed was missing, and nothing met twice. */
  ghost predicate Walked(objects: map<Key, Object>, ever: map<Key, Object>, root: Option<ProducerRef>, nextOffset: int,
                         pending: seq<ProducerRef>, seen: set<Key>)
  {
    && Walking(objects, root, nextOffset, pending, seen) && Walking(ever, root, nextOffset, pending, seen)
    && StillSound(objects, root, nextOffset, pending)
    && Unseen(ever, root, nextOffset, pending, seen)
    && (root.None? ==> pending == [] && seen == {})
  }

  lemma WalkedStart(objects: map<Key, Object>, ever: map<Key, Object>, root: Option<ProducerRef>, nextOffset: int)
    ensures Walked(objects, ever, root, nextOffset, if root.Some? then [root.value] else [], {})
  {
    hide Walking, StillSound, Unseen;
    WalkStart(objects, root, nextOffset);
    WalkStart(ever, root, nextOffset);
    UnseenStart(ever, root, nextOffset);
  }

  /** The next page was not met before; if it cannot be read, the directory is not sound here, and it was collected. */
  lemma WalkedTop(objects: map<Key, Object>, ever: map<Key, Object>, root: Option<ProducerRef>, nextOffset: int,
                  rest: seq<ProducerRef>, r: ProducerRef, seen: set<Key>)
    requires Extends(objects, ever) && Walked(objects, ever, root, nextOffset, rest + [r], seen)
    ensures root.Some?
    ensures Sound(ever, root.value, nextOffset) ==>
      && r.key !in seen && r.key.ProducerKey? && seen + {r.key} <= RootKeys(ever, root, nextOffset)
      && (PageIn(objects, r, nextOffset).Err? ==> PageIn(objects, r, nextOffset).error == NotFound)
    ensures PageIn(objects, r, nextOffset).Err? ==> !Sound(objects, root.value, nextOffset)
  {
    hide Sound, Walking, StillSound, Unseen, RootKeys;
    if Sound(ever, root.value, nextOffset) {
      UnseenTop(ever, root.value, nextOffset, rest, r, seen);
      PageGone(objects, ever, r, nextOffset);
      TopCounted(ever, root.value, nextOffset, rest, r, seen);
    }
    StillSoundStep(objects, root, nextOffset, rest, r);
  }

  lemma WalkedStep(objects: map<Key, Object>, ever: map<Key, Object>, root: Option<ProducerRef>, nextOffset: int,
                   rest: seq<ProducerRef>, r: ProducerRef, seen: set<Key>)
    requires Extends(objects, ever) && Walked(objects, ever, root, nextOffset, rest + [r], seen)
    requires PageIn(objects, r, nextOffset).Ok?
    ensures var next := rest + Below(PageIn(objects, r, nextOffset).value);
      && Walked(objects, ever, root, nextOffset, next, seen + {r.key})
      && StackWork(next) < StackWork(rest + [r])
  {
    hide Sound, Walking, StillSound, Unseen, PageOk, StackWork;
    SamePage(objects, ever, r, nextOffset);
    PageLevels(objects, r, nextOffset);
    StillSoundStep(objects, root, nextOffset, rest, r);
    WalkStep(objects, root, nextOffset, rest, r, seen);
    WalkStep(ever, root, nextOffset, rest, r, seen);
    var next := rest + Below(objects[r.key].producerPage);
    if root.Some? && Sound(ever, root.value, nextOffset) {
      UnseenNext(ever, root.value, nextOffset, rest, r, seen);
    } else {
      NotSound(ever, root, nextOffset, next, seen + {r.key});
    }
    StackPop(rest, r);
    if objects[r.key].producerPage.ProducerBranch? {
      StackShrinks(rest, r, objects[r.key].producerPage.children);
    } else {
      assert next == rest;
    }
  }

  lemma WalkedEnd(objects: map<Key, Object>, ever: map<Key, Object>, root: Option<ProducerRef>, nextOffset: int, seen: set<Key>)
    requires Walked(objects, ever, root, nextOffset, [], seen)
    ensures root.Some? ==> Sound(objects, root.value, nextOffset)
    ensures seen == RootKeys(objects, root, nextOffset)
    ensures (root.Some? ==> Sound(ever, root.value, nextOffset)) ==> forall k :: k in seen ==> k.ProducerKey?
  {
    hide Sound, Walking, StillSound, Unseen;
    WalkEnd(objects, root, nextOffset, seen);
    UnseenEnd(ever, root, nextOffset, seen);
  }
}
