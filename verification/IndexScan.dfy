/** Walking the index with an explicit stack: the pruned fetch and the complete trace. */
module IndexScan {
  import opened LogTypes
  import opened IndexTree
  import opened BulkLoad
  import opened ObjectStores
  import opened IndexPages
  import opened IndexWriter
  import opened IndexRoots
  import opened Selections
  import FiniteSets

  // -------------------------------------------------------------- termination on any contents

  function Pow65(level: nat): nat {
    if level == 0 then 1 else 65 * Pow65(level - 1)
  }

  /** The work left on a stack; a page weighs more than 64 pages of the level below. */
  function Work(stack: seq<PageRef>): nat {
    if stack == [] then 0 else Work(stack[..|stack| - 1]) + Pow65(stack[|stack| - 1].level)
  }

  lemma {:induction false} WorkAppend(a: seq<PageRef>, b: seq<PageRef>)
    ensures Work(a + b) == Work(a) + Work(b)
    decreases |b|
  {
    if b == [] {
      assert a + b == a;
    } else {
      assert (a + b)[..|a + b| - 1] == a + b[..|b| - 1];
      WorkAppend(a, b[..|b| - 1]);
    }
  }

  lemma {:induction false} WorkBound(refs: seq<PageRef>, level: nat)
    requires forall i :: 0 <= i < |refs| ==> refs[i].level == level
    ensures Work(refs) == |refs| * Pow65(level)
  {
    if refs != [] {
      WorkBound(refs[..|refs| - 1], level);
      assert (|refs| - 1) * Pow65(level) + Pow65(level) == |refs| * Pow65(level);
    }
  }

  lemma {:induction false} Pow65Positive(level: nat)
    ensures Pow65(level) > 0
  {
    if level > 0 {
      Pow65Positive(level - 1);
    }
  }

  /** Replacing a page by any of its children lowers the work, whatever the store holds. */
  lemma WorkShrinks(rest: seq<PageRef>, page: PageRef, children: seq<PageRef>)
    requires |children| <= PAGE_ENTRIES && page.level > 0
    requires forall i :: 0 <= i < |children| ==> children[i].level == page.level - 1
    ensures Work(rest + children) < Work(rest + [page])
  {
    WorkAppend(rest, children);
    WorkAppend(rest, [page]);
    WorkBound(children, page.level - 1);
    WorkBound([page], page.level);
    Pow65Positive(page.level - 1);
    MulMonotone(|children|, 64, Pow65(page.level - 1));
  }

  function Reversed(refs: seq<PageRef>): (r: seq<PageRef>)
    ensures |r| == |refs|
  {
    seq(|refs|, i requires 0 <= i < |refs| => refs[|refs| - 1 - i])
  }

  // -------------------------------------------------------------- what is left on the stack

  /** The segments below a stack, in the order it will visit them. */
  ghost function Pending(objects: map<Key, Object>, stack: seq<PageRef>): seq<Segment>
    requires AllSound(objects, stack)
    decreases |stack|
  {
    if stack == [] then []
    else Flatten(Load(objects, stack[|stack| - 1])) + Pending(objects, stack[..|stack| - 1])
  }

  lemma StackSound(objects: map<Key, Object>, rest: seq<PageRef>, refs: seq<PageRef>)
    requires AllSound(objects, rest) && AllSound(objects, refs)
    ensures AllSound(objects, rest + Reversed(refs))
  {
    hide Sound;
    var stack := rest + Reversed(refs);
    forall i | 0 <= i < |stack| ensures Sound(objects, stack[i]) {
      if i >= |rest| {
        assert stack[i] == refs[|refs| - 1 - (i - |rest|)];
      }
    }
  }

  lemma {:induction false} PendingReversed(objects: map<Key, Object>, rest: seq<PageRef>, refs: seq<PageRef>)
    requires AllSound(objects, rest) && AllSound(objects, refs)
    ensures AllSound(objects, rest + Reversed(refs))
    ensures Pending(objects, rest + Reversed(refs)) == FlattenAll(LoadAll(objects, refs)) + Pending(objects, rest)
    decreases |refs|
  {
    hide Sound, Flatten, Load;
    var stack := rest + Reversed(refs);
    StackSound(objects, rest, refs);
    if refs == [] {
      assert stack == rest;
    } else {
      var tail := refs[1..];
      assert stack[|stack| - 1] == refs[0] && stack[..|stack| - 1] == rest + Reversed(tail);
      PendingReversed(objects, rest, tail);
      assert LoadAll(objects, refs)[0] == Load(objects, refs[0]);
      assert LoadAll(objects, refs)[1..] == LoadAll(objects, tail);
    }
  }

  lemma TopOfStack(objects: map<Key, Object>, rest: seq<PageRef>, r: PageRef)
    ensures AllSound(objects, rest + [r]) <==> AllSound(objects, rest) && Sound(objects, r)
    ensures AllSound(objects, rest + [r]) ==>
      && Pending(objects, rest + [r]) == Flatten(Load(objects, r)) + Pending(objects, rest)
      && Union(KeysAll(objects, rest + [r])) == Union(KeysAll(objects, rest)) + Keys(objects, r)
  {
    hide Sound, Flatten, Load, Keys;
    var stack := rest + [r];
    assert stack[|rest|] == r && stack[..|stack| - 1] == rest;
    assert forall i :: 0 <= i < |rest| ==> stack[i] == rest[i];
    if AllSound(objects, stack) {
      assert KeysAll(objects, stack) == KeysAll(objects, rest) + [Keys(objects, r)];
      UnionSnoc(KeysAll(objects, rest), Keys(objects, r));
    }
  }

  // -------------------------------------------------------------- the complete trace

  /** src/log/maintenance.rs:131-146 */
  class LiveGraph {
    var segments: seq<Segment>
    var objects: set<Key>

    constructor ()
      ensures segments == [] && objects == {}
    {
      segments, objects := [], {};
    }

    method Insert(key: Key, maximum: nat) returns (r: Result<()>)
      modifies this`objects
      ensures r.Ok? <==> |old(objects)| < maximum && key !in old(objects)
      ensures objects == old(objects) + (if r.Ok? then {key} else {})
      ensures r.Err? ==> r.error == if |old(objects)| >= maximum then MaintenanceBudget else Invalid
    {
      if |objects| >= maximum {
        return Err(MaintenanceBudget);
      }
      if key in objects {
        return Err(Invalid);
      }
      objects := objects + {key};
      r := Ok(());
    }
  }

  /** What the trace has established: if the rest is sound, then so is everything from the start. */
  ghost predicate Tracing(objects: map<Key, Object>, tree: Option<PageRef>, stack: seq<PageRef>,
                          segments: seq<Segment>, pages: set<Key>)
  {
    AllSound(objects, stack) ==>
      && (tree.Some? ==> Sound(objects, tree.value))
      && TreeContents(objects, tree) == segments + Pending(objects, stack)
      && TreeKeys(objects, tree) == pages + SegmentKeys(segments) + Union(KeysAll(objects, stack))
  }

  ghost function TreeContents(objects: map<Key, Object>, tree: Option<PageRef>): seq<Segment>
    requires tree.Some? ==> Sound(objects, tree.value)
  {
    if tree.Some? then Flatten(Load(objects, tree.value)) else []
  }

  ghost function TreeKeys(objects: map<Key, Object>, tree: Option<PageRef>): set<Key>
    requires tree.Some? ==> Sound(objects, tree.value)
  {
    if tree.Some? then Keys(objects, tree.value) else {}
  }

  lemma TracingStart(objects: map<Key, Object>, tree: Option<PageRef>)
    ensures Tracing(objects, tree, if tree.Some? then [tree.value] else [], [], {})
  {
    if tree.Some? && AllSound(objects, [tree.value]) {
      assert Sound(objects, [tree.value][0]);
      assert [tree.value][..0] == [];
      assert KeysAll(objects, [tree.value]) == [] + [Keys(objects, tree.value)];
      UnionSnoc([], Keys(objects, tree.value));
    }
  }

  lemma TracingLeaf(objects: map<Key, Object>, tree: Option<PageRef>, rest: seq<PageRef>, r: PageRef,
                    segments: seq<Segment>, pages: set<Key>, list: seq<Segment>)
    requires Tracing(objects, tree, rest + [r], segments, pages)
    requires Holds(objects, r) && objects[r.key].page == LeafPage(list)
    ensures Tracing(objects, tree, rest, segments + list, pages + {r.key})
  {
    hide Sound, Holds, Flatten, Load, Keys;
    LeafHere(objects, r, list);
    TopOfStack(objects, rest, r);
    if AllSound(objects, rest) {
      SegmentKeysAppend(segments, list);
      assert segments + (list + Pending(objects, rest)) == (segments + list) + Pending(objects, rest);
    }
  }

  lemma LeafHere(objects: map<Key, Object>, r: PageRef, list: seq<Segment>)
    requires Holds(objects, r) && objects[r.key].page == LeafPage(list)
    ensures Sound(objects, r) && Flatten(Load(objects, r)) == list
    ensures Keys(objects, r) == {r.key} + SegmentKeys(list)
  {
  }

  lemma TracingBranch(objects: map<Key, Object>, tree: Option<PageRef>, rest: seq<PageRef>, r: PageRef,
                      segments: seq<Segment>, pages: set<Key>, children: seq<PageRef>)
    requires Tracing(objects, tree, rest + [r], segments, pages)
    requires Holds(objects, r) && objects[r.key].page == BranchPage(children)
    ensures Tracing(objects, tree, rest + Reversed(children), segments, pages + {r.key})
  {
    var next := rest + Reversed(children);
    if AllSound(objects, next) {
      StackParts(objects, rest, children);
      assert Sound(objects, r);
      LoadBranch(objects, r);
      TopOfStack(objects, rest, r);
      PendingReversed(objects, rest, children);
      UnionReversed(objects, rest, children);
    }
  }

  lemma StackParts(objects: map<Key, Object>, rest: seq<PageRef>, children: seq<PageRef>)
    requires AllSound(objects, rest + Reversed(children))
    ensures AllSound(objects, rest) && AllSound(objects, children)
  {
    var next := rest + Reversed(children);
    forall i | 0 <= i < |rest| ensures Sound(objects, rest[i]) {
      assert next[i] == rest[i];
    }
    forall i | 0 <= i < |children| ensures Sound(objects, children[i]) {
      assert next[|rest| + |children| - 1 - i] == children[i];
    }
  }

  lemma UnionReversed(objects: map<Key, Object>, rest: seq<PageRef>, children: seq<PageRef>)
    requires AllSound(objects, rest + Reversed(children)) && AllSound(objects, rest) && AllSound(objects, children)
    ensures Union(KeysAll(objects, rest + Reversed(children)))
      == Union(KeysAll(objects, rest)) + Union(KeysAll(objects, children))
  {
    hide Sound, Keys, Union;
    var next := rest + Reversed(children);
    var all, a, b := KeysAll(objects, next), KeysAll(objects, rest), KeysAll(objects, children);
    forall i | 0 <= i < |rest| ensures all[i] == a[i] {
      assert next[i] == rest[i];
    }
    forall i | 0 <= i < |children| ensures all[|rest| + |children| - 1 - i] == b[i] {
      assert next[|rest| + |children| - 1 - i] == children[i];
    }
    forall k ensures k in Union(all) <==> k in Union(a) || k in Union(b) {
      UnionHas(all, k);
      UnionHas(a, k);
      UnionHas(b, k);
      if i :| 0 <= i < |all| && k in all[i] {
        if i < |rest| {
          assert k in a[i];
        } else {
          assert k in b[|rest| + |children| - 1 - i];
        }
      }
      if i :| 0 <= i < |a| && k in a[i] {
        assert k in all[i];
      }
      if i :| 0 <= i < |b| && k in b[i] {
        assert k in all[|rest| + |children| - 1 - i];
      }
    }
  }

  /** The offsets fall along the stack: the page on top comes first. */
  ghost predicate Descends(stack: seq<PageRef>) {
    forall i, j :: 0 <= i < j < |stack| ==> stack[j].nextOffset <= stack[i].firstOffset
  }

  /** A page on the stack lies below the level of a page seen before, or after its offsets. */
  ghost predicate Apart(objects: map<Key, Object>, r: PageRef, k: Key) {
    && k.IndexKey? && k in objects && objects[k].IndexObject? && PageOk(objects[k].page)
    && (r.level < Describe(objects[k].page).level || Describe(objects[k].page).nextOffset <= r.firstOffset)
  }

  /**
   * In a tree that was ever sound, no page still to come is one seen before: a key fixes its page,
   * and the page its level and first offset.
   */
  ghost predicate Unseen(ever: map<Key, Object>, tree: Option<PageRef>, stack: seq<PageRef>, seen: set<Key>) {
    tree.Some? && Sound(ever, tree.value) ==>
      && AllSound(ever, stack) && Descends(stack)
      && (forall k :: k in seen ==> k.IndexKey?)
      && forall i, k :: 0 <= i < |stack| && k in seen ==> Apart(ever, stack[i], k)
  }

  lemma UnseenStart(ever: map<Key, Object>, tree: Option<PageRef>)
    ensures Unseen(ever, tree, if tree.Some? then [tree.value] else [], {})
  {
  }

  lemma UnseenTop(ever: map<Key, Object>, tree: PageRef, rest: seq<PageRef>, r: PageRef, seen: set<Key>)
    requires Sound(ever, tree) && Unseen(ever, Some(tree), rest + [r], seen)
    ensures Holds(ever, r) && r.key !in seen
  {
    var stack := rest + [r];
    assert stack[|rest|] == r && Sound(ever, stack[|rest|]);
    assert r.key in seen ==> Apart(ever, stack[|rest|], r.key);
  }

  /** A page makes room for its children, which lie below its level and within its offsets. */
  lemma UnseenNext(ever: map<Key, Object>, tree: PageRef, rest: seq<PageRef>, r: PageRef, seen: set<Key>,
                   below: seq<PageRef>)
    requires Sound(ever, tree) && Unseen(ever, Some(tree), rest + [r], seen) && Holds(ever, r)
    requires match ever[r.key].page
      case LeafPage(_) => below == []
      case BranchPage(children) => below == Reversed(children)
    ensures Unseen(ever, Some(tree), rest + below, seen + {r.key})
  {
    hide Sound, PageOk;
    var stack, next := rest + [r], rest + below;
    assert stack[|rest|] == r;
    assert forall i :: 0 <= i < |rest| ==> stack[i] == rest[i];
    BelowPage(ever, r, below);
    forall i | 0 <= i < |next| ensures Sound(ever, next[i]) {
      assert i < |rest| ==> Sound(ever, stack[i]);
    }
    forall i, j | 0 <= i < j < |next| ensures next[j].nextOffset <= next[i].firstOffset {
      if i < |rest| {
        assert r.nextOffset <= stack[i].firstOffset;
        assert j < |rest| ==> stack[j].nextOffset <= stack[i].firstOffset;
      }
    }
    forall i, k | 0 <= i < |next| && k in seen + {r.key} ensures Apart(ever, next[i], k) {
      if k in seen {
        assert Apart(ever, stack[if i < |rest| then i else |rest|], k);
      } else {
        PageSeen(ever, r);
        assert i < |rest| ==> r.nextOffset <= stack[i].firstOffset;
      }
    }
  }

  lemma PageSeen(ever: map<Key, Object>, r: PageRef)
    requires Holds(ever, r)
    ensures r.key.IndexKey? && PageOk(ever[r.key].page)
    ensures Describe(ever[r.key].page).level == r.level && Describe(ever[r.key].page).nextOffset == r.nextOffset
  {
  }

  lemma BelowPage(ever: map<Key, Object>, r: PageRef, below: seq<PageRef>)
    requires Sound(ever, r)
    requires match ever[r.key].page
      case LeafPage(_) => below == []
      case BranchPage(children) => below == Reversed(children)
    ensures AllSound(ever, below)
    ensures forall i :: 0 <= i < |below| ==>
      below[i].level < r.level && r.firstOffset <= below[i].firstOffset && below[i].nextOffset <= r.nextOffset
    ensures forall i, j :: 0 <= i < j < |below| ==> below[j].nextOffset <= below[i].firstOffset
  {
    match ever[r.key].page
    case LeafPage(_) =>
    case BranchPage(children) =>
      hide Holds, RefValid, RefFull, Describe;
      LoadBranch(ever, r);
      RefSummary(ever, r);
      SiblingOrder(children, r.level - 1);
      TurnedOver(ever, r, children);
  }

  /** The order of siblings, read from the top of the stack. */
  lemma TurnedOver(ever: map<Key, Object>, r: PageRef, children: seq<PageRef>)
    requires AllSound(ever, children)
    requires forall i :: 0 <= i < |children| ==>
      children[i].level < r.level && r.firstOffset <= children[i].firstOffset && children[i].nextOffset <= r.nextOffset
    requires forall i, j :: 0 <= i < j < |children| ==> children[i].nextOffset <= children[j].firstOffset
    ensures var below := Reversed(children);
      && AllSound(ever, below)
      && (forall i :: 0 <= i < |below| ==>
            below[i].level < r.level && r.firstOffset <= below[i].firstOffset && below[i].nextOffset <= r.nextOffset)
      && forall i, j :: 0 <= i < j < |below| ==> below[j].nextOffset <= below[i].firstOffset
  {
    hide Sound;
    var below := Reversed(children);
    forall i | 0 <= i < |below| ensures Sound(ever, below[i]) && below[i] == children[|children| - 1 - i] {
    }
  }

  lemma {:induction false} SiblingOrder(children: seq<PageRef>, level: nat)
    requires children != [] && Siblings(children, level)
    ensures forall i :: 0 <= i < |children| ==>
      && children[i].level == level
      && children[0].firstOffset <= children[i].firstOffset < children[i].nextOffset <= children[|children| - 1].nextOffset
    ensures forall i, j :: 0 <= i < j < |children| ==> children[i].nextOffset <= children[j].firstOffset
  {
    var n := |children| - 1;
    if n > 0 {
      var front := children[..n];
      assert forall i :: 0 <= i < n ==> front[i] == children[i];
      assert Siblings(front, level);
      SiblingOrder(front, level);
      assert children[n].firstOffset == children[n - 1].nextOffset;
      forall i, j | 0 <= i < j < |children| ensures children[i].nextOffset <= children[j].firstOffset {
        if j == n && i < n - 1 {
          assert front[i].nextOffset <= front[n - 1].firstOffset;
        } else if j < n {
          assert front[i].nextOffset <= front[j].firstOffset;
        }
      }
    }
  }

  /**
   * src/log/index.rs:434-460, up to the tail. The walk ends on any contents of the store. When it
   * succeeds, every page below the tree was present and valid, the graph holds exactly its pages,
   * and its segments in order. In a tree that was ever sound, of which collection may have left any
   * part, it never meets a page twice: it fails only on the budget or on a missing page.
   */
  method TraceTree(store: ObjectStore, tree: Option<PageRef>, graph: LiveGraph, maximum: nat)
    returns (r: Result<()>)
    requires graph.segments == [] && graph.objects == {}
    requires Extends(store.objects, store.ever)
    modifies graph, store`gets
    ensures r.Ok? ==>
      && (tree.Some? ==> Sound(store.objects, tree.value))
      && graph.segments == TreeContents(store.objects, tree)
      && graph.objects + SegmentKeys(graph.segments) == TreeKeys(store.objects, tree)
    ensures r.Err? && r.error == NotFound ==> tree.Some? && !Sound(store.objects, tree.value)
    ensures r.Ok? ==> |graph.objects| <= maximum
    ensures (tree.Some? ==> Sound(store.ever, tree.value)) ==>
      && (r.Err? ==> r.error in {MaintenanceBudget, NotFound})
      && (r.Err? && r.error == MaintenanceBudget ==>
            |TreeKeys(store.ever, tree)| > maximum || |TreeContents(store.ever, tree)| > maximum)
      && (r.Ok? ==> forall k :: k in graph.objects ==> k.IndexKey?)
  {
    hide Sound, Holds, Traversed, Work, PageOk, Reversed, TreeKeys, TreeContents;
    ghost var ever := store.ever;
    var stack: seq<PageRef> := if tree.Some? then [tree.value] else [];
    TraversedStart(store.objects, ever, tree);
    while stack != []
      invariant Traversed(store.objects, ever, tree, stack, graph.segments, graph.objects)
      invariant |graph.objects| <= maximum
      decreases Work(stack)
    {
      var rest, reference := stack[..|stack| - 1], stack[|stack| - 1];
      assert stack == rest + [reference];
      ghost var seen := graph.objects;
      TraversedTop(store.objects, ever, tree, rest, reference, graph.segments, seen);
      var inserted := graph.Insert(reference.key, maximum);
      if inserted.Err? {
        if Sound(ever, tree.value) {
          FiniteSets.OneMore(seen, reference.key, TreeKeys(ever, tree));
        }
        return inserted;
      }
      var page := IndexWriter.ReadPage(store, reference);
      if page.Err? {
        return Err(page.error);
      }
      match page.value {
        case LeafPage(list) =>
          if |graph.segments| + |list| > maximum {
            return Err(MaintenanceBudget);
          }
          TraversedLeaf(store.objects, ever, tree, rest, reference, graph.segments, seen, list);
          graph.segments := graph.segments + list;
          stack := rest;
        case BranchPage(children) =>
          TraversedBranch(store.objects, ever, tree, rest, reference, graph.segments, seen, children);
          stack := rest + Reversed(children);
      }
    }
    TraversedEnd(store.objects, ever, tree, graph.segments, graph.objects);
    r := Ok(());
  }

  /** Where the walk stands: what it has established, that nothing needed was missing, and nothing met twice. */
  ghost predicate Traversed(objects: map<Key, Object>, ever: map<Key, Object>, tree: Option<PageRef>, stack: seq<PageRef>,
                            segments: seq<Segment>, seen: set<Key>)
  {
    && Tracing(objects, tree, stack, segments, seen) && Tracing(ever, tree, stack, segments, seen)
    && Missing(objects, tree, stack)
    && Unseen(ever, tree, stack, seen)
    && (tree.None? ==> stack == [] && seen == {})
  }

  lemma TraversedStart(objects: map<Key, Object>, ever: map<Key, Object>, tree: Option<PageRef>)
    ensures Traversed(objects, ever, tree, if tree.Some? then [tree.value] else [], [], {})
  {
    hide Tracing, Missing, Unseen;
    TracingStart(objects, tree);
    TracingStart(ever, tree);
    MissingStart(objects, tree);
    UnseenStart(ever, tree);
  }

  /** The next page was not met before; if it cannot be read, the tree is not sound here, and it was collected. */
  lemma TraversedTop(objects: map<Key, Object>, ever: map<Key, Object>, tree: Option<PageRef>, rest: seq<PageRef>,
                     r: PageRef, segments: seq<Segment>, seen: set<Key>)
    requires Extends(objects, ever) && Traversed(objects, ever, tree, rest + [r], segments, seen)
    ensures tree.Some?
    ensures Sound(ever, tree.value) ==> r.key !in seen && (PageIn(objects, r).Err? ==> PageIn(objects, r).error == NotFound)
    ensures PageIn(objects, r).Err? ==> !Sound(objects, tree.value)
    ensures Sound(ever, tree.value) ==>
      && seen + {r.key} <= TreeKeys(ever, tree)
      && (PageIn(objects, r).Ok? && PageIn(objects, r).value.LeafPage? ==>
            |segments| + |PageIn(objects, r).value.segments| <= |TreeContents(ever, tree)|)
  {
    hide Sound, Tracing, Missing, Unseen;
    if Sound(ever, tree.value) {
      UnseenTop(ever, tree.value, rest, r, seen);
      PageGone(objects, ever, r);
      TopCounted(ever, tree.value, rest, r, segments, seen);
    }
    if PageIn(objects, r).Err? {
      MissingTop(objects, tree, rest, r);
    }
  }

  /** What was met and what is on top of the stack is part of the tree. */
  lemma TopCounted(ever: map<Key, Object>, tree: PageRef, rest: seq<PageRef>, r: PageRef, segments: seq<Segment>,
                   seen: set<Key>)
    requires Sound(ever, tree) && Unseen(ever, Some(tree), rest + [r], seen) && Holds(ever, r)
    requires Tracing(ever, Some(tree), rest + [r], segments, seen)
    ensures seen + {r.key} <= TreeKeys(ever, Some(tree))
    ensures ever[r.key].page.LeafPage? ==>
      |segments| + |ever[r.key].page.segments| <= |TreeContents(ever, Some(tree))|
  {
    hide Sound, Flatten, Load, Keys, PageOk, Describe;
    TopOfStack(ever, rest, r);
    KeyOfTop(ever, r);
    if ever[r.key].page.LeafPage? {
      LeafHere(ever, r, ever[r.key].page.segments);
    }
  }

  lemma KeyOfTop(objects: map<Key, Object>, r: PageRef)
    requires Sound(objects, r)
    ensures r.key in Keys(objects, r)
  {
  }

  lemma TraversedLeaf(objects: map<Key, Object>, ever: map<Key, Object>, tree: Option<PageRef>, rest: seq<PageRef>,
                      r: PageRef, segments: seq<Segment>, seen: set<Key>, list: seq<Segment>)
    requires Extends(objects, ever) && Traversed(objects, ever, tree, rest + [r], segments, seen)
    requires PageIn(objects, r) == Ok(LeafPage(list))
    ensures Traversed(objects, ever, tree, rest, segments + list, seen + {r.key})
    ensures Work(rest) < Work(rest + [r])
  {
    hide Sound, Tracing, Missing, Unseen, PageOk, Work;
    SamePage(objects, ever, r);
    TracingLeaf(objects, tree, rest, r, segments, seen, list);
    TracingLeaf(ever, tree, rest, r, segments, seen, list);
    MissingPop(objects, tree, rest, r, []);
    assert rest + [] == rest;
    if tree.Some? && Sound(ever, tree.value) {
      UnseenNext(ever, tree.value, rest, r, seen, []);
    } else {
      NotSound(ever, tree, rest, seen + {r.key});
    }
    StackDrops(rest, r);
  }

  lemma TraversedBranch(objects: map<Key, Object>, ever: map<Key, Object>, tree: Option<PageRef>, rest: seq<PageRef>,
                        r: PageRef, segments: seq<Segment>, seen: set<Key>, children: seq<PageRef>)
    requires Extends(objects, ever) && Traversed(objects, ever, tree, rest + [r], segments, seen)
    requires PageIn(objects, r) == Ok(BranchPage(children))
    ensures Traversed(objects, ever, tree, rest + Reversed(children), segments, seen + {r.key})
    ensures Work(rest + Reversed(children)) < Work(rest + [r])
  {
    hide Sound, Tracing, Missing, Unseen, PageOk, Work;
    SamePage(objects, ever, r);
    PageLevels(objects, r);
    TracingBranch(objects, tree, rest, r, segments, seen, children);
    TracingBranch(ever, tree, rest, r, segments, seen, children);
    MissingPop(objects, tree, rest, r, Reversed(children));
    if tree.Some? && Sound(ever, tree.value) {
      UnseenNext(ever, tree.value, rest, r, seen, Reversed(children));
    } else {
      NotSound(ever, tree, rest + Reversed(children), seen + {r.key});
    }
    WorkShrinks(rest, r, Reversed(children));
  }

  lemma TraversedEnd(objects: map<Key, Object>, ever: map<Key, Object>, tree: Option<PageRef>, segments: seq<Segment>,
                     seen: set<Key>)
    requires Traversed(objects, ever, tree, [], segments, seen)
    ensures tree.Some? ==> Sound(objects, tree.value)
    ensures segments == TreeContents(objects, tree) && seen + SegmentKeys(segments) == TreeKeys(objects, tree)
    ensures (tree.Some? ==> Sound(ever, tree.value)) ==> forall k :: k in seen ==> k.IndexKey?
  {
    hide Sound, Tracing, Missing, Unseen;
    TracingEnd(objects, tree, segments, seen);
    UnseenEnd(ever, tree, seen);
  }

  lemma NotSound(ever: map<Key, Object>, tree: Option<PageRef>, stack: seq<PageRef>, seen: set<Key>)
    requires !(tree.Some? && Sound(ever, tree.value))
    ensures Unseen(ever, tree, stack, seen)
  {
  }

  lemma UnseenEnd(ever: map<Key, Object>, tree: Option<PageRef>, seen: set<Key>)
    requires Unseen(ever, tree, [], seen) && (tree.None? ==> seen == {})
    ensures (tree.Some? ==> Sound(ever, tree.value)) ==> forall k :: k in seen ==> k.IndexKey?
  {
  }

  /** A sound index keeps only sound pages on the stack. */
  ghost predicate Missing(objects: map<Key, Object>, tree: Option<PageRef>, stack: seq<PageRef>) {
    && (tree.None? ==> stack == [])
    && (tree.Some? && Sound(objects, tree.value) ==> AllSound(objects, stack))
  }

  lemma MissingStart(objects: map<Key, Object>, tree: Option<PageRef>)
    ensures Missing(objects, tree, if tree.Some? then [tree.value] else [])
  {
  }

  lemma MissingTop(objects: map<Key, Object>, tree: Option<PageRef>, rest: seq<PageRef>, r: PageRef)
    requires Missing(objects, tree, rest + [r]) && !Holds(objects, r)
    ensures tree.Some? && !Sound(objects, tree.value)
  {
    assert (rest + [r])[|rest|] == r;
  }

  lemma MissingPop(objects: map<Key, Object>, tree: Option<PageRef>, rest: seq<PageRef>, r: PageRef, below: seq<PageRef>)
    requires Missing(objects, tree, rest + [r]) && Holds(objects, r)
    requires below == [] || (objects[r.key].page.BranchPage? && below == Reversed(objects[r.key].page.children))
    ensures Missing(objects, tree, rest + below)
  {
    if tree.Some? && Sound(objects, tree.value) {
      var stack := rest + [r];
      assert Sound(objects, stack[|rest|]);
      forall i | 0 <= i < |rest + below| ensures Sound(objects, (rest + below)[i]) {
        if i < |rest| {
          assert (rest + below)[i] == stack[i];
        }
      }
    }
  }

  lemma PageLevels(objects: map<Key, Object>, r: PageRef)
    requires Holds(objects, r)
    ensures objects[r.key].page.BranchPage? ==>
      var c := objects[r.key].page.children;
      && r.level > 0 && |c| <= PAGE_ENTRIES
      && forall i :: 0 <= i < |c| ==> c[i].level == r.level - 1
  {
  }

  lemma TracingEnd(objects: map<Key, Object>, tree: Option<PageRef>, segments: seq<Segment>, pages: set<Key>)
    requires Tracing(objects, tree, [], segments, pages)
    ensures tree.Some? ==> Sound(objects, tree.value)
    ensures segments == TreeContents(objects, tree)
    ensures pages + SegmentKeys(segments) == TreeKeys(objects, tree)
  {
    assert segments + [] == segments;
  }

  // -------------------------------------------------------------- the pruned fetch

  /** What the fetch still has to do, if the index is sound. */
  ghost predicate Scanning(objects: map<Key, Object>, tree: Option<PageRef>, stack: seq<PageRef>, scan: Scan,
                           offset: int, allow: bool, final: Scan)
  {
    && (tree.None? ==> stack == [])
    && ((tree.Some? ==> Sound(objects, tree.value)) ==>
      && AllSound(objects, stack)
      && ScanAll(scan, offset, allow, Pending(objects, stack)) == final)
  }

  lemma ScanningStart(objects: map<Key, Object>, tree: Option<PageRef>, scan: Scan, offset: int, allow: bool)
    requires tree.Some? ==> Sound(objects, tree.value)
    ensures Scanning(objects, tree, if tree.Some? then [tree.value] else [], scan, offset, allow,
                     ScanAll(scan, offset, allow, TreeContents(objects, tree)))
  {
    if tree.Some? {
      var stack := [tree.value];
      assert stack[..0] == [];
      var body := Flatten(Load(objects, tree.value));
      assert body + [] == body;
    }
  }

  /** A page that ends at or before the offset contributes nothing. */
  lemma SkipPage(objects: map<Key, Object>, tree: Option<PageRef>, rest: seq<PageRef>, r: PageRef, scan: Scan,
                 offset: int, allow: bool, final: Scan)
    requires Scanning(objects, tree, rest + [r], scan, offset, allow, final) && r.nextOffset <= offset
    ensures Scanning(objects, tree, rest, scan, offset, allow, final)
  {
    if tree.Some? && Sound(objects, tree.value) {
      TopOfStack(objects, rest, r);
      SoundShaped(objects, r);
      ScanPruned(scan, offset, allow, Flatten(Load(objects, r)), r.firstOffset);
      ScanAppend(scan, offset, allow, Flatten(Load(objects, r)), Pending(objects, rest));
    }
  }

  lemma ScanLeaf(objects: map<Key, Object>, tree: Option<PageRef>, rest: seq<PageRef>, r: PageRef, list: seq<Segment>,
                 scan: Scan, offset: int, allow: bool, final: Scan)
    requires Scanning(objects, tree, rest + [r], scan, offset, allow, final)
    requires Holds(objects, r) && objects[r.key].page == LeafPage(list)
    ensures Scanning(objects, tree, rest, ScanAll(scan, offset, allow, list), offset, allow, final)
    ensures Run(list, r.firstOffset) && EndOffset(list, r.firstOffset) <= I64_MAX
  {
    if tree.Some? && Sound(objects, tree.value) {
      TopOfStack(objects, rest, r);
      ScanAppend(scan, offset, allow, list, Pending(objects, rest));
    }
  }

  /** Children that end after the offset: those the fetch pushes. */
  function Reaching(children: seq<PageRef>, offset: int): seq<PageRef> {
    if children == [] then []
    else if children[0].nextOffset > offset then [children[0]] + Reaching(children[1..], offset)
    else Reaching(children[1..], offset)
  }

  lemma {:induction false} ReachingOf(children: seq<PageRef>, offset: int)
    ensures |Reaching(children, offset)| <= |children|
    ensures forall r :: r in Reaching(children, offset) ==> r in children
  {
    if children != [] {
      ReachingOf(children[1..], offset);
    }
  }

  lemma {:induction false} ReachingScan(objects: map<Key, Object>, children: seq<PageRef>, scan: Scan, offset: int, allow: bool)
    requires AllSound(objects, children)
    ensures AllSound(objects, Reaching(children, offset))
    ensures ScanAll(scan, offset, allow, FlattenAll(LoadAll(objects, Reaching(children, offset))))
      == ScanAll(scan, offset, allow, FlattenAll(LoadAll(objects, children)))
    decreases |children|
  {
    hide Sound, Load, Flatten, ScanAll, RefValid;
    if children != [] {
      var first, rest := children[0], children[1..];
      var after := ScanAll(scan, offset, allow, Flatten(Load(objects, first)));
      assert LoadAll(objects, children)[1..] == LoadAll(objects, rest);
      ScanAppend(scan, offset, allow, Flatten(Load(objects, first)), FlattenAll(LoadAll(objects, rest)));
      if first.nextOffset > offset {
        ReachingScan(objects, rest, after, offset, allow);
        var kept := Reaching(rest, offset);
        assert LoadAll(objects, [first] + kept)[1..] == LoadAll(objects, kept);
        assert LoadAll(objects, [first] + kept)[0] == Load(objects, first);
        ScanAppend(scan, offset, allow, Flatten(Load(objects, first)), FlattenAll(LoadAll(objects, kept)));
      } else {
        SoundShaped(objects, first);
        ScanPruned(scan, offset, allow, Flatten(Load(objects, first)), first.firstOffset);
        ReachingScan(objects, rest, scan, offset, allow);
      }
    }
  }

  lemma ScanBranch(objects: map<Key, Object>, tree: Option<PageRef>, rest: seq<PageRef>, r: PageRef,
                   children: seq<PageRef>, scan: Scan, offset: int, allow: bool, final: Scan)
    requires Scanning(objects, tree, rest + [r], scan, offset, allow, final)
    requires Holds(objects, r) && objects[r.key].page == BranchPage(children)
    ensures Scanning(objects, tree, rest + Reversed(Reaching(children, offset)), scan, offset, allow, final)
  {
    if tree.Some? && Sound(objects, tree.value) {
      hide Sound, Holds;
      TopOfStack(objects, rest, r);
      LoadBranch(objects, r);
      var kept := Reaching(children, offset);
      ReachingScan(objects, children, scan, offset, allow);
      PendingReversed(objects, rest, kept);
      var a, b := FlattenAll(LoadAll(objects, children)), FlattenAll(LoadAll(objects, kept));
      ScanAppend(scan, offset, allow, a, Pending(objects, rest));
      ScanAppend(scan, offset, allow, b, Pending(objects, rest));
    }
  }

  lemma StackDrops(rest: seq<PageRef>, r: PageRef)
    ensures Work(rest) < Work(rest + [r])
  {
    WorkAppend(rest, [r]);
    Pow65Positive(r.level);
    assert [r][..0] == [];
  }

  lemma ReachingShrinks(rest: seq<PageRef>, r: PageRef, children: seq<PageRef>, offset: int)
    requires |children| <= PAGE_ENTRIES && r.level > 0
    requires forall i :: 0 <= i < |children| ==> children[i].level == r.level - 1
    ensures Work(rest + Reversed(Reaching(children, offset))) < Work(rest + [r])
  {
    ReachingOf(children, offset);
    var kept := Reaching(children, offset);
    assert forall i :: 0 <= i < |kept| ==> kept[i] in children;
    WorkShrinks(rest, r, Reversed(kept));
  }

  // -------------------------------------------------------------- pages before the first segment

  /** Until the first leaf, the page that holds the offset is on top of the stack. */
  ghost predicate Leading(tree: PageRef, stack: seq<PageRef>, offset: int, lead: nat, leaf: bool) {
    && lead <= tree.level + 1
    && (!leaf && tree.nextOffset > offset ==>
          && stack != []
          && var top := stack[|stack| - 1];
             top.firstOffset <= offset < top.nextOffset && lead + top.level == tree.level)
    && (!leaf && tree.nextOffset <= offset ==> lead == 0 && forall i :: 0 <= i < |stack| ==> stack[i] == tree)
  }

  lemma LeadingSkip(tree: PageRef, rest: seq<PageRef>, r: PageRef, offset: int, lead: nat,
                    leaf: bool)
    requires Leading(tree, rest + [r], offset, lead, leaf) && r.nextOffset <= offset
    ensures Leading(tree, rest, offset, lead, leaf)
  {
    var stack := rest + [r];
    assert forall i :: 0 <= i < |rest| ==> rest[i] == stack[i];
  }

  lemma LeadingLeaf(objects: map<Key, Object>, tree: PageRef, rest: seq<PageRef>, r: PageRef, offset: int, lead: nat,
                    leaf: bool)
    requires Leading(tree, rest + [r], offset, lead, leaf) && r.nextOffset > offset
    requires Holds(objects, r) && objects[r.key].page.LeafPage?
    ensures Leading(tree, rest, offset, if leaf then lead else lead + 1, true)
  {
    assert (rest + [r])[|rest|] == r;
  }

  lemma {:induction false} ReachingFirst(children: seq<PageRef>, level: nat, offset: int)
    requires children != [] && Siblings(children, level)
    requires children[0].firstOffset <= offset < children[|children| - 1].nextOffset
    ensures Reaching(children, offset) != []
    ensures var top := Reaching(children, offset)[0]; top in children && top.firstOffset <= offset < top.nextOffset
    decreases |children|
  {
    if children[0].nextOffset <= offset {
      var rest := children[1..];
      assert Siblings(rest, level) by {
        assert forall i :: 0 <= i < |rest| ==> rest[i] == children[i + 1];
      }
      assert rest[0].firstOffset == children[0].nextOffset;
      ReachingFirst(rest, level, offset);
    }
  }

  lemma LeadingBranch(objects: map<Key, Object>, tree: PageRef, rest: seq<PageRef>, r: PageRef, children: seq<PageRef>,
                      offset: int, lead: nat, leaf: bool)
    requires Leading(tree, rest + [r], offset, lead, leaf) && r.nextOffset > offset
    requires Holds(objects, r) && objects[r.key].page == BranchPage(children)
    ensures Leading(tree, rest + Reversed(Reaching(children, offset)), offset,
                    if leaf then lead else lead + 1, leaf)
  {
    assert (rest + [r])[|rest|] == r;
    if !leaf {
      ReachingFirst(children, r.level - 1, offset);
      var kept := Reaching(children, offset);
      var next := rest + Reversed(kept);
      assert next[|next| - 1] == kept[0];
    }
  }

  // -------------------------------------------------------------- the walk on any contents

  /** The walk over the pages of a stack: where the scan ends, or the read that failed. */
  ghost function WalkIn(objects: map<Key, Object>, stack: seq<PageRef>, scan: Scan, offset: int, allow: bool): Result<Scan>
    decreases Work(stack)
  {
    if stack == [] then Ok(scan)
    else
      var rest, r := stack[..|stack| - 1], stack[|stack| - 1];
      assert stack == rest + [r];
      StackDrops(rest, r);
      if r.nextOffset <= offset then WalkIn(objects, rest, scan, offset, allow)
      else
        match PageIn(objects, r)
        case Err(e) => Err(e)
        case Ok(LeafPage(list)) =>
          var next := ScanAll(scan, offset, allow, list);
          if next.open then WalkIn(objects, rest, next, offset, allow) else Ok(next)
        case Ok(BranchPage(children)) =>
          PageLevels(objects, r);
          ReachingShrinks(rest, r, children, offset);
          WalkIn(objects, rest + Reversed(Reaching(children, offset)), scan, offset, allow)
  }

  function StackOf(root: Root): seq<PageRef> {
    if root.tree.Some? then [root.tree.value] else []
  }

  /**
   * Against a tree that was ever sound, of which collection may have left any part: a walk that
   * succeeds selects from the whole tree, and one that fails met a missing page.
   */
  lemma {:induction false} WalkMeans(objects: map<Key, Object>, ever: map<Key, Object>, tree: PageRef, stack: seq<PageRef>,
                                     scan: Scan, offset: int, allow: bool, final: Scan)
    requires Extends(objects, ever) && Sound(ever, tree) && scan.open
    requires Scanning(ever, Some(tree), stack, scan, offset, allow, final)
    ensures var r := WalkIn(objects, stack, scan, offset, allow);
      && (r.Ok? ==> r.value == final)
      && (r.Err? ==> r.error == NotFound && !AllSound(objects, stack))
    decreases Work(stack)
  {
    hide Sound, Holds, Scanning, ScanAll, Reaching, Reversed, Extends;
    if stack == [] {
      ScanningDone(ever, tree, scan, offset, allow, final);
    } else {
      var rest, r := stack[..|stack| - 1], stack[|stack| - 1];
      assert stack == rest + [r];
      StackDrops(rest, r);
      RestUnsound(objects, rest, r);
      if r.nextOffset <= offset {
        SkipPage(ever, Some(tree), rest, r, scan, offset, allow, final);
        WalkMeans(objects, ever, tree, rest, scan, offset, allow, final);
      } else {
        ScanningHolds(ever, tree, rest, r, scan, offset, allow, final);
        PageGone(objects, ever, r);
        SoundReads(objects, r);
        if PageIn(objects, r).Ok? {
          SamePage(objects, ever, r);
          match ever[r.key].page
          case LeafPage(list) =>
            ScanLeaf(ever, Some(tree), rest, r, list, scan, offset, allow, final);
            var next := ScanAll(scan, offset, allow, list);
            if next.open {
              WalkMeans(objects, ever, tree, rest, next, offset, allow, final);
            } else {
              ScanningClosed(ever, Some(tree), rest, next, offset, allow, final);
            }
          case BranchPage(children) =>
            PageLevels(ever, r);
            ReachingShrinks(rest, r, children, offset);
            ScanBranch(ever, Some(tree), rest, r, children, scan, offset, allow, final);
            WalkMeans(objects, ever, tree, rest + Reversed(Reaching(children, offset)), scan, offset, allow, final);
            BranchUnsound(objects, rest, r, children, offset);
        }
      }
    }
  }

  lemma ScanningDone(objects: map<Key, Object>, tree: PageRef, scan: Scan, offset: int, allow: bool, final: Scan)
    requires Sound(objects, tree) && Scanning(objects, Some(tree), [], scan, offset, allow, final)
    ensures scan == final
  {
  }

  lemma ScanningHolds(objects: map<Key, Object>, tree: PageRef, rest: seq<PageRef>, r: PageRef, scan: Scan, offset: int,
                      allow: bool, final: Scan)
    requires Sound(objects, tree) && Scanning(objects, Some(tree), rest + [r], scan, offset, allow, final)
    ensures Holds(objects, r)
  {
    TopOfStack(objects, rest, r);
  }

  lemma SoundReads(objects: map<Key, Object>, r: PageRef)
    ensures Sound(objects, r) ==> PageIn(objects, r).Ok?
  {
  }

  lemma RestUnsound(objects: map<Key, Object>, rest: seq<PageRef>, r: PageRef)
    ensures AllSound(objects, rest + [r]) ==> AllSound(objects, rest) && Sound(objects, r)
  {
    hide Sound;
    var stack := rest + [r];
    assert stack[|rest|] == r;
    assert forall i :: 0 <= i < |rest| ==> stack[i] == rest[i];
  }

  lemma BranchUnsound(objects: map<Key, Object>, rest: seq<PageRef>, r: PageRef, children: seq<PageRef>, offset: int)
    requires PageIn(objects, r) == Ok(BranchPage(children))
    ensures AllSound(objects, rest + [r]) ==> AllSound(objects, rest + Reversed(Reaching(children, offset)))
  {
    hide Sound;
    if AllSound(objects, rest + [r]) {
      RestUnsound(objects, rest, r);
      ChildrenSound(objects, r);
      ReachingOf(children, offset);
      var kept := Reaching(children, offset);
      forall i | 0 <= i < |kept| ensures Sound(objects, kept[i]) {
        assert kept[i] in children;
      }
    }
  }

  lemma ChildrenSound(objects: map<Key, Object>, r: PageRef)
    requires Sound(objects, r) && objects[r.key].page.BranchPage?
    ensures AllSound(objects, objects[r.key].page.children)
  {
    LoadBranch(objects, r);
  }

  // -------------------------------------------------------------- the fetch traversal

  /** Until the first leaf is read the selection is untouched; by then at most one page a level was read. */
  ghost predicate Prompt(tree: PageRef, stack: seq<PageRef>, offset: int, start: nat, gets: nat, firstAt: Option<nat>,
                         lead: nat, leaf: bool)
  {
    && Leading(tree, stack, offset, lead, leaf)
    && (!leaf ==> firstAt.None? && gets <= start + lead)
    && (leaf ==> firstAt.Some? && firstAt.value <= start + tree.level + 1)
  }

  lemma PromptStart(tree: PageRef, offset: int, start: nat)
    requires tree.firstOffset <= offset
    ensures Prompt(tree, [tree], offset, start, start, None, 0, false)
  {
  }

  lemma PromptSkip(tree: PageRef, rest: seq<PageRef>, r: PageRef, offset: int, start: nat, gets: nat, firstAt: Option<nat>,
                   lead: nat, leaf: bool)
    requires Prompt(tree, rest + [r], offset, start, gets, firstAt, lead, leaf) && r.nextOffset <= offset
    ensures Prompt(tree, rest, offset, start, gets, firstAt, lead, leaf)
  {
    LeadingSkip(tree, rest, r, offset, lead, leaf);
  }

  lemma PromptLeaf(objects: map<Key, Object>, tree: PageRef, rest: seq<PageRef>, r: PageRef, list: seq<Segment>, offset: int,
                   start: nat, gets: nat, firstAt: Option<nat>, lead: nat, leaf: bool, now: nat)
    requires Prompt(tree, rest + [r], offset, start, gets, firstAt, lead, leaf) && r.nextOffset > offset
    requires PageIn(objects, r) == Ok(LeafPage(list)) && now <= gets + 1
    ensures Before(list, offset) < |list|
    ensures Prompt(tree, rest, offset, start, now, if firstAt.None? then Some(now) else firstAt,
                   if leaf then lead else lead + 1, true)
  {
    hide Run;
    LeadingLeaf(objects, tree, rest, r, offset, lead, leaf);
    assert (rest + [r])[|rest|] == r;
    LeafReaches(objects, r, list, offset);
  }

  /** A leaf that ends after the offset holds a segment that does. */
  lemma LeafReaches(objects: map<Key, Object>, r: PageRef, list: seq<Segment>, offset: int)
    requires Holds(objects, r) && objects[r.key].page == LeafPage(list) && r.nextOffset > offset
    ensures Before(list, offset) < |list|
    ensures r.level == 0
  {
    var last := list[|list| - 1];
    assert last.baseOffset + last.recordCount == r.nextOffset;
  }

  lemma PromptBranch(objects: map<Key, Object>, tree: PageRef, rest: seq<PageRef>, r: PageRef, children: seq<PageRef>,
                     offset: int, start: nat, gets: nat, firstAt: Option<nat>, lead: nat, leaf: bool, now: nat)
    requires Prompt(tree, rest + [r], offset, start, gets, firstAt, lead, leaf) && r.nextOffset > offset
    requires PageIn(objects, r) == Ok(BranchPage(children)) && now <= gets + 1
    ensures Prompt(tree, rest + Reversed(Reaching(children, offset)), offset, start, now, firstAt,
                   if leaf then lead else lead + 1, leaf)
  {
    LeadingBranch(objects, tree, rest, r, children, offset, lead, leaf);
  }

  lemma PromptEnd(tree: PageRef, stack: seq<PageRef>, offset: int, start: nat, gets: nat, firstAt: Option<nat>, lead: nat,
                  leaf: bool)
    requires Prompt(tree, stack, offset, start, gets, firstAt, lead, leaf)
    ensures firstAt.Some? ==> firstAt.value <= start + tree.level + 1
    ensures firstAt.None? && stack == [] ==> gets <= start
  {
  }

  /**
   * The walk over the sealed pages, on any contents of the store; false means the response is
   * complete. The first segment is taken or refused after at most one page read per level.
   */
  method ScanPages(store: ObjectStore, root: Root, selection: Selection) returns (r: Result<bool>)
    requires selection.store == store && selection.firstAt.None?
    modifies selection, store`gets
    ensures var w := WalkIn(store.objects, StackOf(root), old(selection.Progress(true)), selection.offset,
                            selection.allowOversized);
      && (r.Err? ==> w == Err(r.error))
      && (r.Ok? ==> w == Ok(selection.Progress(r.value)))
    ensures root.tree.Some? && root.tree.value.firstOffset <= selection.offset ==>
      && (selection.firstAt.Some? ==> selection.firstAt.value <= old(store.gets) + root.tree.value.level + 1)
      && (r.Ok? && selection.firstAt.None? ==> store.gets <= old(store.gets))
    ensures selection.firstAt.None? ==> selection.segments == old(selection.segments)
    ensures root.tree.None? ==> r == Ok(true) && selection.firstAt.None? && store.gets == old(store.gets)
  {
    hide WalkIn, Holds, Reaching, Reversed, ScanAll, Prompt, RefValid;
    ghost var offset, allow, start := selection.offset, selection.allowOversized, store.gets;
    ghost var first := selection.Progress(true);
    ghost var timed := root.tree.Some? && root.tree.value.firstOffset <= offset;
    ghost var lead: nat, leaf := 0, false;
    var stack: seq<PageRef> := StackOf(root);
    if timed {
      PromptStart(root.tree.value, offset, start);
    }
    while stack != []
      invariant WalkIn(store.objects, stack, selection.Progress(true), offset, allow)
        == WalkIn(store.objects, StackOf(root), first, offset, allow)
      invariant selection.Progress(true).open
      invariant selection.firstAt.None? ==> selection.segments == old(selection.segments)
      invariant timed ==> Prompt(root.tree.value, stack, offset, start, store.gets, selection.firstAt, lead, leaf)
      invariant root.tree.None? ==> stack == [] && selection.firstAt.None? && store.gets == start
      decreases Work(stack)
    {
      var rest, reference := stack[..|stack| - 1], stack[|stack| - 1];
      assert stack == rest + [reference];
      StackDrops(rest, reference);
      WalkTop(store.objects, rest, reference, selection.Progress(true), offset, allow);
      if reference.nextOffset <= selection.offset {
        if timed {
          PromptSkip(root.tree.value, rest, reference, offset, start, store.gets, selection.firstAt, lead, leaf);
        }
        stack := rest;
        continue;
      }
      ghost var gets := store.gets;
      var page := IndexWriter.ReadPage(store, reference);
      if page.Err? {
        if timed {
          PromptEnd(root.tree.value, stack, offset, start, gets, selection.firstAt, lead, leaf);
        }
        return Err(page.error);
      }
      PageLevels(store.objects, reference);
      match page.value {
        case LeafPage(list) =>
          LeafRun(store.objects, reference, list);
          if timed {
            PromptLeaf(store.objects, root.tree.value, rest, reference, list, offset, start, gets, selection.firstAt, lead,
                       leaf, store.gets);
          }
          lead := if leaf then lead else lead + 1;
          leaf := true;
          var more := selection.PushEach(list, reference.firstOffset);
          assert more.Ok?; // a checked leaf stays in the offset range
          stack := rest;
          if !more.value {
            if timed {
              PromptEnd(root.tree.value, stack, offset, start, store.gets, selection.firstAt, lead, leaf);
            }
            return Ok(false);
          }
        case BranchPage(children) =>
          if timed {
            PromptBranch(store.objects, root.tree.value, rest, reference, children, offset, start, gets, selection.firstAt,
                         lead, leaf, store.gets);
          }
          lead := if leaf then lead else lead + 1;
          ReachingShrinks(rest, reference, children, selection.offset);
          stack := rest + Reversed(Reaching(children, selection.offset));
      }
    }
    WalkDone(store.objects, selection.Progress(true), offset, allow);
    if timed {
      PromptEnd(root.tree.value, stack, offset, start, store.gets, selection.firstAt, lead, leaf);
    }
    r := Ok(true);
  }

  lemma WalkDone(objects: map<Key, Object>, scan: Scan, offset: int, allow: bool)
    ensures WalkIn(objects, [], scan, offset, allow) == Ok(scan)
  {
  }

  /** One step of the walk. */
  lemma WalkTop(objects: map<Key, Object>, rest: seq<PageRef>, r: PageRef, scan: Scan, offset: int, allow: bool)
    ensures var w := WalkIn(objects, rest + [r], scan, offset, allow);
      if r.nextOffset <= offset then w == WalkIn(objects, rest, scan, offset, allow)
      else if PageIn(objects, r).Err? then w == Err(PageIn(objects, r).error)
      else if PageIn(objects, r).value.LeafPage? then
        var next := ScanAll(scan, offset, allow, PageIn(objects, r).value.segments);
        w == if next.open then WalkIn(objects, rest, next, offset, allow) else Ok(next)
      else
        w == WalkIn(objects, rest + Reversed(Reaching(PageIn(objects, r).value.children, offset)), scan, offset, allow)
  {
    var stack := rest + [r];
    assert stack[..|stack| - 1] == rest && stack[|stack| - 1] == r;
  }

  /** The pages, then the tail. */
  ghost function SegmentsIn(objects: map<Key, Object>, root: Root, scan: Scan, offset: int, allow: bool): Result<Scan> {
    var w :- WalkIn(objects, StackOf(root), scan, offset, allow);
    Ok(ScanAll(w, offset, allow, root.tail))
  }

  /** The tail rule of a loaded root: its offsets stay in range. */
  ghost predicate TailInRange(root: Root) {
    Run(root.tail, TreeEnd(root)) && EndOffset(root.tail, TreeEnd(root)) <= I64_MAX + 1
  }

  /**
   * src/log/index.rs:462-498. The traversal ends on any contents of the store and does what is
   * specified on all of them. The first segment is taken or refused after at most one page read
   * per level of the tree.
   */
  method IndexedSegments(store: ObjectStore, root: Root, selection: Selection) returns (r: Result<()>)
    requires selection.store == store && selection.firstAt.None?
    modifies selection, store`gets
    ensures TailInRange(root) ==>
      var w := SegmentsIn(store.objects, root, old(selection.Progress(true)), selection.offset, selection.allowOversized);
      && (r.Err? ==> w == Err(r.error))
      && (r.Ok? ==> exists open :: w == Ok(selection.Progress(open)))
    ensures r.Ok? && selection.firstAt.None? ==> selection.segments == old(selection.segments)
    ensures r.Ok? && (root.tree.Some? ==> root.tree.value.firstOffset <= selection.offset) && selection.firstAt.Some? ==>
      selection.firstAt.value <= old(store.gets) + (if root.tree.Some? then root.tree.value.level + 1 else 0)
  {
    hide WalkIn, ScanAll;
    ghost var offset, allow := selection.offset, selection.allowOversized;
    var sealed := ScanPages(store, root, selection);
    if sealed.Err? {
      return Err(sealed.error);
    }
    ghost var middle := selection.Progress(sealed.value);
    if !sealed.value {
      StaysClosed(middle, offset, allow, root.tail);
      assert selection.Progress(false) == ScanAll(middle, offset, allow, root.tail);
      return Ok(());
    }
    var more := selection.PushEach(root.tail, TreeEnd(root));
    if more.Err? {
      return Err(more.error);
    }
    assert selection.Progress(more.value) == ScanAll(middle, offset, allow, root.tail);
    r := Ok(());
  }

  /**
   * Against a root that was ever sound: a traversal that succeeds selects exactly what the flat
   * loop selects from the whole log, and one that fails met a missing page.
   */
  lemma SegmentsMean(objects: map<Key, Object>, ever: map<Key, Object>, root: Root, scan: Scan, offset: int, allow: bool)
    requires Extends(objects, ever) && PartsSound(ever, root) && scan.open
    ensures var r := SegmentsIn(objects, root, scan, offset, allow);
      && (r.Ok? ==> r.value == ScanAll(scan, offset, allow, Contents(IndexOf(ever, root))))
      && (r.Err? ==> r.error == NotFound && !PartsSound(objects, root))
  {
    hide ScanAll, Sound, SegmentsOk, WalkIn, Scanning;
    TailLast(ever, root, scan, offset, allow);
    var final := ScanAll(scan, offset, allow, TreeContents(ever, root.tree));
    if root.tree.Some? {
      ScanningStart(ever, root.tree, scan, offset, allow);
      WalkMeans(objects, ever, root.tree.value, StackOf(root), scan, offset, allow, final);
      assert PartsSound(objects, root) ==> AllSound(objects, StackOf(root));
    } else {
      WalkDone(objects, scan, offset, allow);
      NothingScanned(scan, offset, allow);
    }
  }

  lemma NothingScanned(scan: Scan, offset: int, allow: bool)
    ensures ScanAll(scan, offset, allow, []) == scan
  {
  }

  /** The tail is scanned after the sealed pages. */
  lemma TailLast(objects: map<Key, Object>, root: Root, first: Scan, offset: int, allow: bool)
    requires PartsSound(objects, root)
    ensures root.tree.Some? ==> Sound(objects, root.tree.value)
    ensures ScanAll(first, offset, allow, Contents(IndexOf(objects, root)))
      == ScanAll(ScanAll(first, offset, allow, TreeContents(objects, root.tree)), offset, allow, root.tail)
  {
    hide ScanAll, Sound, SegmentsOk;
    ScanAppend(first, offset, allow, TreeContents(objects, root.tree), root.tail);
  }

  lemma StaysClosed(scan: Scan, offset: int, allow: bool, segments: seq<Segment>)
    requires !scan.open
    ensures ScanAll(scan, offset, allow, segments) == scan
  {
  }

  lemma LeafRun(objects: map<Key, Object>, r: PageRef, list: seq<Segment>)
    requires Holds(objects, r) && objects[r.key].page == LeafPage(list)
    ensures Run(list, r.firstOffset) && EndOffset(list, r.firstOffset) <= I64_MAX
  {
  }

  lemma ScanningClosed(objects: map<Key, Object>, tree: Option<PageRef>, rest: seq<PageRef>, scan: Scan, offset: int,
                       allow: bool, final: Scan)
    requires Scanning(objects, tree, rest, scan, offset, allow, final) && !scan.open
    requires tree.Some? ==> Sound(objects, tree.value)
    ensures scan == final
  {
  }
}
