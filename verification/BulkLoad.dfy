/** Two ways to build an index from a segment list, and why they agree. */
module BulkLoad {
  import opened LogTypes
  import opened IndexTree

  /** The whole index without names: the sealed tree, its level, and the active tail. */
  datatype Index = Index(tree: Option<Tree>, level: nat, tail: seq<Segment>)

  const EmptyIndex: Index := Index(None, 0, [])

  function Contents(ix: Index): seq<Segment> {
    (if ix.tree.Some? then Flatten(ix.tree.value) else []) + ix.tail
  }

  /** What every published index satisfies: a nonempty tail once anything is sealed. */
  ghost predicate WellFormed(ix: Index) {
    && |ix.tail| <= PAGE_ENTRIES
    && match ix.tree
       case None => ix.level == 0
       case Some(t) => Canonical(t, ix.level) && ix.tail != []
  }

  lemma {:induction false} WholeLeaves(t: Tree, level: nat)
    requires Shaped(t, level)
    ensures |Flatten(t)| % 64 == 0
    decreases level, 0
  {
    if level > 0 {
      WholeLeavesAll(t.children, level - 1);
    }
  }

  lemma {:induction false} WholeLeavesAll(ts: seq<Tree>, level: nat)
    requires Forest(ts, level)
    ensures |FlattenAll(ts)| % 64 == 0
    decreases level, 1, ts
  {
    if ts != [] {
      WholeLeaves(ts[0], level);
      WholeLeavesAll(ts[1..], level);
    }
  }

  /** A segment list has exactly one well-formed index. */
  lemma WellFormedUnique(a: Index, b: Index)
    requires WellFormed(a) && WellFormed(b) && Contents(a) == Contents(b)
    ensures a == b
  {
    SealedPart(a);
    SealedPart(b);
    var sealed := SealedLength(|Contents(a)|);
    assert a.tail == Contents(a)[sealed..] && b.tail == Contents(b)[sealed..];
    if a.tree.Some? {
      ShapedBounds(a.tree.value, a.level);
    }
    if b.tree.Some? {
      ShapedBounds(b.tree.value, b.level);
    }
    if a.tree.Some? && b.tree.Some? {
      assert Flatten(a.tree.value) == Contents(a)[..sealed];
      assert Flatten(b.tree.value) == Contents(b)[..sealed];
      CanonicalUnique(a.tree.value, a.level, b.tree.value, b.level);
    }
  }

  /** How many of n segments a bulk load seals into leaves (src/log/index.rs:381). */
  function SealedLength(n: nat): nat {
    if n == 0 then 0 else (n - 1) / PAGE_ENTRIES * PAGE_ENTRIES
  }

  lemma SealedPart(ix: Index)
    requires WellFormed(ix)
    ensures SealedLength(|Contents(ix)|) == |Contents(ix)| - |ix.tail|
  {
    if ix.tree.Some? {
      WholeLeaves(ix.tree.value, ix.level);
    }
  }

  // -------------------------------------------------------------- incremental growth

  /** Seal a full tail into a leaf at the right edge of the tree. */
  ghost function Seal(ix: Index): Index {
    var leaf := Leaf(ix.tail);
    match ix.tree
    case None => Index(Some(leaf), 0, [])
    case Some(t) => Index(Some(Insert(t, ix.level, leaf)), InsertLevel(t, ix.level), [])
  }

  ghost function Push(ix: Index, segment: Segment): Index {
    var room := if |ix.tail| == PAGE_ENTRIES then Seal(ix) else ix;
    room.(tail := room.tail + [segment])
  }

  ghost function PushAll(ix: Index, segments: seq<Segment>): Index
    decreases |segments|
  {
    if segments == [] then ix else PushAll(Push(ix, segments[0]), segments[1..])
  }

  lemma SealCorrect(ix: Index)
    requires WellFormed(ix) && |ix.tail| == PAGE_ENTRIES
    ensures Contents(Seal(ix)) == Contents(ix)
    ensures Seal(ix).tree.Some? && Seal(ix).tail == []
    ensures Canonical(Seal(ix).tree.value, Seal(ix).level)
  {
    if ix.tree.Some? {
      InsertCorrect(ix.tree.value, ix.level, Leaf(ix.tail));
    }
  }

  lemma PushCorrect(ix: Index, segment: Segment)
    requires WellFormed(ix)
    ensures WellFormed(Push(ix, segment))
    ensures Contents(Push(ix, segment)) == Contents(ix) + [segment]
  {
    if |ix.tail| == PAGE_ENTRIES {
      SealCorrect(ix);
    }
  }

  lemma {:induction false} PushAllCorrect(ix: Index, segments: seq<Segment>)
    requires WellFormed(ix)
    ensures WellFormed(PushAll(ix, segments))
    ensures Contents(PushAll(ix, segments)) == Contents(ix) + segments
    decreases |segments|
  {
    if segments != [] {
      PushCorrect(ix, segments[0]);
      PushAllCorrect(Push(ix, segments[0]), segments[1..]);
      assert [segments[0]] + segments[1..] == segments;
    }
  }

  // -------------------------------------------------------------- bulk load

  /** Consecutive groups of 64 segments, one leaf each. */
  function Leaves(segments: seq<Segment>): seq<Tree>
    requires |segments| % PAGE_ENTRIES == 0
    decreases |segments|
  {
    if segments == [] then [] else [Leaf(segments[..PAGE_ENTRIES])] + Leaves(segments[PAGE_ENTRIES..])
  }

  /** Consecutive groups of at most 64 pages, one parent each. */
  function Parents(ts: seq<Tree>): (ps: seq<Tree>)
    ensures |ps| == (|ts| + PAGE_ENTRIES - 1) / PAGE_ENTRIES
    decreases |ts|
  {
    if ts == [] then []
    else if |ts| <= PAGE_ENTRIES then [Branch(ts)]
    else [Branch(ts[..PAGE_ENTRIES])] + Parents(ts[PAGE_ENTRIES..])
  }

  /** Parents of parents until one page is left. */
  function Tower(ts: seq<Tree>, level: nat): (Option<Tree>, nat)
    decreases |ts|
  {
    if ts == [] then (None, level)
    else if |ts| == 1 then (Some(ts[0]), level)
    else Tower(Parents(ts), level + 1)
  }

  function Bulk(segments: seq<Segment>): Index {
    var sealed := SealedLength(|segments|);
    var (tree, level) := Tower(Leaves(segments[..sealed]), 0);
    Index(tree, level, segments[sealed..])
  }

  /** Pages a bulk load writes above n leaves, leaves included (src/log/index.rs:383-393). */
  function PageTotal(n: nat): nat {
    if n <= 1 then n else n + PageTotal((n + PAGE_ENTRIES - 1) / PAGE_ENTRIES)
  }

  lemma {:induction false} LeavesCorrect(segments: seq<Segment>)
    requires |segments| % PAGE_ENTRIES == 0
    ensures Forest(Leaves(segments), 0)
    ensures FlattenAll(Leaves(segments)) == segments
    ensures |Leaves(segments)| == |segments| / PAGE_ENTRIES
    decreases |segments|
  {
    if segments != [] {
      var rest := segments[PAGE_ENTRIES..];
      LeavesCorrect(rest);
      FlattenAllAppend([Leaf(segments[..PAGE_ENTRIES])], Leaves(rest));
      FlattenAllOne(Leaf(segments[..PAGE_ENTRIES]));
      assert segments[..PAGE_ENTRIES] + rest == segments;
      assert Capacity(0) == 64;
    }
  }

  lemma {:induction false} ParentsCorrect(ts: seq<Tree>, level: nat)
    requires Forest(ts, level)
    ensures Forest(Parents(ts), level + 1)
    ensures FlattenAll(Parents(ts)) == FlattenAll(ts)
    decreases |ts|
  {
    if ts == [] {
    } else if |ts| <= PAGE_ENTRIES {
      FlattenAllOne(Branch(ts));
    } else {
      var first, rest := ts[..PAGE_ENTRIES], ts[PAGE_ENTRIES..];
      assert ts == first + rest;
      ParentsCorrect(rest, level);
      FullForestLength(first, level);
      FlattenAllAppend(first, rest);
      FlattenAllAppend([Branch(first)], Parents(rest));
      FlattenAllOne(Branch(first));
      assert Full(Branch(first), level + 1);
      assert Forest(first, level);
      assert Shaped(Branch(first), level + 1);
    }
  }

  lemma {:induction false} TowerCorrect(ts: seq<Tree>, level: nat)
    requires Forest(ts, level)
    requires |ts| == 1 ==> Canonical(ts[0], level)
    ensures var (tree, top) := Tower(ts, level);
      match tree
      case None => ts == [] && top == level
      case Some(t) => Canonical(t, top) && Flatten(t) == FlattenAll(ts)
    decreases |ts|
  {
    if |ts| == 1 {
      assert ts == [ts[0]];
      FlattenAllOne(ts[0]);
    } else if |ts| > 1 {
      ParentsCorrect(ts, level);
      assert |Parents(ts)| < |ts|;
      if |Parents(ts)| == 1 {
        assert Parents(ts) == [Branch(ts)];
      }
      TowerCorrect(Parents(ts), level + 1);
    }
  }

  lemma BulkCorrect(segments: seq<Segment>)
    ensures WellFormed(Bulk(segments)) && Contents(Bulk(segments)) == segments
  {
    hide Leaves, Flatten;
    var sealed := SealedLength(|segments|);
    LeavesCorrect(segments[..sealed]);
    TowerCorrect(Leaves(segments[..sealed]), 0);
    assert segments == segments[..sealed] + segments[sealed..];
  }

  /**
   * Bulk load equals incremental growth: for every segment list the two constructions give the
   * same tree, level and tail.
   */
  lemma BulkEqualsIncremental(segments: seq<Segment>)
    ensures Bulk(segments) == PushAll(EmptyIndex, segments)
  {
    BulkCorrect(segments);
    PushAllCorrect(EmptyIndex, segments);
    assert Contents(EmptyIndex) + segments == segments;
    WellFormedUnique(Bulk(segments), PushAll(EmptyIndex, segments));
  }

  /** Growing a bulk-loaded index further is the same as loading the longer list. */
  lemma BulkThenPush(segments: seq<Segment>, more: seq<Segment>)
    ensures PushAll(Bulk(segments), more) == Bulk(segments + more)
  {
    BulkCorrect(segments);
    BulkCorrect(segments + more);
    PushAllCorrect(Bulk(segments), more);
    WellFormedUnique(PushAll(Bulk(segments), more), Bulk(segments + more));
  }
}
