/** Index pages in the store: what a reference denotes, and the checks that guard every read and write. */
module IndexPages {
  import opened LogTypes
  import opened IndexTree
  import opened ObjectStores

  const MAX_LEVEL: nat := 10

  // -------------------------------------------------------------- segment runs

  ghost predicate InLimits(s: Segment) {
    && s.key.SegmentKey?
    && 0 < s.recordCount <= MAX_BATCH_RECORDS
    && 0 < s.byteLength <= MAX_BATCH_BYTES
  }

  function EndOffset(segments: seq<Segment>, start: int): int {
    if segments == [] then start
    else segments[|segments| - 1].baseOffset + segments[|segments| - 1].recordCount
  }

  /** Segments within the writer's limits that follow one another from `start` without a gap. */
  ghost predicate Run(segments: seq<Segment>, start: int) {
    segments == [] ||
    (var front, last := segments[..|segments| - 1], segments[|segments| - 1];
     Run(front, start) && InLimits(last) && last.baseOffset == EndOffset(front, start))
  }

  function SegmentKeys(segments: seq<Segment>): set<Key> {
    if segments == [] then {}
    else SegmentKeys(segments[..|segments| - 1]) + {segments[|segments| - 1].key}
  }

  /** The segments of a run are record objects. */
  lemma {:induction false} RunKeys(segments: seq<Segment>, start: int, k: Key)
    requires Run(segments, start)
    ensures k in SegmentKeys(segments) ==> k.SegmentKey?
  {
    if segments != [] {
      RunKeys(segments[..|segments| - 1], start, k);
    }
  }

  predicate DistinctObjects(segments: seq<Segment>) {
    segments == [] ||
    (DistinctObjects(segments[..|segments| - 1])
     && segments[|segments| - 1].key !in SegmentKeys(segments[..|segments| - 1]))
  }

  ghost predicate SegmentsOk(segments: seq<Segment>, start: int) {
    Run(segments, start) && DistinctObjects(segments) && (segments == [] || EndOffset(segments, start) <= I64_MAX)
  }

  /** Offsets rise along a run, so it never holds more segments than offsets. */
  lemma {:induction false} RunRises(segments: seq<Segment>, start: int)
    requires Run(segments, start)
    ensures start + |segments| <= EndOffset(segments, start)
  {
    if segments != [] {
      RunRises(segments[..|segments| - 1], start);
    }
  }

  lemma {:induction false} RunAppend(a: seq<Segment>, b: seq<Segment>, start: int)
    ensures Run(a + b, start) <==> Run(a, start) && Run(b, EndOffset(a, start))
    ensures EndOffset(a + b, start) == EndOffset(b, EndOffset(a, start))
    decreases |b|
  {
    if b == [] {
      assert a + b == a;
    } else {
      var n := |b| - 1;
      RunAppend(a, b[..n], start);
      assert (a + b)[..|a + b| - 1] == a + b[..n];
    }
  }

  lemma {:induction false} SegmentKeysAppend(a: seq<Segment>, b: seq<Segment>)
    ensures SegmentKeys(a + b) == SegmentKeys(a) + SegmentKeys(b)
    decreases |b|
  {
    if b == [] {
      assert a + b == a;
    } else {
      SegmentKeysAppend(a, b[..|b| - 1]);
      assert (a + b)[..|a + b| - 1] == a + b[..|b| - 1];
    }
  }

  lemma {:induction false} DistinctFront(a: seq<Segment>, b: seq<Segment>)
    requires DistinctObjects(a + b)
    ensures DistinctObjects(a)
    decreases |b|
  {
    if b == [] {
      assert a + b == a;
    } else {
      assert (a + b)[..|a + b| - 1] == a + b[..|b| - 1];
      DistinctFront(a, b[..|b| - 1]);
    }
  }

  /** A prefix of valid segments is valid. */
  lemma SegmentsOkPrefix(segments: seq<Segment>, i: nat, start: int)
    requires i <= |segments| && SegmentsOk(segments, start)
    ensures SegmentsOk(segments[..i], start)
  {
    var a, b := segments[..i], segments[i..];
    assert segments == a + b;
    RunAppend(a, b, start);
    RunRises(b, EndOffset(a, start));
    DistinctFront(a, b);
  }

  /** src/log.rs:990-1037, without checksums: the end offset of a valid run, or an error. */
  method ValidateSegments(segments: seq<Segment>, start: int) returns (r: Result<int>)
    ensures r.Ok? <==> SegmentsOk(segments, start)
    ensures r.Ok? ==> r.value == EndOffset(segments, start)
  {
    var next := start;
    var seen: set<Key> := {};
    var i := 0;
    while i < |segments|
      invariant 0 <= i <= |segments|
      invariant next == EndOffset(segments[..i], start)
      invariant SegmentsOk(segments[..i], start)
      invariant seen == SegmentKeys(segments[..i])
    {
      var s := segments[i];
      ghost var longer := segments[..i + 1];
      assert longer[..|longer| - 1] == segments[..i] && longer[|longer| - 1] == s;
      if s.baseOffset != next || !s.key.SegmentKey? || s.recordCount == 0 || s.recordCount > MAX_BATCH_RECORDS
         || s.byteLength == 0 || s.byteLength > MAX_BATCH_BYTES || s.key in seen
      {
        assert !SegmentsOk(longer, start);
        if SegmentsOk(segments, start) {
          SegmentsOkPrefix(segments, i + 1, start);
        }
        return Err(Invalid);
      }
      if s.baseOffset + s.recordCount > I64_MAX {
        assert !SegmentsOk(longer, start);
        if SegmentsOk(segments, start) {
          SegmentsOkPrefix(segments, i + 1, start);
        }
        return Err(OffsetOverflow);
      }
      seen := seen + {s.key};
      next := s.baseOffset + s.recordCount;
      i := i + 1;
    }
    assert segments[..i] == segments;
    r := Ok(next);
  }

  // -------------------------------------------------------------- page references

  function RefCapacity(level: nat): nat {
    if level < MAX_LEVEL then Capacity(level) else U64_MAX
  }

  predicate RefFull(r: PageRef) {
    r.segmentCount == RefCapacity(r.level)
  }

  /** src/log/index.rs:86-107; the i64 range of the offsets is part of their type there. */
  ghost predicate RefValid(r: PageRef) {
    && r.key.IndexKey?
    && r.level <= MAX_LEVEL
    && 0 <= r.firstOffset < r.nextOffset <= I64_MAX
    && 0 < r.segmentCount <= r.nextOffset - r.firstOffset
    && r.segmentCount <= RefCapacity(r.level)
  }

  method CheckReference(r: PageRef) returns (ok: bool)
    ensures ok == RefValid(r)
  {
    if !r.key.IndexKey? || r.level > MAX_LEVEL || r.firstOffset < 0 || r.nextOffset <= r.firstOffset || r.nextOffset > I64_MAX {
      return false;
    }
    var capacity := RefCapacity(r.level);
    ok := r.segmentCount != 0 && r.segmentCount <= r.nextOffset - r.firstOffset && r.segmentCount <= capacity;
  }

  function CountAll(children: seq<PageRef>): nat {
    if children == [] then 0 else CountAll(children[..|children| - 1]) + children[|children| - 1].segmentCount
  }

  function PageKeys(children: seq<PageRef>): set<Key> {
    set i | 0 <= i < |children| :: children[i].key
  }

  ghost predicate Adjacent(children: seq<PageRef>) {
    forall i :: 0 < i < |children| ==> children[i].firstOffset == children[i - 1].nextOffset
  }

  ghost predicate DistinctPages(children: seq<PageRef>) {
    forall i, j :: 0 <= i < j < |children| ==> children[i].key != children[j].key
  }

  /** Sibling references of one level: adjacent ranges, distinct objects, all but the last full. */
  ghost predicate Siblings(children: seq<PageRef>, level: nat) {
    && (forall i :: 0 <= i < |children| ==> RefValid(children[i]) && children[i].level == level)
    && (forall i :: 0 <= i < |children| - 1 ==> RefFull(children[i]))
    && Adjacent(children)
    && DistinctPages(children)
  }

  ghost predicate ChildrenOk(children: seq<PageRef>) {
    && 1 <= |children| <= PAGE_ENTRIES
    && children[0].level < MAX_LEVEL
    && Siblings(children, children[0].level)
  }

  lemma SiblingsSnoc(front: seq<PageRef>, c: PageRef, level: nat)
    ensures Siblings(front + [c], level) <==>
      && Siblings(front, level)
      && RefValid(c)
      && c.level == level
      && c.key !in PageKeys(front)
      && (front != [] ==> RefFull(front[|front| - 1]) && c.firstOffset == front[|front| - 1].nextOffset)
  {
    var all := front + [c];
    assert all[|front|] == c;
    assert forall i :: 0 <= i < |front| ==> all[i] == front[i];
    if Siblings(all, level) {
      forall i | 0 <= i < |front| ensures RefValid(front[i]) && front[i].level == level && RefFull(front[i]) {
        assert all[i] == front[i];
      }
      forall i | 0 < i < |front| ensures front[i].firstOffset == front[i - 1].nextOffset {
        assert all[i] == front[i] && all[i - 1] == front[i - 1];
      }
    }
  }

  /** First offset, next offset, segment count and level of a page. */
  datatype Summary = Summary(firstOffset: int, nextOffset: int, count: nat, level: nat)

  function Describe(page: IndexPage): Summary
    requires match page case LeafPage(s) => s != [] case BranchPage(c) => c != []
  {
    match page
    case LeafPage(s) => Summary(s[0].baseOffset, EndOffset(s, s[0].baseOffset), |s|, 0)
    case BranchPage(c) => Summary(c[0].firstOffset, c[|c| - 1].nextOffset, CountAll(c), c[0].level + 1)
  }

  function RefTo(key: Key, s: Summary): PageRef {
    PageRef(key, s.firstOffset, s.nextOffset, s.count, s.level)
  }

  lemma {:induction false} CountsFit(children: seq<PageRef>)
    requires children != []
    requires forall i :: 0 <= i < |children| ==> RefValid(children[i])
    requires Adjacent(children)
    ensures 0 < CountAll(children) <= children[|children| - 1].nextOffset - children[0].firstOffset
    decreases |children|
  {
    var front := children[..|children| - 1];
    if front != [] {
      CountsFit(front);
      assert children[|children| - 1].firstOffset == children[|children| - 2].nextOffset;
      assert front[|front| - 1] == children[|children| - 2] && front[0] == children[0];
    } else {
      assert CountAll(front) == 0;
    }
  }

  lemma {:induction false} CountsCap(children: seq<PageRef>, level: nat)
    requires forall i :: 0 <= i < |children| ==> RefValid(children[i]) && children[i].level == level
    requires level < MAX_LEVEL
    ensures CountAll(children) <= |children| * Capacity(level)
  {
    if children != [] {
      CountsCap(children[..|children| - 1], level);
      assert (|children| - 1) * Capacity(level) + Capacity(level) == |children| * Capacity(level);
    }
  }

  /** The reference of a well-formed branch always passes its own validation. */
  lemma BranchRefValid(children: seq<PageRef>, key: Key)
    requires ChildrenOk(children) && key.IndexKey?
    ensures RefValid(RefTo(key, Describe(BranchPage(children))))
  {
    CountsFit(children);
    var level := children[0].level;
    CountsCap(children, level);
    MulMonotone(|children|, 64, Capacity(level));
  }

  /** Any failed check on one child means the whole list is not a valid set of siblings. */
  lemma NotSiblings(children: seq<PageRef>, i: nat, level: nat)
    requires i < |children|
    requires
      || !RefValid(children[i])
      || children[i].firstOffset != (if i == 0 then children[0].firstOffset else children[i - 1].nextOffset)
      || children[i].level != level
      || children[i].key in PageKeys(children[..i])
      || (i + 1 < |children| && !RefFull(children[i]))
    ensures !Siblings(children, level)
  {
    if children[i].key in PageKeys(children[..i]) {
      var j :| 0 <= j < i && children[..i][j].key == children[i].key;
      assert children[j].key == children[i].key;
    }
  }

  lemma NoSiblings(level: nat)
    ensures Siblings([], level)
  {
  }

  lemma NextChild(front: seq<PageRef>, c: PageRef, level: nat)
    requires Siblings(front + [c], level)
    ensures CountAll(front + [c]) == CountAll(front) + c.segmentCount <= U64_MAX
    ensures PageKeys(front + [c]) == PageKeys(front) + {c.key}
  {
    var all := front + [c];
    CountsFit(all);
    assert all[..|all| - 1] == front;
    assert all[|front|] == c;
    assert forall k :: 0 <= k < |front| ==> all[k] == front[k];
  }

  /** src/log/index.rs:501-531. The checked sum there cannot overflow. */
  method ValidateChildren(children: seq<PageRef>) returns (r: Result<Summary>)
    ensures r.Ok? <==> ChildrenOk(children)
    ensures r.Ok? ==> r.value == Describe(BranchPage(children))
  {
    if children == [] {
      return Err(Invalid);
    }
    var first := children[0];
    if |children| > PAGE_ENTRIES || first.level >= MAX_LEVEL {
      return Err(Invalid);
    }
    hide Siblings, RefValid, RefFull;
    NoSiblings(first.level);
    var next, count := first.firstOffset, 0;
    var seen: set<Key> := {};
    var i := 0;
    while i < |children|
      invariant 0 <= i <= |children|
      invariant Siblings(children[..i], first.level)
      invariant 0 < i < |children| ==> RefFull(children[i - 1])
      invariant count == CountAll(children[..i])
      invariant next == if i == 0 then first.firstOffset else children[i - 1].nextOffset
      invariant seen == PageKeys(children[..i])
    {
      var child := children[i];
      var valid := CheckReference(child);
      if !valid || child.firstOffset != next || child.level != first.level || child.key in seen
         || (i + 1 < |children| && !RefFull(child)) {
        NotSiblings(children, i, first.level);
        return Err(Invalid);
      }
      assert children[..i + 1] == children[..i] + [child];
      SiblingsSnoc(children[..i], child, first.level);
      NextChild(children[..i], child, first.level);
      seen := seen + {child.key};
      next := child.nextOffset;
      count := count + child.segmentCount;
      i := i + 1;
    }
    assert children[..i] == children;
    r := Ok(Summary(first.firstOffset, next, count, first.level + 1));
  }

  // -------------------------------------------------------------- pages

  /** What read_page accepts below a reference (src/log/index.rs:211-263). */
  ghost predicate PageOk(page: IndexPage) {
    match page
    case LeafPage(s) => |s| == PAGE_ENTRIES && SegmentsOk(s, s[0].baseOffset)
    case BranchPage(c) => ChildrenOk(c)
  }

  ghost predicate Holds(objects: map<Key, Object>, r: PageRef) {
    && RefValid(r)
    && r.key in objects
    && objects[r.key].IndexObject?
    && PageOk(objects[r.key].page)
    && RefTo(r.key, Describe(objects[r.key].page)) == r
  }

  /** Every page below the reference is present and passes the checks of read_page. */
  ghost predicate Sound(objects: map<Key, Object>, r: PageRef)
    decreases r.level
  {
    && Holds(objects, r)
    && match objects[r.key].page
       case LeafPage(_) => true
       case BranchPage(c) => forall i :: 0 <= i < |c| ==> c[i].level < r.level && Sound(objects, c[i])
  }

  ghost predicate AllSound(objects: map<Key, Object>, refs: seq<PageRef>) {
    forall i :: 0 <= i < |refs| ==> Sound(objects, refs[i])
  }

  /** The tree a sound reference denotes. */
  ghost function Load(objects: map<Key, Object>, r: PageRef): Tree
    requires Sound(objects, r)
    decreases r.level
  {
    match objects[r.key].page
    case LeafPage(s) => Leaf(s)
    case BranchPage(c) => Branch(seq(|c|, i requires 0 <= i < |c| => Load(objects, c[i])))
  }

  ghost function LoadAll(objects: map<Key, Object>, refs: seq<PageRef>): (ts: seq<Tree>)
    requires AllSound(objects, refs)
    ensures |ts| == |refs|
  {
    seq(|refs|, i requires 0 <= i < |refs| => Load(objects, refs[i]))
  }

  /** Every key a sound reference reaches: its pages and its segments. */
  ghost function Keys(objects: map<Key, Object>, r: PageRef): set<Key>
    requires Sound(objects, r)
    decreases r.level
  {
    match objects[r.key].page
    case LeafPage(s) => {r.key} + SegmentKeys(s)
    case BranchPage(c) => {r.key} + Union(seq(|c|, i requires 0 <= i < |c| => Keys(objects, c[i])))
  }

  function Union(sets: seq<set<Key>>): set<Key> {
    if sets == [] then {} else Union(sets[..|sets| - 1]) + sets[|sets| - 1]
  }

  lemma {:induction false} UnionHas(sets: seq<set<Key>>, k: Key)
    ensures k in Union(sets) <==> exists i :: 0 <= i < |sets| && k in sets[i]
  {
    if sets != [] {
      var n := |sets| - 1;
      UnionHas(sets[..n], k);
      if i :| 0 <= i < |sets| && k in sets[i] {
        assert i < n ==> sets[..n][i] == sets[i];
      }
    }
  }

  ghost function KeysAll(objects: map<Key, Object>, refs: seq<PageRef>): (ks: seq<set<Key>>)
    requires AllSound(objects, refs)
    ensures |ks| == |refs|
  {
    seq(|refs|, i requires 0 <= i < |refs| => Keys(objects, refs[i]))
  }

  lemma LoadBranch(objects: map<Key, Object>, r: PageRef)
    requires Sound(objects, r) && objects[r.key].page.BranchPage?
    ensures AllSound(objects, objects[r.key].page.children)
    ensures forall i :: 0 <= i < |objects[r.key].page.children| ==> objects[r.key].page.children[i].level < r.level
    ensures objects[r.key].page.children != [] && r.level > 0
    ensures Load(objects, r) == Branch(LoadAll(objects, objects[r.key].page.children))
    ensures Keys(objects, r) == {r.key} + Union(KeysAll(objects, objects[r.key].page.children))
  {
  }

  /** Objects are never overwritten, so what a reference denotes never changes. */
  lemma {:induction false} SoundFrame(before: map<Key, Object>, after: map<Key, Object>, r: PageRef)
    requires Sound(before, r) && Extends(before, after)
    ensures Sound(after, r)
    ensures Load(after, r) == Load(before, r)
    ensures Keys(after, r) == Keys(before, r)
    decreases r.level, 1
  {
    match before[r.key].page
    case LeafPage(_) =>
    case BranchPage(c) =>
      AllSoundFrame(before, after, c, r.level);
      LoadBranch(before, r);
      LoadBranch(after, r);
  }

  lemma {:induction false} AllSoundFrame(before: map<Key, Object>, after: map<Key, Object>, refs: seq<PageRef>, level: nat)
    requires AllSound(before, refs) && Extends(before, after)
    requires forall i :: 0 <= i < |refs| ==> refs[i].level < level
    ensures AllSound(after, refs)
    ensures LoadAll(after, refs) == LoadAll(before, refs)
    ensures KeysAll(after, refs) == KeysAll(before, refs)
    decreases level, 0
  {
    forall i | 0 <= i < |refs|
      ensures Sound(after, refs[i])
      ensures Load(after, refs[i]) == Load(before, refs[i])
      ensures Keys(after, refs[i]) == Keys(before, refs[i])
    {
      SoundFrame(before, after, refs[i]);
    }
  }

  /** The checks on each page amount to the tree invariant: shape, contiguity, counts and limits. */
  lemma {:induction false} SoundShaped(objects: map<Key, Object>, r: PageRef)
    requires Sound(objects, r)
    ensures Shaped(Load(objects, r), r.level)
    ensures |Flatten(Load(objects, r))| == r.segmentCount
    ensures Run(Flatten(Load(objects, r)), r.firstOffset)
    ensures EndOffset(Flatten(Load(objects, r)), r.firstOffset) == r.nextOffset
    ensures RefFull(r) <==> Full(Load(objects, r), r.level)
    decreases r.level, 1
  {
    hide Shaped, Flatten, FlattenAll, CountAll, Run, EndOffset, RefCapacity, Capacity;
    match objects[r.key].page {
      case LeafPage(s) => LeafContents(objects, r, s);
      case BranchPage(c) =>
        LoadBranch(objects, r);
        forall i | 0 <= i < |c|
          ensures Shaped(LoadAll(objects, c)[i], r.level - 1)
          ensures RefFull(c[i]) <==> Full(LoadAll(objects, c)[i], r.level - 1)
        {
          SoundShaped(objects, c[i]);
        }
        BranchShaped(LoadAll(objects, c), r.level);
        ForestContents(objects, c, r.level - 1);
        RefSummary(objects, r);
    }
    FullCapacity(r, Load(objects, r));
  }

  lemma LeafContents(objects: map<Key, Object>, r: PageRef, s: seq<Segment>)
    requires Holds(objects, r) && Sound(objects, r) && objects[r.key].page == LeafPage(s)
    ensures Load(objects, r) == Leaf(s) && Flatten(Leaf(s)) == s && r.level == 0 && Shaped(Leaf(s), 0)
    ensures |s| == r.segmentCount && Run(s, r.firstOffset) && EndOffset(s, r.firstOffset) == r.nextOffset
  {
  }

  lemma BranchShaped(ts: seq<Tree>, level: nat)
    requires level > 0 && 1 <= |ts| <= PAGE_ENTRIES
    requires forall i :: 0 <= i < |ts| ==> Shaped(ts[i], level - 1) && (i + 1 < |ts| ==> Full(ts[i], level - 1))
    ensures Shaped(Branch(ts), level) && Flatten(Branch(ts)) == FlattenAll(ts)
  {
    hide Full;
  }

  lemma RefSummary(objects: map<Key, Object>, r: PageRef)
    requires Holds(objects, r) && objects[r.key].page.BranchPage?
    ensures var c := objects[r.key].page.children;
      && c != [] && r.segmentCount == CountAll(c)
      && r.firstOffset == c[0].firstOffset && r.nextOffset == c[|c| - 1].nextOffset
  {
  }

  lemma FullCapacity(r: PageRef, t: Tree)
    requires RefValid(r) && |Flatten(t)| == r.segmentCount
    ensures RefFull(r) <==> Full(t, r.level)
  {
    if r.level == MAX_LEVEL {
      CapacityTen();
    }
  }

  lemma {:induction false} ForestContents(objects: map<Key, Object>, refs: seq<PageRef>, level: nat)
    requires AllSound(objects, refs) && Adjacent(refs) && refs != []
    requires forall i :: 0 <= i < |refs| ==> refs[i].level == level
    ensures |FlattenAll(LoadAll(objects, refs))| == CountAll(refs)
    ensures Run(FlattenAll(LoadAll(objects, refs)), refs[0].firstOffset)
    ensures EndOffset(FlattenAll(LoadAll(objects, refs)), refs[0].firstOffset) == refs[|refs| - 1].nextOffset
    decreases level + 1, 0, |refs|
  {
    var n := |refs| - 1;
    var front, last := refs[..n], refs[n];
    var ts := LoadAll(objects, refs);
    assert ts == LoadAll(objects, front) + [Load(objects, last)];
    FlattenAllAppend(LoadAll(objects, front), [Load(objects, last)]);
    FlattenAllOne(Load(objects, last));
    SoundShaped(objects, last);
    if n > 0 {
      ForestContents(objects, front, level);
      assert refs[n].firstOffset == refs[n - 1].nextOffset;
      RunAppend(FlattenAll(LoadAll(objects, front)), Flatten(Load(objects, last)), refs[0].firstOffset);
    } else {
      assert FlattenAll(ts) == Flatten(Load(objects, last));
    }
  }

  /** A sound reference reaches pages of the store and the segments of its contents, nothing else. */
  lemma {:induction false} KeysPages(objects: map<Key, Object>, r: PageRef, k: Key)
    requires Sound(objects, r)
    ensures k in Keys(objects, r) ==> (k in objects && k.IndexKey?) || k in SegmentKeys(Flatten(Load(objects, r)))
    ensures k in SegmentKeys(Flatten(Load(objects, r))) ==> k in Keys(objects, r)
    decreases r.level, 1, 0
  {
    match objects[r.key].page
    case LeafPage(s) =>
    case BranchPage(c) =>
      LoadBranch(objects, r);
      KeysPagesAll(objects, c, r.level, k);
  }

  lemma {:induction false} KeysPagesAll(objects: map<Key, Object>, refs: seq<PageRef>, level: nat, k: Key)
    requires AllSound(objects, refs)
    requires forall i :: 0 <= i < |refs| ==> refs[i].level < level
    ensures k in Union(KeysAll(objects, refs)) ==>
      (k in objects && k.IndexKey?) || k in SegmentKeys(FlattenAll(LoadAll(objects, refs)))
    ensures k in SegmentKeys(FlattenAll(LoadAll(objects, refs))) ==> k in Union(KeysAll(objects, refs))
    decreases level, 0, |refs|
  {
    hide Sound, Load, Keys, Flatten;
    if refs != [] {
      var n := |refs| - 1;
      var front, last := refs[..n], refs[n];
      KeysPagesAll(objects, front, level, k);
      KeysPages(objects, last, k);
      var a, b := FlattenAll(LoadAll(objects, front)), Flatten(Load(objects, last));
      assert LoadAll(objects, refs) == LoadAll(objects, front) + [Load(objects, last)];
      assert KeysAll(objects, refs)[..n] == KeysAll(objects, front);
      FlattenAllAppend(LoadAll(objects, front), [Load(objects, last)]);
      FlattenAllOne(Load(objects, last));
      SegmentKeysAppend(a, b);
    }
  }
}
