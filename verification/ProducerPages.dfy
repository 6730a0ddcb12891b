/** Producer pages in the store: checked reads and writes, lookup, copy-on-write update and trace. */
module ProducerPages {
  import opened LogTypes
  import opened ObjectStores
  import opened ProducerTree
  import ProducerWindow
  import IndexPages

  const MAX_LEVEL: nat := 12

  // -------------------------------------------------------------- references and pages

  /** src/log/producer.rs:25-48; the i64 range of the identifiers is part of their type there. */
  ghost predicate RefValid(r: ProducerRef) {
    && r.key.ProducerKey?
    && 0 <= r.firstId <= r.lastId <= I64_MAX
    && 0 < r.count <= r.lastId - r.firstId + 1
    && r.level <= MAX_LEVEL
    && r.count <= IndexPages.RefCapacity(r.level)
  }

  method CheckReference(r: ProducerRef) returns (ok: bool)
    ensures ok == RefValid(r)
  {
    if !r.key.ProducerKey? || r.firstId < 0 || r.lastId < r.firstId || r.lastId > I64_MAX || r.level > MAX_LEVEL {
      return false;
    }
    var capacity := IndexPages.RefCapacity(r.level);
    ok := r.count != 0 && r.count <= r.lastId - r.firstId + 1 && r.count <= capacity;
  }

  datatype Bounds = Bounds(firstId: int, lastId: int, count: nat, level: nat)

  function RefTo(key: Key, b: Bounds): ProducerRef {
    ProducerRef(key, b.firstId, b.lastId, b.count, b.level)
  }

  function CountAll(children: seq<ProducerRef>): nat {
    if children == [] then 0 else CountAll(children[..|children| - 1]) + children[|children| - 1].count
  }

  function Describe(page: ProducerPage): Bounds
    requires match page case ProducerLeaf(s) => s != [] case ProducerBranch(c) => c != []
  {
    match page
    case ProducerLeaf(s) => Bounds(s[0].id, s[|s| - 1].id, |s|, 0)
    case ProducerBranch(c) => Bounds(c[0].firstId, c[|c| - 1].lastId, CountAll(c), c[0].level + 1)
  }

  ghost predicate StatesOk(ss: seq<ProducerState>, nextOffset: int) {
    forall i :: 0 <= i < |ss| ==> ProducerWindow.StateOk(ss[i], nextOffset)
  }

  ghost predicate Rising(ss: seq<ProducerState>) {
    forall i :: 0 < i < |ss| ==> ss[i - 1].id < ss[i].id
  }

  ghost predicate Siblings(children: seq<ProducerRef>, level: nat) {
    && (forall i :: 0 <= i < |children| ==> RefValid(children[i]) && children[i].level == level)
    && (forall i :: 0 < i < |children| ==> children[i - 1].lastId < children[i].firstId)
  }

  /** What the page check accepts (src/log/producer.rs:188-240). */
  ghost predicate PageOk(page: ProducerPage, nextOffset: int) {
    match page
    case ProducerLeaf(s) => 1 <= |s| <= PAGE_ENTRIES && StatesOk(s, nextOffset) && Rising(s)
    case ProducerBranch(c) => 2 <= |c| <= PAGE_ENTRIES && Siblings(c, c[0].level)
  }

  lemma {:induction false} RisingSorted(ss: seq<ProducerState>)
    requires Rising(ss)
    ensures Sorted(ss)
  {
    if ss != [] {
      var n := |ss| - 1;
      var front := ss[..n];
      assert forall i :: 0 <= i < n ==> front[i] == ss[i];
      RisingSorted(front);
      forall i, j | 0 <= i < j < |ss| ensures ss[i].id < ss[j].id {
        if j == n && i < n - 1 {
          assert front[i].id < front[n - 1].id;
        } else if j < n {
          assert front[i].id < front[j].id;
        }
      }
    }
  }

  lemma {:induction false} CountsFit(children: seq<ProducerRef>, level: nat)
    requires children != [] && Siblings(children, level)
    ensures 0 < CountAll(children) <= children[|children| - 1].lastId - children[0].firstId + 1
    decreases |children|
  {
    var front := children[..|children| - 1];
    if front == [] {
      assert CountAll(front) == 0;
    } else {
      assert Siblings(front, level);
      CountsFit(front, level);
      assert children[|children| - 2].lastId < children[|children| - 1].firstId;
    }
  }

  lemma SiblingsPrefix(children: seq<ProducerRef>, i: nat, level: nat)
    requires Siblings(children, level) && i <= |children|
    ensures Siblings(children[..i], level)
  {
  }

  method CheckLeaf(s: seq<ProducerState>, nextOffset: int) returns (r: Result<Bounds>)
    ensures r.Ok? <==> PageOk(ProducerLeaf(s), nextOffset)
    ensures r.Ok? ==> r.value == Describe(ProducerLeaf(s))
    ensures r.Err? ==> r.error == Invalid
  {
    hide ProducerWindow.StateOk;
    if s == [] || |s| > PAGE_ENTRIES {
      return Err(Invalid);
    }
    var i := 0;
    while i < |s|
      invariant 0 <= i <= |s|
      invariant forall k :: 0 <= k < i ==> ProducerWindow.StateOk(s[k], nextOffset)
    {
      var ok := ProducerWindow.ValidateState(s[i], nextOffset);
      if !ok {
        return Err(Invalid);
      }
      i := i + 1;
    }
    i := 1;
    while i < |s|
      invariant 1 <= i <= |s|
      invariant forall k :: 0 < k < i ==> s[k - 1].id < s[k].id
    {
      if s[i - 1].id >= s[i].id {
        return Err(Invalid);
      }
      i := i + 1;
    }
    r := Ok(Bounds(s[0].id, s[|s| - 1].id, |s|, 0));
  }

  /** The checked sum of the source can overflow only on overlapping ranges. */
  method CheckBranch(c: seq<ProducerRef>, nextOffset: int) returns (r: Result<Bounds>)
    ensures r.Ok? <==> PageOk(ProducerBranch(c), nextOffset)
    ensures r.Ok? ==> r.value == Describe(ProducerBranch(c))
    ensures r.Err? ==> r.error == Invalid
  {
    hide RefValid;
    if |c| < 2 || |c| > PAGE_ENTRIES {
      return Err(Invalid);
    }
    var count, i := 0, 0;
    while i < |c|
      invariant 0 <= i <= |c|
      invariant forall k :: 0 <= k < i ==> RefValid(c[k]) && c[k].level == c[0].level
      invariant count == CountAll(c[..i])
    {
      assert c[..i + 1][..i] == c[..i];
      var valid := CheckReference(c[i]);
      if !valid {
        return Err(Invalid);
      }
      if count + c[i].count > U64_MAX {
        Overflowing(c, i);
        return Err(Invalid);
      }
      count := count + c[i].count;
      if c[i].level != c[0].level {
        return Err(Invalid);
      }
      i := i + 1;
    }
    assert c[..|c|] == c;
    i := 1;
    while i < |c|
      invariant 1 <= i <= |c|
      invariant forall k :: 0 < k < i ==> c[k - 1].lastId < c[k].firstId
    {
      if c[i - 1].lastId >= c[i].firstId {
        return Err(Invalid);
      }
      i := i + 1;
    }
    r := Ok(Bounds(c[0].firstId, c[|c| - 1].lastId, count, c[0].level + 1));
  }

  /** src/log/producer.rs:188-240 */
  method CheckPage(page: ProducerPage, nextOffset: int) returns (r: Result<Bounds>)
    ensures r.Ok? <==> PageOk(page, nextOffset)
    ensures r.Ok? ==> r.value == Describe(page)
    ensures r.Err? ==> r.error == Invalid
  {
    match page {
      case ProducerLeaf(producers) => r := CheckLeaf(producers, nextOffset);
      case ProducerBranch(children) => r := CheckBranch(children, nextOffset);
    }
  }

  lemma Overflowing(c: seq<ProducerRef>, i: nat)
    requires i < |c| && CountAll(c[..i + 1]) > U64_MAX
    ensures !Siblings(c, c[0].level)
  {
    if Siblings(c, c[0].level) {
      SiblingsPrefix(c, i + 1, c[0].level);
      CountsFit(c[..i + 1], c[0].level);
    }
  }

  // -------------------------------------------------------------- what a reference denotes

  ghost predicate Holds(objects: map<Key, Object>, r: ProducerRef, nextOffset: int) {
    && RefValid(r)
    && r.key in objects
    && objects[r.key].ProducerObject?
    && PageOk(objects[r.key].producerPage, nextOffset)
    && RefTo(r.key, Describe(objects[r.key].producerPage)) == r
  }

  /** Every page below the reference is present and passes the checks of a read. */
  ghost predicate Sound(objects: map<Key, Object>, r: ProducerRef, nextOffset: int)
    decreases r.level
  {
    && Holds(objects, r, nextOffset)
    && match objects[r.key].producerPage
       case ProducerLeaf(_) => true
       case ProducerBranch(c) => forall i :: 0 <= i < |c| ==> c[i].level < r.level && Sound(objects, c[i], nextOffset)
  }

  ghost predicate AllSound(objects: map<Key, Object>, refs: seq<ProducerRef>, nextOffset: int) {
    forall i :: 0 <= i < |refs| ==> Sound(objects, refs[i], nextOffset)
  }

  ghost function Load(objects: map<Key, Object>, r: ProducerRef, nextOffset: int): Tree
    requires Sound(objects, r, nextOffset)
    decreases r.level
  {
    match objects[r.key].producerPage
    case ProducerLeaf(s) => Leaf(s)
    case ProducerBranch(c) => Branch(seq(|c|, i requires 0 <= i < |c| => Load(objects, c[i], nextOffset)))
  }

  ghost function LoadAll(objects: map<Key, Object>, refs: seq<ProducerRef>, nextOffset: int): (ts: seq<Tree>)
    requires AllSound(objects, refs, nextOffset)
    ensures |ts| == |refs|
  {
    seq(|refs|, i requires 0 <= i < |refs| => Load(objects, refs[i], nextOffset))
  }

  ghost function Keys(objects: map<Key, Object>, r: ProducerRef, nextOffset: int): set<Key>
    requires Sound(objects, r, nextOffset)
    decreases r.level
  {
    match objects[r.key].producerPage
    case ProducerLeaf(_) => {r.key}
    case ProducerBranch(c) =>
      {r.key} + IndexPages.Union(seq(|c|, i requires 0 <= i < |c| => Keys(objects, c[i], nextOffset)))
  }

  ghost function KeysAll(objects: map<Key, Object>, refs: seq<ProducerRef>, nextOffset: int): (ks: seq<set<Key>>)
    requires AllSound(objects, refs, nextOffset)
    ensures |ks| == |refs|
  {
    seq(|refs|, i requires 0 <= i < |refs| => Keys(objects, refs[i], nextOffset))
  }

  lemma LoadBranch(objects: map<Key, Object>, r: ProducerRef, nextOffset: int)
    requires Sound(objects, r, nextOffset) && objects[r.key].producerPage.ProducerBranch?
    ensures var c := objects[r.key].producerPage.children;
      && AllSound(objects, c, nextOffset)
      && r.level > 0
      && (forall i :: 0 <= i < |c| ==> c[i].level == r.level - 1)
      && 2 <= |c| <= PAGE_ENTRIES
      && Load(objects, r, nextOffset) == Branch(LoadAll(objects, c, nextOffset))
      && Keys(objects, r, nextOffset) == {r.key} + IndexPages.Union(KeysAll(objects, c, nextOffset))
  {
  }

  /** Pages never change, and a page valid for an offset stays valid as the log grows. */
  lemma {:induction false} SoundFrame(before: map<Key, Object>, after: map<Key, Object>, r: ProducerRef, low: int, high: int)
    requires Sound(before, r, low) && Extends(before, after) && low <= high
    ensures Sound(after, r, high)
    ensures Load(after, r, high) == Load(before, r, low)
    ensures Keys(after, r, high) == Keys(before, r, low)
    decreases r.level, 1
  {
    HoldsLater(before, after, r, low, high);
    match before[r.key].producerPage
    case ProducerLeaf(_) =>
    case ProducerBranch(c) =>
      AllSoundFrame(before, after, c, low, high, r.level);
      LoadBranch(before, r, low);
      assert Sound(after, r, high);
      LoadBranch(after, r, high);
  }

  lemma HoldsLater(before: map<Key, Object>, after: map<Key, Object>, r: ProducerRef, low: int, high: int)
    requires Holds(before, r, low) && Extends(before, after) && low <= high
    ensures Holds(after, r, high) && after[r.key] == before[r.key]
  {
    match before[r.key].producerPage
    case ProducerLeaf(s) =>
      forall i | 0 <= i < |s| ensures ProducerWindow.StateOk(s[i], high) {
        ProducerWindow.WindowGrows(s[i], low, high);
      }
    case ProducerBranch(_) =>
  }

  lemma {:induction false} AllSoundFrame(before: map<Key, Object>, after: map<Key, Object>, refs: seq<ProducerRef>, low: int,
                                         high: int, level: nat)
    requires AllSound(before, refs, low) && Extends(before, after) && low <= high
    requires forall i :: 0 <= i < |refs| ==> refs[i].level < level
    ensures AllSound(after, refs, high)
    ensures LoadAll(after, refs, high) == LoadAll(before, refs, low)
    ensures KeysAll(after, refs, high) == KeysAll(before, refs, low)
    decreases level, 0
  {
    forall i | 0 <= i < |refs|
      ensures Sound(after, refs[i], high)
      ensures Load(after, refs[i], high) == Load(before, refs[i], low)
      ensures Keys(after, refs[i], high) == Keys(before, refs[i], low)
    {
      SoundFrame(before, after, refs[i], low, high);
    }
  }

  /** The checks on each page amount to the tree invariant, and the reference describes the tree. */
  lemma {:induction false} SoundShaped(objects: map<Key, Object>, r: ProducerRef, nextOffset: int)
    requires Sound(objects, r, nextOffset)
    ensures var t := Load(objects, r, nextOffset);
      && Shaped(t, r.level) && Sorted(States(t)) && States(t) != []
      && r.firstId == FirstId(t) && r.lastId == LastId(t) && r.count == |States(t)|
      && StatesOk(States(t), nextOffset)
    decreases r.level, 1
  {
    hide Shaped, States, StatesAll, CountAll, StatesOk, Sorted, Load, FirstId, LastId, Siblings;
    if objects[r.key].producerPage.ProducerLeaf? {
      LeafSummary(objects, r, nextOffset);
    } else {
      var c := objects[r.key].producerPage.children;
      LoadBranch(objects, r, nextOffset);
      RefSummary(objects, r, nextOffset);
      ForestShaped(objects, c, r.level - 1, nextOffset);
      BranchShaped(LoadAll(objects, c, nextOffset), r.level);
      Ends(Branch(LoadAll(objects, c, nextOffset)));
    }
  }

  lemma Ends(t: Tree)
    ensures t.Branch? ==> States(t) == StatesAll(t.children)
    ensures States(t) != [] ==> FirstId(t) == States(t)[0].id && LastId(t) == States(t)[|States(t)| - 1].id
  {
  }

  lemma LeafSummary(objects: map<Key, Object>, r: ProducerRef, nextOffset: int)
    requires Sound(objects, r, nextOffset) && objects[r.key].producerPage.ProducerLeaf?
    ensures var t := Load(objects, r, nextOffset);
      && Shaped(t, r.level) && Sorted(States(t)) && States(t) != []
      && r.firstId == FirstId(t) && r.lastId == LastId(t) && r.count == |States(t)|
      && StatesOk(States(t), nextOffset)
  {
    hide Sorted, StatesOk;
    var s := objects[r.key].producerPage.producers;
    RisingSorted(s);
    LeafShaped(s);
  }

  lemma RefSummary(objects: map<Key, Object>, r: ProducerRef, nextOffset: int)
    requires Holds(objects, r, nextOffset) && objects[r.key].producerPage.ProducerBranch?
    ensures var c := objects[r.key].producerPage.children;
      && c != [] && Siblings(c, r.level - 1)
      && r.count == CountAll(c) && r.firstId == c[0].firstId && r.lastId == c[|c| - 1].lastId
  {
  }

  lemma LeafShaped(states: seq<ProducerState>)
    requires 1 <= |states| <= PAGE_ENTRIES
    ensures Shaped(Leaf(states), 0)
  {
  }

  lemma BranchShaped(ts: seq<Tree>, level: nat)
    requires level > 0 && 2 <= |ts| <= PAGE_ENTRIES && AllShaped(ts, level - 1)
    ensures Shaped(Branch(ts), level)
  {
  }

  lemma {:induction false} ForestShaped(objects: map<Key, Object>, refs: seq<ProducerRef>, level: nat, nextOffset: int)
    requires AllSound(objects, refs, nextOffset) && Siblings(refs, level) && refs != []
    ensures var ts := LoadAll(objects, refs, nextOffset); var ss := StatesAll(ts);
      && AllShaped(ts, level) && Sorted(ss) && ss != [] && |ss| == CountAll(refs)
      && ss[0].id == refs[0].firstId && ss[|ss| - 1].id == refs[|refs| - 1].lastId
      && StatesOk(ss, nextOffset)
    decreases level + 1, 0, |refs|
  {
    hide Shaped, Sound, Load, States, PageOk, RefValid, ProducerWindow.StateOk, StatesAll;
    var n := |refs| - 1;
    var front, last := refs[..n], refs[n];
    var ts := LoadAll(objects, refs, nextOffset);
    forall i | 0 <= i < |ts| ensures Shaped(ts[i], level) {
      SoundShaped(objects, refs[i], nextOffset);
    }
    SoundShaped(objects, last, nextOffset);
    SplitLast(ts);
    assert ts[..n] == LoadAll(objects, front, nextOffset);
    if n > 0 {
      SiblingsPrefix(refs, n, level);
      ForestShaped(objects, front, level, nextOffset);
      assert refs[n - 1].lastId < refs[n].firstId;
      Concatenated(StatesAll(ts[..n]), States(ts[n]), nextOffset);
    } else {
      assert ts[..n] == [];
      NoStates();
      assert front == [] && CountAll(front) == 0;
    }
  }

  lemma Concatenated(a: seq<ProducerState>, b: seq<ProducerState>, nextOffset: int)
    requires a != [] && b != [] && Sorted(a) && Sorted(b) && a[|a| - 1].id < b[0].id
    requires StatesOk(a, nextOffset) && StatesOk(b, nextOffset)
    ensures Sorted(a + b) && StatesOk(a + b, nextOffset)
  {
    var c := a + b;
    forall i, j | 0 <= i < j < |c| ensures c[i].id < c[j].id {
      if i < |a| <= j {
        assert a[i].id <= a[|a| - 1].id && b[0].id <= b[j - |a|].id;
      }
    }
  }

  // -------------------------------------------------------------- one page

  ghost predicate Writable(page: ProducerPage, nextOffset: int) {
    PageOk(page, nextOffset) && RefValid(RefTo(ProducerKey(0), Describe(page)))
  }

  /** src/log/producer.rs:335-367 */
  method WriteProducerPage(store: ObjectStore, page: ProducerPage, nextOffset: int) returns (r: Result<ProducerRef>)
    requires store.Valid()
    modifies store
    ensures store.Valid()
    ensures r.Ok? <==> Writable(page, nextOffset)
    ensures r.Ok? ==>
      && r.value == RefTo(ProducerKey(old(store.nextId)), Describe(page))
      && store.nextId == old(store.nextId) + 1
      && store.objects == old(store.objects)[r.value.key := ProducerObject(page)]
      && store.ever == old(store.ever)[r.value.key := ProducerObject(page)]
    ensures r.Err? ==> store.objects == old(store.objects) && store.ever == old(store.ever) && store.nextId >= old(store.nextId)
    ensures store.Gone() == old(store.Gone())
  {
    var checked := CheckPage(page, nextOffset);
    if checked.Err? {
      return Err(checked.error);
    }
    var id := store.FreshId();
    var reference := RefTo(ProducerKey(id), checked.value);
    var valid := CheckReference(reference);
    if !valid {
      return Err(Invalid);
    }
    var put := store.PutCreate(reference.key, ProducerObject(page));
    r := Ok(reference);
  }

  /** What a checked read of a page finds, on any contents of the store. */
  ghost function PageIn(objects: map<Key, Object>, r: ProducerRef, nextOffset: int): Result<ProducerPage> {
    if Holds(objects, r, nextOffset) then Ok(objects[r.key].producerPage)
    else Err(if RefValid(r) && r.key !in objects then NotFound else Invalid)
  }

  /** A page that was ever valid is read as it was, or is gone. */
  lemma PageGone(objects: map<Key, Object>, ever: map<Key, Object>, r: ProducerRef, nextOffset: int)
    requires Extends(objects, ever) && Holds(ever, r, nextOffset)
    ensures PageIn(objects, r, nextOffset) == if r.key in objects then PageIn(ever, r, nextOffset) else Err(NotFound)
    ensures PageIn(objects, r, nextOffset).Err? ==> r.key in ever.Keys - objects.Keys
  {
  }

  lemma SamePage(objects: map<Key, Object>, ever: map<Key, Object>, r: ProducerRef, nextOffset: int)
    requires Extends(objects, ever) && PageIn(objects, r, nextOffset).Ok?
    ensures r.key in ever && objects[r.key] == ever[r.key] && PageIn(ever, r, nextOffset) == PageIn(objects, r, nextOffset)
  {
  }

  /** src/log/producer.rs:296-333 */
  method ReadProducerPage(store: ObjectStore, reference: ProducerRef, nextOffset: int) returns (r: Result<ProducerPage>)
    modifies store`gets
    ensures r == PageIn(store.objects, reference, nextOffset)
    ensures store.Valid() && Holds(store.ever, reference, nextOffset) && r.Err? ==>
      r.error == NotFound && reference.key in store.Gone()
  {
    if store.Valid() && Holds(store.ever, reference, nextOffset) {
      PageGone(store.objects, store.ever, reference, nextOffset);
    }
    var valid := CheckReference(reference);
    if !valid {
      return Err(Invalid);
    }
    var got := store.Get(reference.key);
    if got.Err? {
      return Err(NotFound);
    }
    if !got.value.ProducerObject? {
      return Err(Invalid);
    }
    var page := got.value.producerPage;
    var checked := CheckPage(page, nextOffset);
    if checked.Err? {
      return Err(Invalid);
    }
    if checked.value != Bounds(reference.firstId, reference.lastId, reference.count, reference.level) {
      return Err(Invalid);
    }
    r := Ok(page);
  }

  lemma PageLevels(objects: map<Key, Object>, r: ProducerRef, nextOffset: int)
    requires Holds(objects, r, nextOffset)
    ensures objects[r.key].producerPage.ProducerBranch? ==>
      var c := objects[r.key].producerPage.children;
      && 2 <= |c| <= PAGE_ENTRIES && r.level > 0
      && forall i :: 0 <= i < |c| ==> c[i].level == r.level - 1
  {
  }

  // -------------------------------------------------------------- lookup

  function Covering(children: seq<ProducerRef>, id: int): Option<ProducerRef> {
    if children == [] then None
    else if children[0].firstId <= id <= children[0].lastId then Some(children[0])
    else Covering(children[1..], id)
  }

  lemma {:induction false} CoveringLookup(objects: map<Key, Object>, children: seq<ProducerRef>, nextOffset: int, id: int)
    requires AllSound(objects, children, nextOffset)
    ensures var found := Covering(children, id);
      && (found.Some? ==> found.value in children && Sound(objects, found.value, nextOffset))
      && LookupIn(LoadAll(objects, children, nextOffset), id)
         == (if found.Some? then Lookup(Load(objects, found.value, nextOffset), id) else None)
    decreases |children|
  {
    hide Sound, Lookup, Load;
    if children != [] {
      SoundShaped(objects, children[0], nextOffset);
      assert LoadAll(objects, children, nextOffset)[1..] == LoadAll(objects, children[1..], nextOffset);
      assert LoadAll(objects, children, nextOffset)[0] == Load(objects, children[0], nextOffset);
      CoveringLookup(objects, children[1..], nextOffset, id);
    }
  }

  lemma {:induction false} CoveringIn(children: seq<ProducerRef>, id: int)
    ensures Covering(children, id).Some? ==> Covering(children, id).value in children
  {
    if children != [] {
      CoveringIn(children[1..], id);
    }
  }

  /** The answer of a lookup that has reached `cursor`. */
  ghost function Answer(objects: map<Key, Object>, cursor: Option<ProducerRef>, nextOffset: int, id: int): Option<ProducerState>
    requires cursor.Some? ==> Sound(objects, cursor.value, nextOffset)
  {
    if cursor.Some? then Lookup(Load(objects, cursor.value, nextOffset), id) else None
  }

  /** The descent on any contents of the store: its answer, or the read that failed. */
  ghost function DescentIn(objects: map<Key, Object>, cursor: Option<ProducerRef>, nextOffset: int, id: int)
    : Result<Option<ProducerState>>
    decreases cursor.Some?, if cursor.Some? then cursor.value.level else 0
  {
    if cursor.None? || id < cursor.value.firstId || id > cursor.value.lastId then Ok(None)
    else
      match PageIn(objects, cursor.value, nextOffset)
      case Err(e) => Err(e)
      case Ok(ProducerLeaf(states)) => Ok(Find(states, id))
      case Ok(ProducerBranch(children)) =>
        PageLevels(objects, cursor.value, nextOffset);
        CoveringIn(children, id);
        DescentIn(objects, Covering(children, id), nextOffset, id)
  }

  /** src/log/producer.rs:369-397: the descent ends on any contents, and does what is specified on all of them. */
  method LookupState(store: ObjectStore, root: Option<ProducerRef>, id: int, nextOffset: int)
    returns (r: Result<Option<ProducerState>>)
    modifies store`gets
    ensures r == DescentIn(store.objects, root, nextOffset, id)
  {
    hide Holds;
    var cursor := root;
    while cursor.Some?
      invariant DescentIn(store.objects, cursor, nextOffset, id) == DescentIn(store.objects, root, nextOffset, id)
      decreases cursor.Some?, if cursor.Some? then cursor.value.level else 0
    {
      var reference := cursor.value;
      if id < reference.firstId || id > reference.lastId {
        return Ok(None);
      }
      var page := ReadProducerPage(store, reference, nextOffset);
      if page.Err? {
        return Err(page.error);
      }
      PageLevels(store.objects, reference, nextOffset);
      match page.value {
        case ProducerLeaf(states) =>
          return Ok(Find(states, id));
        case ProducerBranch(children) =>
          CoveringIn(children, id);
          cursor := Covering(children, id);
      }
    }
    r := Ok(None);
  }

  /**
   * Against a directory that was ever sound, of which collection may have left any part: a descent
   * that succeeds answers as the whole directory does, and one that fails met a missing page.
   */
  lemma {:induction false} DescentMeans(objects: map<Key, Object>, ever: map<Key, Object>, cursor: Option<ProducerRef>,
                                        nextOffset: int, id: int)
    requires Extends(objects, ever) && (cursor.Some? ==> Sound(ever, cursor.value, nextOffset))
    ensures var r := DescentIn(objects, cursor, nextOffset, id);
      && (r.Ok? ==> r.value == Answer(ever, cursor, nextOffset, id))
      && (r.Err? ==> r.error == NotFound && cursor.Some? && !Sound(objects, cursor.value, nextOffset))
    decreases cursor.Some?, if cursor.Some? then cursor.value.level else 0
  {
    hide Holds, Lookup, Load, Covering, Extends;
    if cursor.Some? {
      var reference := cursor.value;
      LookupStep(ever, reference, nextOffset, id);
      PageGone(objects, ever, reference, nextOffset);
      SoundHolds(objects, reference, nextOffset);
      if PageIn(objects, reference, nextOffset).Ok? && ever[reference.key].producerPage.ProducerBranch? {
        var children := ever[reference.key].producerPage.children;
        PageLevels(ever, reference, nextOffset);
        CoveringIn(children, id);
        var next := Covering(children, id);
        if id >= reference.firstId && id <= reference.lastId {
          DescentMeans(objects, ever, next, nextOffset, id);
          ChildSound(objects, reference, nextOffset, next);
        }
      }
    }
  }

  lemma SoundHolds(objects: map<Key, Object>, r: ProducerRef, nextOffset: int)
    ensures Sound(objects, r, nextOffset) ==> PageIn(objects, r, nextOffset).Ok?
  {
  }

  lemma ChildSound(objects: map<Key, Object>, r: ProducerRef, nextOffset: int, child: Option<ProducerRef>)
    requires PageIn(objects, r, nextOffset).Ok? && objects[r.key].producerPage.ProducerBranch?
    requires child.Some? ==> child.value in objects[r.key].producerPage.children
    ensures Sound(objects, r, nextOffset) && child.Some? ==> Sound(objects, child.value, nextOffset)
  {
  }

  lemma LookupStep(objects: map<Key, Object>, r: ProducerRef, nextOffset: int, id: int)
    requires Sound(objects, r, nextOffset)
    ensures Holds(objects, r, nextOffset)
    ensures var answer := Lookup(Load(objects, r, nextOffset), id);
      if id < r.firstId || id > r.lastId then answer == None
      else if objects[r.key].producerPage.ProducerLeaf?
        then answer == Find(objects[r.key].producerPage.producers, id)
      else
        && var found := Covering(objects[r.key].producerPage.children, id);
        && (found.Some? ==> Sound(objects, found.value, nextOffset))
        && answer == Answer(objects, found, nextOffset, id)
  {
    SoundShaped(objects, r, nextOffset);
    if objects[r.key].producerPage.ProducerBranch? {
      LoadBranch(objects, r, nextOffset);
      CoveringLookup(objects, objects[r.key].producerPage.children, nextOffset, id);
    }
  }
}
