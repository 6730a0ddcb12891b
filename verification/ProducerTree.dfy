/** The producer directory as a mathematical B+tree: pages without names. */
module ProducerTree {
  import opened LogTypes

  datatype Tree = Leaf(states: seq<ProducerState>) | Branch(children: seq<Tree>)

  // -------------------------------------------------------------- contents

  function States(t: Tree): seq<ProducerState>
    decreases t, 1
  {
    match t
    case Leaf(states) => states
    case Branch(children) => StatesAll(children)
  }

  function StatesAll(ts: seq<Tree>): seq<ProducerState>
    decreases ts, 0
  {
    if ts == [] then [] else States(ts[0]) + StatesAll(ts[1..])
  }

  lemma {:induction false} StatesAppend(a: seq<Tree>, b: seq<Tree>)
    ensures StatesAll(a + b) == StatesAll(a) + StatesAll(b)
  {
    if a == [] {
      assert a + b == b;
    } else {
      var c := a + b;
      assert c[0] == a[0] && c[1..] == a[1..] + b;
      StatesAppend(a[1..], b);
      calc {
        StatesAll(c);
        States(a[0]) + StatesAll(a[1..] + b);
        States(a[0]) + (StatesAll(a[1..]) + StatesAll(b));
        (States(a[0]) + StatesAll(a[1..])) + StatesAll(b);
        StatesAll(a) + StatesAll(b);
      }
    }
  }

  lemma StatesOne(t: Tree)
    ensures StatesAll([t]) == States(t)
  {
    assert [t][1..] == [];
  }

  // -------------------------------------------------------------- ordered states

  predicate Sorted(ss: seq<ProducerState>) {
    forall i, j :: 0 <= i < j < |ss| ==> ss[i].id < ss[j].id
  }

  predicate AllBelow(ss: seq<ProducerState>, id: int) {
    forall i :: 0 <= i < |ss| ==> ss[i].id < id
  }

  predicate AllAbove(ss: seq<ProducerState>, id: int) {
    forall i :: 0 <= i < |ss| ==> ss[i].id > id
  }

  /** The state of one producer in an ordered list. */
  function Find(ss: seq<ProducerState>, id: int): Option<ProducerState> {
    if ss == [] then None else if ss[0].id == id then Some(ss[0]) else Find(ss[1..], id)
  }

  lemma {:induction false} FindIn(ss: seq<ProducerState>, id: int)
    ensures match Find(ss, id)
      case Some(st) => st in ss && st.id == id
      case None => forall i :: 0 <= i < |ss| ==> ss[i].id != id
  {
    if ss != [] && ss[0].id != id {
      FindIn(ss[1..], id);
      assert forall i :: 0 < i < |ss| ==> ss[i] == ss[1..][i - 1];
    }
  }

  lemma {:induction false} FindAppend(a: seq<ProducerState>, b: seq<ProducerState>, id: int)
    ensures Find(a + b, id) == if Find(a, id).Some? then Find(a, id) else Find(b, id)
    decreases |a|
  {
    if a == [] {
      assert a + b == b;
    } else {
      assert (a + b)[1..] == a[1..] + b;
      FindAppend(a[1..], b, id);
    }
  }

  /** How many states precede an identifier. */
  function Rank(ss: seq<ProducerState>, id: int): (n: nat)
    ensures n <= |ss|
    ensures forall i :: 0 <= i < n ==> ss[i].id < id
    ensures n < |ss| ==> ss[n].id >= id
  {
    if ss == [] || ss[0].id >= id then 0 else 1 + Rank(ss[1..], id)
  }

  /** Replace the state with the same identifier, or insert the new one in order. */
  function Upsert(ss: seq<ProducerState>, st: ProducerState): seq<ProducerState> {
    var n := Rank(ss, st.id);
    if n < |ss| && ss[n].id == st.id then ss[..n] + [st] + ss[n + 1..] else ss[..n] + [st] + ss[n..]
  }

  lemma UpsertSorted(ss: seq<ProducerState>, st: ProducerState)
    requires Sorted(ss)
    ensures Sorted(Upsert(ss, st))
    ensures |ss| <= |Upsert(ss, st)| <= |ss| + 1
  {
  }

  /** Upsert is map update: the new state under its identifier, every other entry unchanged. */
  lemma UpsertFind(ss: seq<ProducerState>, st: ProducerState, id: int)
    requires Sorted(ss)
    ensures Find(Upsert(ss, st), id) == if id == st.id then Some(st) else Find(ss, id)
  {
    hide Sorted;
    var n := Rank(ss, st.id);
    var same := n < |ss| && ss[n].id == st.id;
    var front, back := ss[..n], if same then ss[n + 1..] else ss[n..];
    assert ss == front + (if same then [ss[n]] + back else back);
    assert Upsert(ss, st) == front + ([st] + back);
    FindAppend(front, [st] + back, id);
    FindAppend([st], back, id);
    assert [st][1..] == [];
    FindAppend(front, if same then [ss[n]] + back else back, id);
    if same {
      FindAppend([ss[n]], back, id);
      assert [ss[n]][1..] == [];
    }
    FindIn(front, id);
  }

  lemma {:induction false} RankAppend(a: seq<ProducerState>, b: seq<ProducerState>, id: int)
    ensures AllBelow(a, id) ==> Rank(a + b, id) == |a| + Rank(b, id)
    ensures !AllBelow(a, id) ==> Rank(a + b, id) == Rank(a, id)
    decreases |a|
  {
    if a == [] {
      assert a + b == b;
    } else {
      assert (a + b)[1..] == a[1..] + b && (a + b)[0] == a[0];
      RankAppend(a[1..], b, id);
      assert AllBelow(a, id) <==> a[0].id < id && AllBelow(a[1..], id) by {
        assert forall i :: 0 < i < |a| ==> a[i] == a[1..][i - 1];
      }
    }
  }

  lemma UpsertRightOf(a: seq<ProducerState>, b: seq<ProducerState>, st: ProducerState)
    requires AllBelow(a, st.id)
    ensures Upsert(a + b, st) == a + Upsert(b, st)
  {
    hide Rank, AllBelow;
    RankAppend(a, b, st.id);
    var n, ss := Rank(b, st.id), a + b;
    RankRange(b, st.id);
    ShiftSlices(a, b, n);
    var back := if n < |b| && b[n].id == st.id then b[n + 1..] else b[n..];
    assert Upsert(b, st) == b[..n] + [st] + back;
    assert Upsert(ss, st) == a + b[..n] + [st] + back;
    Reassociate(a, b[..n], [st], back);
  }

  lemma ShiftSlices(a: seq<ProducerState>, b: seq<ProducerState>, n: nat)
    requires n <= |b|
    ensures (a + b)[..|a| + n] == a + b[..n] && (a + b)[|a| + n..] == b[n..]
    ensures n < |b| ==> (a + b)[|a| + n] == b[n] && (a + b)[|a| + n + 1..] == b[n + 1..]
  {
  }

  lemma Reassociate(a: seq<ProducerState>, b: seq<ProducerState>, c: seq<ProducerState>, d: seq<ProducerState>)
    ensures a + b + c + d == a + (b + c + d)
  {
  }

  lemma RankRange(ss: seq<ProducerState>, id: int)
    ensures Rank(ss, id) <= |ss|
  {
  }

  lemma RankLeftOf(b: seq<ProducerState>, c: seq<ProducerState>, id: int)
    requires AllAbove(c, id)
    ensures Rank(b + c, id) == Rank(b, id) <= |b|
  {
    RankAppend(b, c, id);
    assert c != [] ==> c[0].id > id;
  }

  lemma UpsertLeftOf(b: seq<ProducerState>, c: seq<ProducerState>, st: ProducerState)
    requires AllAbove(c, st.id)
    ensures Upsert(b + c, st) == Upsert(b, st) + c
  {
    hide Rank;
    RankLeftOf(b, c, st.id);
    var n, ss := Rank(b, st.id), b + c;
    assert ss[..n] == b[..n] && ss[n..] == b[n..] + c;
    if n < |b| {
      assert ss[n] == b[n] && ss[n + 1..] == b[n + 1..] + c;
    }
  }

  /** Upsert acts inside the middle part when everything left is smaller and everything right is larger. */
  lemma UpsertMiddle(a: seq<ProducerState>, b: seq<ProducerState>, c: seq<ProducerState>, st: ProducerState)
    requires AllBelow(a, st.id) && AllAbove(c, st.id)
    ensures Upsert(a + b + c, st) == a + Upsert(b, st) + c
  {
    hide Upsert, AllBelow, AllAbove;
    assert a + b + c == a + (b + c);
    UpsertRightOf(a, b + c, st);
    UpsertLeftOf(b, c, st);
  }

  // -------------------------------------------------------------- shape

  /** Pages of one level, at most 64 entries each, branches with at least two children. */
  ghost predicate Shaped(t: Tree, level: nat)
    decreases level
  {
    match t
    case Leaf(states) => level == 0 && 1 <= |states| <= PAGE_ENTRIES
    case Branch(children) =>
      && level > 0
      && 2 <= |children| <= PAGE_ENTRIES
      && forall i :: 0 <= i < |children| ==> Shaped(children[i], level - 1)
  }

  function Entries(t: Tree): nat {
    match t
    case Leaf(states) => |states|
    case Branch(children) => |children|
  }

  /** Every page at or below this one holds at least 32 entries. */
  ghost predicate Filled(t: Tree, level: nat)
    decreases level
  {
    && Entries(t) >= 32
    && (t.Branch? && level > 0 ==> forall i :: 0 <= i < |t.children| ==> Filled(t.children[i], level - 1))
  }

  /** What every published directory satisfies: a shaped tree, and every page but the root half full. */
  ghost predicate FilledRoot(t: Tree, level: nat) {
    t.Branch? && level > 0 ==> forall i :: 0 <= i < |t.children| ==> Filled(t.children[i], level - 1)
  }

  function Pow32(level: nat): nat {
    if level == 0 then 1 else 32 * Pow32(level - 1)
  }

  lemma {:induction false} ForestAtLeast(ts: seq<Tree>, n: nat)
    requires forall i :: 0 <= i < |ts| ==> |States(ts[i])| >= n
    ensures |StatesAll(ts)| >= |ts| * n
  {
    if ts != [] {
      ForestAtLeast(ts[1..], n);
      assert |ts| * n == (|ts| - 1) * n + n;
    }
  }

  lemma {:induction false} FilledSize(t: Tree, level: nat)
    requires Shaped(t, level) && Filled(t, level)
    ensures |States(t)| >= Pow32(level + 1)
    decreases level
  {
    if level > 0 {
      forall i | 0 <= i < |t.children| ensures |States(t.children[i])| >= Pow32(level) {
        FilledSize(t.children[i], level - 1);
      }
      ForestAtLeast(t.children, Pow32(level));
      AtLeast(32, |t.children|, Pow32(level));
    }
  }

  lemma AtLeast(a: nat, b: nat, n: nat)
    requires a <= b
    ensures a * n <= b * n
  {
  }

  /** A root at level L >= 1 holds at least 2 * 32^L producers. */
  lemma RootSize(t: Tree, level: nat)
    requires Shaped(t, level) && FilledRoot(t, level) && level > 0
    ensures |States(t)| >= 2 * Pow32(level)
  {
    forall i | 0 <= i < |t.children| ensures |States(t.children[i])| >= Pow32(level) {
      FilledSize(t.children[i], level - 1);
    }
    ForestAtLeast(t.children, Pow32(level));
    AtLeast(2, |t.children|, Pow32(level));
  }

  /** Identifiers are distinct non-negative i64 values, so there are at most 2^63 of them. */
  lemma {:induction false} SortedRange(ss: seq<ProducerState>)
    requires Sorted(ss) && ss != []
    ensures |ss| <= ss[|ss| - 1].id - ss[0].id + 1
    decreases |ss|
  {
    if |ss| > 1 {
      SortedRange(ss[..|ss| - 1]);
    }
  }

  lemma {:induction false} Pow32Monotone(a: nat, b: nat)
    requires a <= b
    ensures Pow32(a) <= Pow32(b)
  {
    if a < b {
      Pow32Monotone(a, b - 1);
    }
  }

  /** 2 * 32^13 = 2^66 producers would be needed for a thirteenth level. */
  lemma Pow32Thirteen()
    ensures 2 * Pow32(13) > I64_MAX + 1
  {
    assert Pow32(4) == 0x10_0000 by {
      assert Pow32(1) == 32 && Pow32(2) == 32 * Pow32(1) && Pow32(3) == 32 * Pow32(2);
    }
    assert Pow32(8) == 0x100_0000_0000 by {
      assert Pow32(5) == 32 * Pow32(4) && Pow32(6) == 32 * Pow32(5) && Pow32(7) == 32 * Pow32(6);
    }
    assert Pow32(12) == 0x1000_0000_0000_0000 by {
      assert Pow32(9) == 32 * Pow32(8) && Pow32(10) == 32 * Pow32(9) && Pow32(11) == 32 * Pow32(10);
    }
  }

  /** The directory never grows past level 12. */
  lemma LevelBound(t: Tree, level: nat)
    requires Shaped(t, level) && FilledRoot(t, level) && Sorted(States(t))
    requires forall i :: 0 <= i < |States(t)| ==> 0 <= States(t)[i].id <= I64_MAX
    ensures level <= 12
  {
    if level > 12 {
      RootSize(t, level);
      Pow32Monotone(13, level);
      Pow32Thirteen();
      SortedRange(States(t));
      assert false;
    }
  }

  // -------------------------------------------------------------- update

  /** One page, or two halves of an overfull one. */
  function Halves<T>(entries: seq<T>): seq<seq<T>> {
    if |entries| > PAGE_ENTRIES then [entries[..|entries| / 2], entries[|entries| / 2..]] else [entries]
  }

  function LastId(t: Tree): int {
    if States(t) == [] then 0 else States(t)[|States(t)| - 1].id
  }

  /** The child an update descends into: the first that ends at or after the identifier, else the last. */
  function Position(ts: seq<Tree>, id: int): (n: nat)
    requires ts != []
    ensures n < |ts|
    ensures forall i :: 0 <= i < n ==> LastId(ts[i]) < id
    ensures n < |ts| - 1 ==> id <= LastId(ts[n])
  {
    if |ts| == 1 || id <= LastId(ts[0]) then 0 else 1 + Position(ts[1..], id)
  }

  function LeavesOf(halves: seq<seq<ProducerState>>): seq<Tree> {
    seq(|halves|, i requires 0 <= i < |halves| => Leaf(halves[i]))
  }

  function BranchesOf(halves: seq<seq<Tree>>): seq<Tree> {
    seq(|halves|, i requires 0 <= i < |halves| => Branch(halves[i]))
  }

  function Splice(ts: seq<Tree>, position: nat, replacement: seq<Tree>): seq<Tree>
    requires position < |ts|
  {
    ts[..position] + replacement + ts[position + 1..]
  }

  /** The one or two pages that replace a page. */
  function UpdateNode(t: Tree, st: ProducerState): seq<Tree>
    decreases t
  {
    match t
    case Leaf(states) => LeavesOf(Halves(Upsert(states, st)))
    case Branch(children) =>
      if children == [] then [t]
      else
        var n := Position(children, st.id);
        BranchesOf(Halves(Splice(children, n, UpdateNode(children[n], st))))
  }

  function Top(pages: seq<Tree>): Tree
    requires pages != []
  {
    if |pages| == 1 then pages[0] else Branch(pages)
  }

  lemma {:induction false} UpdateNodePages(t: Tree, st: ProducerState)
    ensures 1 <= |UpdateNode(t, st)| <= 2
  {
  }

  lemma HalvesStates(kids: seq<Tree>)
    ensures StatesAll(BranchesOf(Halves(kids))) == StatesAll(kids)
  {
    if |kids| > PAGE_ENTRIES {
      var a, b := kids[..|kids| / 2], kids[|kids| / 2..];
      assert kids == a + b;
      StatesAppend(a, b);
      assert BranchesOf(Halves(kids)) == [Branch(a)] + [Branch(b)];
      StatesAppend([Branch(a)], [Branch(b)]);
      StatesOne(Branch(a));
      StatesOne(Branch(b));
    } else {
      assert BranchesOf(Halves(kids)) == [Branch(kids)];
      StatesOne(Branch(kids));
    }
  }

  lemma LeafHalvesStates(states: seq<ProducerState>)
    ensures StatesAll(LeavesOf(Halves(states))) == states
  {
    if |states| > PAGE_ENTRIES {
      var a, b := states[..|states| / 2], states[|states| / 2..];
      assert LeavesOf(Halves(states)) == [Leaf(a)] + [Leaf(b)];
      StatesAppend([Leaf(a)], [Leaf(b)]);
      StatesOne(Leaf(a));
      StatesOne(Leaf(b));
      assert a + b == states;
    } else {
      assert LeavesOf(Halves(states)) == [Leaf(states)];
      StatesOne(Leaf(states));
    }
  }

  /** Around the chosen child: everything before it is smaller, everything after it larger. */
  lemma AroundPosition(ts: seq<Tree>, id: int)
    requires ts != [] && Sorted(StatesAll(ts)) && forall i :: 0 <= i < |ts| ==> States(ts[i]) != []
    ensures var n := Position(ts, id);
      && StatesAll(ts) == StatesAll(ts[..n]) + States(ts[n]) + StatesAll(ts[n + 1..])
      && AllBelow(StatesAll(ts[..n]), id)
      && AllAbove(StatesAll(ts[n + 1..]), id)
  {
    hide StatesAll, States;
    var n := Position(ts, id);
    var a, b, c := StatesAll(ts[..n]), States(ts[n]), StatesAll(ts[n + 1..]);
    SplitAt(ts, n);
    var all := StatesAll(ts);
    NoStates();
    if n == 0 {
      assert ts[..n] == [];
    }
    if n == |ts| - 1 {
      assert ts[n + 1..] == [];
    }
    if n > 0 {
      SplitLast(ts[..n]);
      assert LastId(ts[n - 1]) < id;
      assert a[|a| - 1].id < id;
      forall i | 0 <= i < |a| ensures a[i].id < id {
        assert all[i] == a[i] && all[|a| - 1] == a[|a| - 1];
      }
    }
    if n < |ts| - 1 {
      assert id <= b[|b| - 1].id;
      forall i | 0 <= i < |c| ensures c[i].id > id {
        assert all[|a| + |b| + i] == c[i] && all[|a| + |b| - 1] == b[|b| - 1];
      }
    }
  }

  lemma NoStates()
    ensures StatesAll([]) == []
  {
  }

  lemma SplitAt(ts: seq<Tree>, n: nat)
    requires n < |ts|
    ensures StatesAll(ts) == StatesAll(ts[..n]) + States(ts[n]) + StatesAll(ts[n + 1..])
  {
    hide StatesAll, States;
    var a, b, c := ts[..n], [ts[n]], ts[n + 1..];
    Parts(ts, n);
    StatesAppend(a, b + c);
    StatesAppend(b, c);
    StatesOne(ts[n]);
    Regroup(StatesAll(a), StatesAll(b), StatesAll(c));
  }

  lemma Parts(ts: seq<Tree>, n: nat)
    requires n < |ts|
    ensures ts == ts[..n] + ([ts[n]] + ts[n + 1..])
  {
  }

  lemma Regroup(a: seq<ProducerState>, b: seq<ProducerState>, c: seq<ProducerState>)
    ensures a + (b + c) == a + b + c
  {
  }

  lemma SplitLast(ts: seq<Tree>)
    requires ts != []
    ensures StatesAll(ts) == StatesAll(ts[..|ts| - 1]) + States(ts[|ts| - 1])
  {
    SplitAt(ts, |ts| - 1);
    assert ts[|ts|..] == [];
  }

  lemma {:induction false} ShapedNonempty(t: Tree, level: nat)
    requires Shaped(t, level)
    ensures States(t) != []
    decreases level
  {
    if level > 0 {
      ShapedNonempty(t.children[0], level - 1);
    }
  }

  lemma SortedPart(a: seq<ProducerState>, b: seq<ProducerState>, c: seq<ProducerState>)
    requires Sorted(a + b + c)
    ensures Sorted(a) && Sorted(b) && Sorted(c)
  {
    var all := a + b + c;
    assert forall i :: 0 <= i < |a| ==> all[i] == a[i];
    assert forall i :: 0 <= i < |b| ==> all[|a| + i] == b[i];
    assert forall i :: 0 <= i < |c| ==> all[|a| + |b| + i] == c[i];
  }

  /** Updating a page updates its states, and nothing else. */
  lemma {:induction false} UpdateNodeStates(t: Tree, level: nat, st: ProducerState)
    requires Shaped(t, level) && Sorted(States(t))
    ensures StatesAll(UpdateNode(t, st)) == Upsert(States(t), st)
    decreases level
  {
    match t
    case Leaf(states) => LeafHalvesStates(Upsert(states, st));
    case Branch(kids) =>
      forall i | 0 <= i < |kids| ensures States(kids[i]) != [] {
        ShapedNonempty(kids[i], level - 1);
      }
      AroundPosition(kids, st.id);
      var n := Position(kids, st.id);
      var a, b, c := StatesAll(kids[..n]), States(kids[n]), StatesAll(kids[n + 1..]);
      SortedPart(a, b, c);
      UpdateNodeStates(kids[n], level - 1, st);
      UpsertMiddle(a, b, c, st);
      var replacement := UpdateNode(kids[n], st);
      StatesAppend(kids[..n] + replacement, kids[n + 1..]);
      StatesAppend(kids[..n], replacement);
      HalvesStates(Splice(kids, n, replacement));
  }

  // -------------------------------------------------------------- shape after an update

  ghost predicate AllShaped(ts: seq<Tree>, level: nat) {
    forall i :: 0 <= i < |ts| ==> Shaped(ts[i], level)
  }

  ghost predicate AllFilled(ts: seq<Tree>, level: nat) {
    forall i :: 0 <= i < |ts| ==> Filled(ts[i], level)
  }

  lemma SpliceShaped(kids: seq<Tree>, n: nat, replacement: seq<Tree>, level: nat)
    requires n < |kids| && AllShaped(kids, level) && AllShaped(replacement, level)
    ensures AllShaped(Splice(kids, n, replacement), level)
  {
    hide Shaped;
    var s := Splice(kids, n, replacement);
    forall i | 0 <= i < |s| ensures Shaped(s[i], level) {
      if i < n {
        assert s[i] == kids[i];
      } else if i < n + |replacement| {
        assert s[i] == replacement[i - n];
      } else {
        assert s[i] == kids[i - |replacement| + 1];
      }
    }
  }

  lemma SpliceFilled(kids: seq<Tree>, n: nat, replacement: seq<Tree>, level: nat)
    requires n < |kids| && AllFilled(kids, level) && AllFilled(replacement, level)
    ensures AllFilled(Splice(kids, n, replacement), level)
  {
    hide Filled;
    var s := Splice(kids, n, replacement);
    forall i | 0 <= i < |s| ensures Filled(s[i], level) {
      if i < n {
        assert s[i] == kids[i];
      } else if i < n + |replacement| {
        assert s[i] == replacement[i - n];
      } else {
        assert s[i] == kids[i - |replacement| + 1];
      }
    }
  }

  /** The pages that replace a page are shaped at its level; two of them are both half full. */
  lemma {:induction false} UpdateNodeShaped(t: Tree, level: nat, st: ProducerState)
    requires Shaped(t, level) && FilledRoot(t, level)
    ensures AllShaped(UpdateNode(t, st), level)
    ensures |UpdateNode(t, st)| == 2 || Filled(t, level) ==> AllFilled(UpdateNode(t, st), level)
    ensures |UpdateNode(t, st)| == 1 ==> FilledRoot(UpdateNode(t, st)[0], level)
    ensures |UpdateNode(t, st)| == 1 ==> Entries(UpdateNode(t, st)[0]) >= Entries(t)
    decreases level
  {
    match t
    case Leaf(states) =>
    case Branch(kids) =>
      var n := Position(kids, st.id);
      var below := UpdateNode(kids[n], st);
      UpdateNodePages(kids[n], st);
      FilledIsRoot(kids[n], level - 1);
      UpdateNodeShaped(kids[n], level - 1, st);
      SpliceShaped(kids, n, below, level - 1);
      SpliceFilled(kids, n, below, level - 1);
      HalvesShaped(Splice(kids, n, below), level);
  }

  lemma FilledIsRoot(t: Tree, level: nat)
    requires Filled(t, level)
    ensures FilledRoot(t, level)
  {
  }

  lemma HalvesShaped(kids: seq<Tree>, level: nat)
    requires 2 <= |kids| <= PAGE_ENTRIES + 1 && level > 0
    requires AllShaped(kids, level - 1) && AllFilled(kids, level - 1)
    ensures AllShaped(BranchesOf(Halves(kids)), level)
    ensures |kids| >= 32 ==> AllFilled(BranchesOf(Halves(kids)), level)
    ensures |BranchesOf(Halves(kids))| == 1 ==> BranchesOf(Halves(kids)) == [Branch(kids)] && |kids| <= PAGE_ENTRIES
    ensures |BranchesOf(Halves(kids))| == 2 ==> |kids| == PAGE_ENTRIES + 1
  {
    if |kids| > PAGE_ENTRIES {
      var a, b := kids[..|kids| / 2], kids[|kids| / 2..];
      assert |a| == 32 && |b| == 33;
      assert forall i :: 0 <= i < |a| ==> a[i] == kids[i];
      assert forall i :: 0 <= i < |b| ==> b[i] == kids[32 + i];
      assert BranchesOf(Halves(kids)) == [Branch(a), Branch(b)];
    } else {
      assert BranchesOf(Halves(kids)) == [Branch(kids)];
    }
  }

  /** The directory after one state was set; an empty directory becomes a single leaf. */
  function Update(t: Option<Tree>, st: ProducerState): Tree {
    Top(if t.None? then [Leaf([st])]
        else UpdateNodePages(t.value, st); UpdateNode(t.value, st))
  }

  function Contents(t: Option<Tree>): seq<ProducerState> {
    if t.None? then [] else States(t.value)
  }

  /** What every published directory satisfies. */
  ghost predicate WellFormed(t: Tree, level: nat) {
    Shaped(t, level) && FilledRoot(t, level) && Sorted(States(t))
  }

  function UpdatedLevel(t: Option<Tree>, level: nat, st: ProducerState): nat {
    if t.None? then 0 else if |UpdateNode(t.value, st)| == 1 then level else level + 1
  }

  /** Update is map update, and keeps the shape of the directory. */
  lemma UpdateCorrect(t: Option<Tree>, level: nat, st: ProducerState)
    requires t.Some? ==> WellFormed(t.value, level)
    ensures States(Update(t, st)) == Upsert(Contents(t), st)
    ensures WellFormed(Update(t, st), UpdatedLevel(t, level, st))
  {
    match t
    case None =>
    case Some(old_) =>
      UpdateNodePages(old_, st);
      UpdateNodeStates(old_, level, st);
      UpdateNodeShaped(old_, level, st);
      UpsertSorted(States(old_), st);
      var pages := UpdateNode(old_, st);
      if |pages| == 1 {
        assert pages == [pages[0]];
        StatesOne(pages[0]);
      }
  }

  // -------------------------------------------------------------- lookup

  function FirstId(t: Tree): int {
    if States(t) == [] then 0 else States(t)[0].id
  }

  /** The descent of src/log/producer.rs:369-397. */
  function Lookup(t: Tree, id: int): Option<ProducerState>
    decreases t, 1
  {
    if id < FirstId(t) || id > LastId(t) then None
    else
      match t
      case Leaf(states) => Find(states, id)
      case Branch(children) => LookupIn(children, id)
  }

  /** The first child whose range holds the identifier. */
  function LookupIn(ts: seq<Tree>, id: int): Option<ProducerState>
    decreases ts, 0
  {
    if ts == [] then None
    else if FirstId(ts[0]) <= id <= LastId(ts[0]) then Lookup(ts[0], id)
    else LookupIn(ts[1..], id)
  }

  lemma OutOfRange(ss: seq<ProducerState>, id: int)
    requires Sorted(ss) && ss != [] && (id < ss[0].id || id > ss[|ss| - 1].id)
    ensures Find(ss, id) == None
  {
    FindIn(ss, id);
  }

  /** Lookup is search in the ordered contents. */
  lemma {:induction false} LookupCorrect(t: Tree, level: nat, id: int)
    requires Shaped(t, level) && Sorted(States(t))
    ensures Lookup(t, id) == Find(States(t), id)
    decreases level, 1, 0
  {
    ShapedNonempty(t, level);
    if id < FirstId(t) || id > LastId(t) {
      OutOfRange(States(t), id);
    } else if t.Branch? {
      LookupInCorrect(t.children, level - 1, id);
    }
  }

  lemma {:induction false} LookupInCorrect(ts: seq<Tree>, level: nat, id: int)
    requires AllShaped(ts, level) && Sorted(StatesAll(ts))
    ensures LookupIn(ts, id) == Find(StatesAll(ts), id)
    decreases level + 1, 0, |ts|
  {
    if ts != [] {
      var first, rest := States(ts[0]), StatesAll(ts[1..]);
      ShapedNonempty(ts[0], level);
      assert first + rest == [] + first + rest;
      SortedPart([], first, rest);
      FindAppend(first, rest, id);
      if FirstId(ts[0]) <= id <= LastId(ts[0]) {
        LookupCorrect(ts[0], level, id);
        InFirst(first, rest, id);
      } else {
        OutOfRange(first, id);
        LookupInCorrect(ts[1..], level, id);
      }
    }
  }

  lemma InFirst(first: seq<ProducerState>, rest: seq<ProducerState>, id: int)
    requires first != [] && Sorted(first + rest) && id <= first[|first| - 1].id
    ensures Find(rest, id) == None
  {
    FindIn(rest, id);
    var all := first + rest;
    assert all[|first| - 1] == first[|first| - 1];
    assert forall i :: 0 <= i < |rest| ==> all[|first| + i] == rest[i];
  }

  /** Update and lookup together are a map: the new state for its producer, the old answer for every other. */
  lemma UpdateThenLookup(t: Option<Tree>, level: nat, st: ProducerState, id: int)
    requires t.Some? ==> WellFormed(t.value, level)
    ensures Lookup(Update(t, st), id) ==
      if id == st.id then Some(st) else if t.Some? then Lookup(t.value, id) else None
  {
    UpdateCorrect(t, level, st);
    LookupCorrect(Update(t, st), UpdatedLevel(t, level, st), id);
    UpsertFind(Contents(t), st, id);
    if t.Some? {
      LookupCorrect(t.value, level, id);
    }
  }
}
