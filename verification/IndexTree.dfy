/** The offset index as a mathematical tree: pages without names. */
module IndexTree {
  import opened LogTypes

  datatype Tree = Leaf(segments: seq<Segment>) | Branch(children: seq<Tree>)

  // -------------------------------------------------------------- contents

  function Flatten(t: Tree): seq<Segment>
    decreases t, 1
  {
    match t
    case Leaf(segments) => segments
    case Branch(children) => FlattenAll(children)
  }

  function FlattenAll(ts: seq<Tree>): seq<Segment>
    decreases ts, 0
  {
    if ts == [] then [] else Flatten(ts[0]) + FlattenAll(ts[1..])
  }

  lemma {:induction false} FlattenAllAppend(a: seq<Tree>, b: seq<Tree>)
    ensures FlattenAll(a + b) == FlattenAll(a) + FlattenAll(b)
  {
    if a == [] {
      assert a + b == b;
    } else {
      var c := a + b;
      assert c[0] == a[0] && c[1..] == a[1..] + b;
      FlattenAllAppend(a[1..], b);
      calc {
        FlattenAll(c);
        Flatten(a[0]) + FlattenAll(a[1..] + b);
        Flatten(a[0]) + (FlattenAll(a[1..]) + FlattenAll(b));
        (Flatten(a[0]) + FlattenAll(a[1..])) + FlattenAll(b);
        FlattenAll(a) + FlattenAll(b);
      }
    }
  }

  lemma FlattenAllOne(t: Tree)
    ensures FlattenAll([t]) == Flatten(t)
  {
    assert [t][1..] == [];
  }

  // -------------------------------------------------------------- shape

  /** Segments below a full page of a level. */
  function Capacity(level: nat): nat
  {
    if level == 0 then 64 else 64 * Capacity(level - 1)
  }

  ghost predicate Full(t: Tree, level: nat) {
    |Flatten(t)| == Capacity(level)
  }

  /** Every leaf holds 64 segments, and every subtree except the rightmost one is full. */
  ghost predicate Shaped(t: Tree, level: nat)
    decreases level, 1
  {
    match t
    case Leaf(segments) => level == 0 && |segments| == PAGE_ENTRIES
    case Branch(children) =>
      && level > 0
      && 1 <= |children| <= PAGE_ENTRIES
      && Forest(children, level - 1)
  }

  ghost predicate Forest(ts: seq<Tree>, level: nat)
    decreases level, 2
  {
    forall i :: 0 <= i < |ts| ==>
      && Shaped(ts[i], level)
      && (i + 1 < |ts| ==> Full(ts[i], level))
  }

  /** The shape of a whole index: shaped, and no taller than its contents need. */
  ghost predicate Canonical(t: Tree, level: nat) {
    Shaped(t, level) && (t.Branch? ==> |t.children| >= 2)
  }

  lemma {:induction false} FullForestLength(ts: seq<Tree>, level: nat)
    requires forall i :: 0 <= i < |ts| ==> Full(ts[i], level)
    ensures |FlattenAll(ts)| == |ts| * Capacity(level)
  {
    if ts != [] {
      FullForestLength(ts[1..], level);
    }
  }

  /** A shaped tree is never empty and never above its capacity. */
  lemma {:induction false} ShapedBounds(t: Tree, level: nat)
    requires Shaped(t, level)
    ensures 0 < |Flatten(t)| <= Capacity(level)
    decreases level, 0
  {
    if t.Branch? {
      ForestBounds(t.children, level - 1);
      var n := |t.children|;
      assert n * Capacity(level - 1) <= 64 * Capacity(level - 1) by {
        MulMonotone(n, 64, Capacity(level - 1));
      }
    }
  }

  lemma MulMonotone(a: nat, b: nat, c: nat)
    requires a <= b
    ensures a * c <= b * c
  {
  }

  /** Length of a forest: full pages, then one page of any size. */
  lemma {:induction false} ForestBounds(ts: seq<Tree>, level: nat)
    requires ts != [] && Forest(ts, level)
    ensures (|ts| - 1) * Capacity(level) < |FlattenAll(ts)| <= |ts| * Capacity(level)
    ensures |FlattenAll(ts)| == (|ts| - 1) * Capacity(level) + |Flatten(ts[|ts| - 1])|
    decreases level, 1
  {
    var n := |ts|;
    var front, last := ts[..n - 1], ts[n - 1];
    assert ts == front + [last];
    FlattenAllAppend(front, [last]);
    FlattenAllOne(last);
    FullForestLength(front, level);
    ShapedBounds(last, level);
    assert n * Capacity(level) == (n - 1) * Capacity(level) + Capacity(level);
  }

  lemma {:induction false} CapacityMonotone(a: nat, b: nat)
    requires a <= b
    ensures Capacity(a) <= Capacity(b)
  {
    if a < b {
      CapacityMonotone(a, b - 1);
    }
  }

  // A level-10 page would hold 64^11 = 2^66 segments, more than there are offsets.
  lemma CapacityTen()
    ensures Capacity(9) == 0x1000_0000_0000_0000
    ensures Capacity(10) > U64_MAX
  {
    assert Capacity(1) == 64 * Capacity(0);
    assert Capacity(2) == 64 * Capacity(1);
    assert Capacity(3) == 64 * Capacity(2);
    assert Capacity(4) == 64 * Capacity(3);
    assert Capacity(5) == 64 * Capacity(4);
    assert Capacity(6) == 64 * Capacity(5);
    assert Capacity(7) == 64 * Capacity(6);
    assert Capacity(8) == 64 * Capacity(7);
    assert Capacity(9) == 64 * Capacity(8);
    assert Capacity(10) == 64 * Capacity(9);
  }

  // -------------------------------------------------------------- uniqueness

  /** Two forests of one level with the same segments are the same forest. */
  lemma {:induction false} ForestUnique(ts: seq<Tree>, us: seq<Tree>, level: nat)
    requires Forest(ts, level) && Forest(us, level)
    requires FlattenAll(ts) == FlattenAll(us)
    ensures ts == us
    decreases level, |ts|
  {
    if ts == [] || us == [] {
      if ts != [] {
        ForestBounds(ts, level);
      }
      if us != [] {
        ForestBounds(us, level);
      }
    } else {
      HeadsAgree(ts, us, level);
      ShapedUnique(ts[0], us[0], level);
      ForestUnique(ts[1..], us[1..], level);
      assert ts == [ts[0]] + ts[1..] && us == [us[0]] + us[1..];
    }
  }

  lemma HeadsAgree(ts: seq<Tree>, us: seq<Tree>, level: nat)
    requires ts != [] && us != [] && Forest(ts, level) && Forest(us, level)
    requires FlattenAll(ts) == FlattenAll(us)
    ensures Flatten(ts[0]) == Flatten(us[0])
    ensures FlattenAll(ts[1..]) == FlattenAll(us[1..])
  {
    ShapedBounds(ts[0], level);
    ShapedBounds(us[0], level);
    if |ts| > 1 {
      ForestBounds(ts[1..], level);
    }
    if |us| > 1 {
      ForestBounds(us[1..], level);
    }
    var all, n := FlattenAll(ts), |Flatten(ts[0])|;
    assert n == |Flatten(us[0])|;
    assert Flatten(ts[0]) == all[..n] && Flatten(us[0]) == all[..n];
    assert FlattenAll(ts[1..]) == all[n..] && FlattenAll(us[1..]) == all[n..];
  }

  lemma {:induction false} ShapedUnique(t: Tree, u: Tree, level: nat)
    requires Shaped(t, level) && Shaped(u, level)
    requires Flatten(t) == Flatten(u)
    ensures t == u
    decreases level, 0
  {
    if level > 0 {
      ForestUnique(t.children, u.children, level - 1);
    }
  }

  lemma CanonicalSize(t: Tree, level: nat)
    requires Canonical(t, level)
    ensures |Flatten(t)| <= Capacity(level)
    ensures level > 0 ==> |Flatten(t)| > Capacity(level - 1)
  {
    ShapedBounds(t, level);
    if level > 0 {
      ForestBounds(t.children, level - 1);
      MulMonotone(1, |t.children| - 1, Capacity(level - 1));
    }
  }

  /** The contents of a whole index determine its height and every page in it. */
  lemma CanonicalUnique(t: Tree, n: nat, u: Tree, m: nat)
    requires Canonical(t, n) && Canonical(u, m)
    requires Flatten(t) == Flatten(u)
    ensures n == m && t == u
  {
    CanonicalSize(t, n);
    CanonicalSize(u, m);
    if n < m {
      CapacityMonotone(n, m - 1);
    } else if m < n {
      CapacityMonotone(m, n - 1);
    }
    ShapedUnique(t, u, n);
  }

  // -------------------------------------------------------------- growth by one leaf

  /** A chain of single-child branches that lifts a leaf to a level. */
  function Path(leaf: Tree, level: nat): Tree {
    if level == 0 then leaf else Branch([Path(leaf, level - 1)])
  }

  lemma {:induction false} PathShaped(leaf: Tree, level: nat)
    requires Shaped(leaf, 0)
    ensures Shaped(Path(leaf, level), level)
    ensures Flatten(Path(leaf, level)) == Flatten(leaf)
  {
    if level > 0 {
      PathShaped(leaf, level - 1);
      FlattenAllOne(Path(leaf, level - 1));
    }
  }

  /** What insertion at the right edge makes of a tree of a level. */
  ghost function Insert(t: Tree, level: nat, leaf: Tree): Tree
    decreases level
  {
    if Full(t, level) then Branch([t, Path(leaf, level)]) else InsertBelow(t, level, leaf)
  }

  /** Insertion into a tree that still has room: the root page stays at its level. */
  ghost function InsertBelow(t: Tree, level: nat, leaf: Tree): Tree
    decreases level
  {
    if t.Leaf? || t.children == [] || level == 0 then t
    else
      var n := |t.children|;
      var last := t.children[n - 1];
      if Full(last, level - 1) then Branch(t.children + [Path(leaf, level - 1)])
      else Branch(t.children[..n - 1] + [InsertBelow(last, level - 1, leaf)])
  }

  lemma InsertBeside(t: Tree, kids: seq<Tree>, level: nat, leaf: Tree, grown: seq<Tree>)
    requires t == Branch(kids) && kids != [] && level > 0 && Full(kids[|kids| - 1], level - 1)
    requires grown == kids + [Path(leaf, level - 1)]
    ensures Branch(grown) == InsertBelow(t, level, leaf)
  {
  }

  lemma InsertInside(t: Tree, kids: seq<Tree>, level: nat, leaf: Tree, grown: seq<Tree>)
    requires t == Branch(kids) && kids != [] && level > 0 && !Full(kids[|kids| - 1], level - 1)
    requires grown == kids[..|kids| - 1] + [Insert(kids[|kids| - 1], level - 1, leaf)]
    ensures Branch(grown) == InsertBelow(t, level, leaf)
  {
  }

  ghost function InsertLevel(t: Tree, level: nat): nat {
    if Full(t, level) then level + 1 else level
  }

  /** A page with room for another leaf has fewer than 64 children or room below its last child. */
  lemma RoomBelow(t: Tree, level: nat)
    requires Shaped(t, level) && !Full(t, level)
    ensures t.Branch? && level > 0
    ensures Full(t.children[|t.children| - 1], level - 1) ==> |t.children| < PAGE_ENTRIES
  {
    if t.Branch? && Full(t.children[|t.children| - 1], level - 1) && |t.children| == PAGE_ENTRIES {
      FullForestLength(t.children, level - 1);
    }
  }

  lemma {:induction false} InsertBelowCorrect(t: Tree, level: nat, leaf: Tree)
    requires Shaped(t, level) && !Full(t, level) && Shaped(leaf, 0)
    ensures Shaped(InsertBelow(t, level, leaf), level)
    ensures Flatten(InsertBelow(t, level, leaf)) == Flatten(t) + Flatten(leaf)
    ensures InsertBelow(t, level, leaf).Branch? && t.Branch?
    ensures |InsertBelow(t, level, leaf).children| >= |t.children|
    decreases level
  {
    hide Shaped, Flatten, FlattenAll, Full, InsertBelow, Path;
    RoomBelow(t, level);
    ChildShapes(t, level);
    var kids := t.children;
    var front, last := kids[..|kids| - 1], kids[|kids| - 1];
    if Full(last, level - 1) {
      var right := Path(leaf, level - 1);
      PathShaped(leaf, level - 1);
      InsertBeside(t, kids, level, leaf, kids + [right]);
      WithRight(kids, right, level);
      FlattenBranches(t, Branch(kids + [right]));
    } else {
      var grown := InsertBelow(last, level - 1, leaf);
      InsertBelowCorrect(last, level - 1, leaf);
      assert Insert(last, level - 1, leaf) == grown;
      InsertInside(t, kids, level, leaf, front + [grown]);
      WithLast(kids, grown, leaf, level);
      FlattenBranches(t, Branch(front + [grown]));
    }
  }

  lemma ChildShapes(t: Tree, level: nat)
    requires Shaped(t, level) && t.Branch?
    ensures level > 0 && 1 <= |t.children| <= PAGE_ENTRIES && Forest(t.children, level - 1)
    ensures Shaped(t.children[|t.children| - 1], level - 1)
  {
  }

  lemma FlattenBranches(t: Tree, u: Tree)
    requires t.Branch? && u.Branch?
    ensures Flatten(t) == FlattenAll(t.children) && Flatten(u) == FlattenAll(u.children)
  {
  }

  /** A full last child leaves the place beside it for a new right edge. */
  lemma WithRight(kids: seq<Tree>, right: Tree, level: nat)
    requires level > 0 && 1 <= |kids| < PAGE_ENTRIES && Forest(kids, level - 1)
    requires Full(kids[|kids| - 1], level - 1) && Shaped(right, level - 1)
    ensures Shaped(Branch(kids + [right]), level)
    ensures FlattenAll(kids + [right]) == FlattenAll(kids) + Flatten(right)
  {
    hide Full, FlattenAll, Flatten;
    FlattenAllAppend(kids, [right]);
    FlattenAllOne(right);
  }

  /** A grown last child takes the place of the old one. */
  lemma WithLast(kids: seq<Tree>, grown: Tree, leaf: Tree, level: nat)
    requires level > 0 && 1 <= |kids| <= PAGE_ENTRIES && Forest(kids, level - 1) && Shaped(grown, level - 1)
    requires Flatten(grown) == Flatten(kids[|kids| - 1]) + Flatten(leaf)
    ensures var n := |kids| - 1;
      && Shaped(Branch(kids[..n] + [grown]), level)
      && FlattenAll(kids[..n] + [grown]) == FlattenAll(kids) + Flatten(leaf)
  {
    hide Full, FlattenAll, Flatten;
    var n := |kids| - 1;
    var front, last := kids[..n], kids[n];
    assert kids == front + [last];
    FlattenAllAppend(front, [last]);
    FlattenAllOne(last);
    FlattenAllAppend(front, [grown]);
    FlattenAllOne(grown);
  }

  /** Insertion appends one leaf's segments and keeps the index in its one canonical shape. */
  lemma InsertCorrect(t: Tree, level: nat, leaf: Tree)
    requires Canonical(t, level) && Shaped(leaf, 0)
    ensures Canonical(Insert(t, level, leaf), InsertLevel(t, level))
    ensures Flatten(Insert(t, level, leaf)) == Flatten(t) + Flatten(leaf)
  {
    if Full(t, level) {
      var right := Path(leaf, level);
      PathShaped(leaf, level);
      FlattenAllAppend([t], [right]);
      FlattenAllOne(t);
      FlattenAllOne(right);
      assert [t] + [right] == [t, right];
    } else {
      InsertBelowCorrect(t, level, leaf);
    }
  }
}
