/**
 * The table of group slots and its reference counts. Handles are cloned only under the table lock,
 * so each action here is one locked section, the state change of a slot, or the drop of a handle.
 */
module SlotTables {
  import FiniteSets

  const MAX_GROUP_SLOTS: nat := 10_000

  /** A task's reference to a slot; after the task has tried to reclaim it, it is not used again. */
  datatype Handle = Handle(group: string, slot: nat, usable: bool)

  /** `live` are the slots that hold a group; slots are numbered as they are created. */
  datatype Table = Table(groups: map<string, nat>, live: set<nat>, handles: map<nat, Handle>, owner: map<nat, string>, next: nat)

  const Empty: Table := Table(map[], {}, map[], map[], 0)

  function Holders(t: Table, slot: nat): set<nat> {
    set task | task in t.handles && t.handles[task].slot == slot
  }

  /** The strong count of a slot: its table entry and every task that holds it. */
  function StrongCount(t: Table, slot: nat): nat {
    (if slot in t.groups.Values then 1 else 0) + |Holders(t, slot)|
  }

  /** A slot stays when some task holds it, or when it holds a group after expired members are gone. */
  predicate Stays(t: Table, slot: nat, expired: set<nat>) {
    StrongCount(t, slot) != 1 || slot in t.live - expired
  }

  /** src/coordinator.rs:590-603 */
  function Sweep(t: Table, expired: set<nat>): Table {
    t.(groups := map g | g in t.groups && Stays(t, t.groups[g], expired) :: t.groups[g],
       live := set s | s in t.live && !(s in expired && s in t.groups.Values && StrongCount(t, s) == 1))
  }

  datatype Action =
    | Take(task: nat, group: string)
    | Open(task: nat, group: string, newcomer: bool, expired: set<nat>)
    | Change(task: nat, alive: bool)
    | Reclaim(task: nat, locked: bool)
    | Drop(task: nat)

  predicate Enabled(t: Table, a: Action) {
    match a
    case Take(task, _) => task !in t.handles
    case Open(task, _, _, _) => task !in t.handles
    case Change(task, _) => task in t.handles && t.handles[task].usable
    case Reclaim(task, _) => task in t.handles && t.handles[task].usable
    case Drop(task) => task in t.handles
  }

  function Step(t: Table, a: Action): Table
    requires Enabled(t, a)
  {
    match a
    case Take(task, group) => // src/coordinator.rs:120-122
      if group in t.groups then t.(handles := t.handles[task := Handle(group, t.groups[group], true)]) else t
    case Open(task, group, newcomer, expired) => // src/coordinator.rs:124-146
      if group in t.groups then t.(handles := t.handles[task := Handle(group, t.groups[group], true)])
      else if !newcomer then t
      else
        var swept := Sweep(t, expired);
        if |swept.groups| >= MAX_GROUP_SLOTS then swept
        else WithSlot(swept, task, group)
    case Change(task, alive) =>
      var slot := t.handles[task].slot;
      t.(live := if alive then t.live + {slot} else t.live - {slot})
    case Reclaim(task, locked) => // src/coordinator.rs:148-158
      var h := t.handles[task];
      var spent := t.(handles := t.handles[task := h.(usable := false)]);
      if h.group in t.groups && t.groups[h.group] == h.slot && StrongCount(t, h.slot) == 2 && !locked && h.slot !in t.live
      then spent.(groups := map g | g in t.groups && g != h.group :: t.groups[g]) else spent
    case Drop(task) => t.(handles := map k | k in t.handles && k != task :: t.handles[k])
  }

  // -------------------------------------------------------------- the invariant

  predicate Current(t: Table, h: Handle) {
    h.group in t.groups && t.groups[h.group] == h.slot
  }

  ghost predicate Inv(t: Table) {
    && (forall task :: task in t.handles && t.handles[task].usable ==> Current(t, t.handles[task]))
    && (forall task :: task in t.handles ==> t.handles[task].slot < t.next)
    && (forall g :: g in t.groups ==> t.groups[g] in t.owner && t.owner[t.groups[g]] == g)
    && (forall s :: s in t.owner ==> s < t.next)
    && (forall s :: s in t.live ==> s in t.owner && t.owner[s] in t.groups && t.groups[t.owner[s]] == s)
    && |t.groups| <= MAX_GROUP_SLOTS
  }

  lemma Counted(t: Table, task: nat)
    requires task in t.handles
    ensures |Holders(t, t.handles[task].slot)| >= 1
    ensures t.handles[task].slot in t.groups.Values ==> StrongCount(t, t.handles[task].slot) >= 2
  {
    var slot := t.handles[task].slot;
    assert task in Holders(t, slot);
    if |Holders(t, slot)| == 0 {
      assert false;
    }
  }

  /** A count of two with a table entry means that nobody else holds the slot. */
  lemma OnlyHolder(t: Table, task: nat, other: nat)
    requires task in t.handles && other in t.handles && other != task
    requires t.handles[other].slot == t.handles[task].slot && t.handles[task].slot in t.groups.Values
    ensures StrongCount(t, t.handles[task].slot) >= 3
  {
    var holders := Holders(t, t.handles[task].slot);
    assert {task, other} <= holders;
    FiniteSets.SubsetSize({task, other}, holders);
  }

  lemma FewerGroups(a: map<string, nat>, b: map<string, nat>)
    requires a.Keys <= b.Keys
    ensures |a| <= |b|
  {
    var rest := b.Keys - a.Keys;
    assert b.Keys == a.Keys + rest;
    assert |b.Keys| == |a.Keys| + |rest|;
    assert |a.Keys| == |a| && |b.Keys| == |b|;
  }

  /** Sweeping removes only slots that no task holds and that hold no group. */
  lemma SweepKeeps(t: Table, expired: set<nat>)
    requires Inv(t)
    ensures Inv(Sweep(t, expired))
  {
    var u := Sweep(t, expired);
    forall task | task in u.handles && u.handles[task].usable ensures Current(u, u.handles[task]) {
      Counted(t, task);
      assert Current(t, t.handles[task]);
      assert t.handles[task].slot in t.groups.Values;
    }
    forall s | s in u.live ensures s in u.owner && u.owner[s] in u.groups && u.groups[u.owner[s]] == s {
      assert s in t.groups.Values;
    }
    FewerGroups(u.groups, t.groups);
  }

  predicate SomebodyHolds(t: Table, slot: nat) {
    exists task :: task in t.handles && t.handles[task].slot == slot
  }

  lemma SoleReference(t: Table, slot: nat)
    requires slot in t.groups.Values
    ensures StrongCount(t, slot) == 1 <==> !SomebodyHolds(t, slot)
  {
    if SomebodyHolds(t, slot) {
      var task :| task in t.handles && t.handles[task].slot == slot;
      Counted(t, task);
    } else {
      assert Holders(t, slot) == {};
    }
  }

  /** A sweep frees exactly the slots that no task holds and that hold no group once expired members are gone. */
  lemma SweepFrees(t: Table, expired: set<nat>, group: string)
    requires group in t.groups
    ensures group in Sweep(t, expired).groups <==>
      SomebodyHolds(t, t.groups[group]) || (t.groups[group] in t.live && t.groups[group] !in expired)
    ensures group in Sweep(t, expired).groups ==> Sweep(t, expired).groups[group] == t.groups[group]
  {
    SoleReference(t, t.groups[group]);
  }

  /** A newcomer is refused a slot exactly when all slots that stay after a sweep are still too many. */
  lemma OpenRefuses(t: Table, task: nat, group: string, expired: set<nat>)
    requires task !in t.handles && group !in t.groups
    ensures var u := Step(t, Open(task, group, true, expired));
      && (task in u.handles <==> |Sweep(t, expired).groups| < MAX_GROUP_SLOTS)
      && (task in u.handles ==>
            && u.handles[task] == Handle(group, t.next, true) && u.groups == Sweep(t, expired).groups[group := t.next])
      && (task !in u.handles ==> u.groups == Sweep(t, expired).groups)
  {
  }

  /** Reclaiming frees the slot exactly when the task is its last holder, nobody has its lock, and it holds no group. */
  lemma ReclaimFrees(t: Table, task: nat, locked: bool)
    requires Inv(t) && task in t.handles && t.handles[task].usable
    ensures var h, u := t.handles[task], Step(t, Reclaim(task, locked));
      && (h.group !in u.groups <==>
            !locked && h.slot !in t.live
            && forall other :: other in t.handles && t.handles[other].slot == h.slot ==> other == task)
      && (forall g :: g in t.groups && g != h.group ==> g in u.groups && u.groups[g] == t.groups[g])
  {
    var h := t.handles[task];
    assert Current(t, h) && h.slot in t.groups.Values;
    Counted(t, task);
    if forall other :: other in t.handles && t.handles[other].slot == h.slot ==> other == task {
      assert Holders(t, h.slot) == {task};
    } else {
      var other :| other in t.handles && t.handles[other].slot == h.slot && other != task;
      OnlyHolder(t, task, other);
    }
  }

  function WithSlot(t: Table, task: nat, group: string): Table {
    t.(groups := t.groups[group := t.next], handles := t.handles[task := Handle(group, t.next, true)],
       owner := t.owner[t.next := group], next := t.next + 1)
  }

  lemma OpenKeeps(t: Table, task: nat, group: string)
    requires Inv(t) && task !in t.handles && group !in t.groups && |t.groups| < MAX_GROUP_SLOTS
    ensures Inv(WithSlot(t, task, group))
  {
    var u := WithSlot(t, task, group);
    forall k | k in u.handles && u.handles[k].usable ensures Current(u, u.handles[k]) {
      if k != task {
        assert Current(t, t.handles[k]);
      }
    }
    OneMore(t.groups, group, t.next);
    OpenLive(t, task, group);
  }

  lemma OpenLive(t: Table, task: nat, group: string)
    requires Inv(t) && group !in t.groups
    ensures var u := WithSlot(t, task, group);
      && (forall g :: g in u.groups ==> u.groups[g] in u.owner && u.owner[u.groups[g]] == g)
      && (forall s :: s in u.live ==> s in u.owner && u.owner[s] in u.groups && u.groups[u.owner[s]] == s)
  {
    var u := WithSlot(t, task, group);
    forall g | g in u.groups ensures u.groups[g] in u.owner && u.owner[u.groups[g]] == g {
      if g != group {
        assert t.groups[g] in t.owner && t.groups[g] < t.next;
      }
    }
    forall s | s in u.live ensures s in u.owner && u.owner[s] in u.groups && u.groups[u.owner[s]] == s {
      assert s in t.owner && s < t.next;
    }
  }

  lemma OneMore(groups: map<string, nat>, group: string, slot: nat)
    requires group !in groups
    ensures |groups[group := slot]| == |groups| + 1
  {
    assert groups[group := slot].Keys == groups.Keys + {group};
    assert |groups[group := slot].Keys| == |groups.Keys| + 1;
  }

  /** A slot is reclaimed only by its last holder, when it holds no group. */
  lemma ReclaimKeeps(t: Table, task: nat, locked: bool)
    requires Inv(t) && task in t.handles && t.handles[task].usable
    ensures Inv(Step(t, Reclaim(task, locked)))
  {
    var h := t.handles[task];
    var u := Step(t, Reclaim(task, locked));
    forall k | k in u.handles && u.handles[k].usable ensures Current(u, u.handles[k]) {
      assert k != task && Current(t, t.handles[k]) && Current(t, h);
      if t.handles[k].group == h.group {
        assert h.slot in t.groups.Values;
        OnlyHolder(t, task, k);
      }
    }
    FewerGroups(u.groups, t.groups);
  }

  lemma StepKeeps(t: Table, a: Action)
    requires Inv(t) && Enabled(t, a)
    ensures Inv(Step(t, a))
  {
    match a
    case Take(_, _) =>
    case Open(task, group, newcomer, expired) =>
      if group !in t.groups && newcomer {
        SweepKeeps(t, expired);
        var swept := Sweep(t, expired);
        if |swept.groups| < MAX_GROUP_SLOTS {
          OpenKeeps(swept, task, group);
        }
      }
    case Change(task, _) => assert Current(t, t.handles[task]);
    case Reclaim(task, locked) => ReclaimKeeps(t, task, locked);
    case Drop(_) =>
  }

  // -------------------------------------------------------------- runs

  ghost predicate Run(tables: seq<Table>, actions: seq<Action>) {
    && |tables| == |actions| + 1
    && tables[0] == Empty
    && forall i :: 0 <= i < |actions| ==> Enabled(tables[i], actions[i]) && tables[i + 1] == Step(tables[i], actions[i])
  }

  lemma {:induction false} EveryTable(tables: seq<Table>, actions: seq<Action>, i: nat)
    requires Run(tables, actions) && i < |tables|
    ensures Inv(tables[i])
  {
    if i > 0 {
      EveryTable(tables, actions, i - 1);
      StepKeeps(tables[i - 1], actions[i - 1]);
    }
  }

  /** Whatever tasks do, every handle still in use is the table's slot for its group. */
  lemma HandlesAreCurrent(tables: seq<Table>, actions: seq<Action>, i: nat, task: nat)
    requires Run(tables, actions) && i < |tables| && task in tables[i].handles && tables[i].handles[task].usable
    ensures Current(tables[i], tables[i].handles[task])
  {
    EveryTable(tables, actions, i);
  }

  /** Two slots of one group are never live at once, and the table never grows past its bound. */
  lemma OneLifeAtATime(tables: seq<Table>, actions: seq<Action>, i: nat, a: nat, b: nat)
    requires Run(tables, actions) && i < |tables| && a in tables[i].live && b in tables[i].live
    ensures a in tables[i].owner && b in tables[i].owner
    ensures tables[i].owner[a] == tables[i].owner[b] ==> a == b
    ensures |tables[i].groups| <= MAX_GROUP_SLOTS
  {
    EveryTable(tables, actions, i);
  }
}
