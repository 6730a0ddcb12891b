/**
 * The coordinator as a whole: the table of slots, what each slot guards, and the tasks that hold
 * them. A group that empties may lose its slot and get another one later; seen from outside, its
 * history is still one run of GroupRuns.
 */
module GroupLives {
  import opened LogTypes
  import opened Groups
  import GroupLaws
  import GroupRuns
  import SlotTables

  datatype Lock = Lock(task: nat, stamp: GroupRuns.Stamp)

  /**
   * The table, the state behind each slot's lock, and the slots locked across a store update. The
   * worlds are history variables: what each group has been through, whichever slot it was in.
   */
  datatype State = State(
    table: SlotTables.Table,
    slots: map<nat, Option<Group>>,
    locks: map<nat, Lock>,
    worlds: map<string, GroupRuns.World>)

  const Empty: State := State(SlotTables.Empty, map[], map[], map[])

  datatype Action =
    | Take(task: nat, group: string)
    | Open(task: nat, group: string, newcomer: bool, now: nat)
    | Section(task: nat, section: GroupRuns.Action)
    | Reclaim(task: nat)
    | Drop(task: nat)

  function WorldOf(s: State, group: string): GroupRuns.World {
    if group in s.worlds then s.worlds[group] else GroupRuns.Start
  }

  function StateOf(s: State, slot: nat): Option<Group> {
    if slot in s.slots then s.slots[slot] else None
  }

  function HolderOf(s: State, slot: nat): Option<GroupRuns.Stamp> {
    if slot in s.locks then Some(s.locks[slot].stamp) else None
  }

  /** A group as a task finds it behind the slot it holds. */
  function View(s: State, group: string, slot: nat): GroupRuns.World {
    WorldOf(s, group).(state := StateOf(s, slot), holder := HolderOf(s, slot))
  }

  /** A task acts on the slot it holds, and keeps its handle while it holds the lock. */
  ghost predicate Enabled(s: State, a: Action) {
    match a
    case Take(task, group) => SlotTables.Enabled(s.table, SlotTables.Take(task, group))
    case Open(task, group, newcomer, _) => SlotTables.Enabled(s.table, SlotTables.Open(task, group, newcomer, {}))
    case Section(task, section) =>
      && task in s.table.handles && s.table.handles[task].usable
      && var h := s.table.handles[task];
      && GroupRuns.Enabled(View(s, h.group, h.slot), section)
      && (section.EndCommit? ==> h.slot in s.locks && s.locks[h.slot].task == task)
    case Reclaim(task) =>
      && SlotTables.Enabled(s.table, SlotTables.Reclaim(task, false))
      && forall slot :: slot in s.locks ==> s.locks[slot].task != task
    case Drop(task) =>
      && SlotTables.Enabled(s.table, SlotTables.Drop(task))
      && forall slot :: slot in s.locks ==> s.locks[slot].task != task
  }

  predicate Populated(s: State) {
    forall slot :: slot in s.slots && s.slots[slot].Some? ==> s.slots[slot].value.members != map[]
  }

  /** The slots a sweep may enter: only the table holds them, and nobody has the lock. */
  predicate Idle(s: State, slot: nat) {
    SlotTables.StrongCount(s.table, slot) == 1 && slot !in s.locks
  }

  /** The slots whose last members a sweep drops. */
  ghost function Expired(s: State, now: nat): set<nat>
    requires Populated(s)
  {
    set slot | slot in s.table.live && Idle(s, slot) && Advance(StateOf(s, slot), now).error.None?
               && Advance(StateOf(s, slot), now).state.None?
  }

  ghost function Swept(s: State, now: nat): State
    requires Populated(s)
  {
    var idle := map g | g in s.table.groups && Idle(s, s.table.groups[g]) ::
                  GroupRuns.Step(View(s, g, s.table.groups[g]), GroupRuns.Sweep(now));
    s.(slots := map x | x in s.slots ::
                  if x in s.table.groups.Values && Idle(s, x) then Advance(s.slots[x], now).state else s.slots[x],
       worlds := s.worlds + idle)
  }

  ghost function Step(s: State, a: Action): State
    requires Populated(s) && Enabled(s, a)
  {
    match a
    case Take(task, group) => s.(table := SlotTables.Step(s.table, SlotTables.Take(task, group)))
    case Open(task, group, newcomer, now) =>
      var table := SlotTables.Step(s.table, SlotTables.Open(task, group, newcomer, Expired(s, now)));
      if group in s.table.groups || !newcomer then s.(table := table)
      else
        var swept := Swept(s, now);
        if table.next == s.table.next then swept.(table := table)
        else swept.(table := table, slots := swept.slots[s.table.next := None])
    case Section(task, section) =>
      var h := s.table.handles[task];
      var after := GroupRuns.Step(View(s, h.group, h.slot), section);
      State(SlotTables.Step(s.table, SlotTables.Change(task, after.state.Some?)),
            s.slots[h.slot := after.state],
            if after.holder.Some? then s.locks[h.slot := Lock(task, after.holder.value)]
            else map x | x in s.locks && x != h.slot :: s.locks[x],
            s.worlds[h.group := after])
    case Reclaim(task) =>
      s.(table := SlotTables.Step(s.table, SlotTables.Reclaim(task, s.table.handles[task].slot in s.locks)))
    case Drop(task) => s.(table := SlotTables.Step(s.table, SlotTables.Drop(task)))
  }

  // -------------------------------------------------------------- the invariant

  /** The slot in the table holds the group's present; a group without a slot has none. */
  predicate Present(s: State, group: string) {
    if group in s.table.groups then WorldOf(s, group) == View(s, group, s.table.groups[group])
    else WorldOf(s, group).state.None? && WorldOf(s, group).holder.None?
  }

  ghost predicate LiveOk(s: State) {
    && (forall x :: x in s.slots ==> x < s.table.next)
    && (forall x :: x in s.table.live <==> x in s.slots && s.slots[x].Some?)
  }

  predicate LockOk(s: State, slot: nat) {
    slot in s.locks ==>
      && s.locks[slot].task in s.table.handles
      && s.table.handles[s.locks[slot].task].usable && s.table.handles[s.locks[slot].task].slot == slot
  }

  ghost predicate Lawful(s: State) {
    forall group :: group in s.worlds ==> GroupRuns.Inv(s.worlds[group])
  }

  ghost predicate Inv(s: State) {
    && SlotTables.Inv(s.table) && LiveOk(s) && Lawful(s)
    && (forall group :: Present(s, group))
    && (forall slot :: slot in s.locks ==> LockOk(s, slot))
  }

  lemma StartLawful()
    ensures GroupRuns.Inv(GroupRuns.Start)
  {
  }

  lemma WorldLawful(s: State, group: string)
    requires Lawful(s)
    ensures GroupRuns.Inv(WorldOf(s, group))
  {
    hide GroupRuns.Inv;
    StartLawful();
  }

  /** Every stored group is the present of its owner, so it has members. */
  lemma AllPopulated(s: State)
    requires Inv(s)
    ensures Populated(s)
  {
    hide GroupRuns.Inv;
    forall slot | slot in s.slots && s.slots[slot].Some? ensures s.slots[slot].value.members != map[] {
      assert slot in s.table.live;
      var group := s.table.owner[slot];
      assert Present(s, group);
      WorldLawful(s, group);
      GroupRuns.HasMembers(WorldOf(s, group));
    }
  }

  /** A locked slot is held by a task besides the table. */
  lemma LockedHeld(s: State, slot: nat)
    requires SlotTables.Inv(s.table) && slot in s.locks && LockOk(s, slot)
    ensures slot in s.table.groups.Values && SlotTables.StrongCount(s.table, slot) >= 2
  {
    var task := s.locks[slot].task;
    assert SlotTables.Current(s.table, s.table.handles[task]);
    SlotTables.Counted(s.table, task);
  }

  // -------------------------------------------------------------- table sections

  lemma TakeStep(s: State, a: Action)
    requires Inv(s) && Populated(s) && Enabled(s, a) && a.Take?
    ensures Inv(Step(s, a))
  {
    hide GroupRuns.Inv;
    SlotTables.StepKeeps(s.table, SlotTables.Take(a.task, a.group));
    SameGroups(s, Step(s, a));
  }

  /** What depends on the entries of the table only. */
  lemma SameGroups(s: State, t: State)
    requires Inv(s) && t == s.(table := t.table) && t.table.groups == s.table.groups
    requires t.table.live == s.table.live && t.table.next == s.table.next
    ensures LiveOk(t) && Lawful(t) && forall group :: Present(t, group)
  {
    hide GroupRuns.Inv;
    forall group ensures Present(t, group) {
      assert Present(s, group);
    }
  }

  lemma DropStep(s: State, a: Action)
    requires Inv(s) && Populated(s) && Enabled(s, a) && a.Drop?
    ensures Inv(Step(s, a))
  {
    hide GroupRuns.Inv;
    SlotTables.StepKeeps(s.table, SlotTables.Drop(a.task));
    SameGroups(s, Step(s, a));
    var t := Step(s, a);
    forall slot | slot in t.locks ensures LockOk(t, slot) {
      assert LockOk(s, slot);
    }
  }

  /** Only a slot without a group is reclaimed. */
  lemma ReclaimStep(s: State, a: Action)
    requires Inv(s) && Populated(s) && Enabled(s, a) && a.Reclaim?
    ensures Inv(Step(s, a))
  {
    hide GroupRuns.Inv, SlotTables.StrongCount, SlotTables.Inv, SlotTables.Step, Present, LockOk, LiveOk;
    SlotTables.StepKeeps(s.table, SlotTables.Reclaim(a.task, s.table.handles[a.task].slot in s.locks));
    ReclaimPresent(s, a);
    ReclaimSlots(s, a);
  }

  lemma ReclaimPresent(s: State, a: Action)
    requires Enabled(s, a) && Populated(s) && a.Reclaim? && LiveOk(s) && forall group :: Present(s, group)
    ensures forall group :: Present(Step(s, a), group)
  {
    hide SlotTables.StrongCount;
    forall group ensures Present(Step(s, a), group) {
      assert Present(s, group);
    }
  }

  lemma ReclaimSlots(s: State, a: Action)
    requires Enabled(s, a) && Populated(s) && a.Reclaim? && LiveOk(s)
    requires forall slot :: slot in s.locks ==> LockOk(s, slot)
    ensures LiveOk(Step(s, a)) && forall slot :: slot in Step(s, a).locks ==> LockOk(Step(s, a), slot)
  {
    hide SlotTables.StrongCount;
    forall slot | slot in Step(s, a).locks ensures LockOk(Step(s, a), slot) {
      assert LockOk(s, slot);
    }
  }

  // -------------------------------------------------------------- sections of a slot

  lemma HandleCurrent(s: State, task: nat)
    requires SlotTables.Inv(s.table) && task in s.table.handles && s.table.handles[task].usable
    ensures SlotTables.Current(s.table, s.table.handles[task])
  {
  }

  lemma OwnSlot(t: SlotTables.Table, a: string, b: string)
    requires SlotTables.Inv(t) && a in t.groups && b in t.groups && t.groups[a] == t.groups[b]
    ensures a == b
  {
  }

  lemma SectionStep(s: State, a: Action)
    requires Inv(s) && Populated(s) && Enabled(s, a) && a.Section?
    ensures Inv(Step(s, a))
  {
    hide GroupRuns.Inv, GroupRuns.Step, GroupRuns.Enabled, SlotTables.Inv, SlotTables.StrongCount, Present, LockOk, LiveOk;
    var h := s.table.handles[a.task];
    var after := GroupRuns.Step(View(s, h.group, h.slot), a.section);
    SlotTables.StepKeeps(s.table, SlotTables.Change(a.task, after.state.Some?));
    HandleCurrent(s, a.task);
    SectionWorld(s, a);
    SectionPresent(s, a);
    SectionSlots(s, a);
  }

  lemma SectionWorld(s: State, a: Action)
    requires Populated(s) && Enabled(s, a) && a.Section? && Lawful(s)
    requires SlotTables.Current(s.table, s.table.handles[a.task]) && Present(s, s.table.handles[a.task].group)
    ensures Lawful(Step(s, a))
  {
    hide GroupRuns.Inv, GroupRuns.Step, GroupRuns.Enabled, SlotTables.StrongCount;
    var group := s.table.handles[a.task].group;
    WorldLawful(s, group);
    GroupRuns.StepKeeps(WorldOf(s, group), a.section);
  }

  lemma SectionPresent(s: State, a: Action)
    requires Populated(s) && Enabled(s, a) && a.Section? && SlotTables.Inv(s.table)
    requires SlotTables.Current(s.table, s.table.handles[a.task]) && forall group :: Present(s, group)
    ensures forall group :: Present(Step(s, a), group)
  {
    hide GroupRuns.Step, GroupRuns.Enabled, SlotTables.StrongCount, SlotTables.Inv;
    var h, t := s.table.handles[a.task], Step(s, a);
    forall group ensures Present(t, group) {
      assert Present(s, group);
      if group in s.table.groups && s.table.groups[group] == h.slot {
        OwnSlot(s.table, group, h.group);
      }
    }
  }

  lemma SectionSlots(s: State, a: Action)
    requires Populated(s) && Enabled(s, a) && a.Section? && SlotTables.Inv(s.table) && LiveOk(s)
    requires forall slot :: slot in s.locks ==> LockOk(s, slot)
    ensures LiveOk(Step(s, a)) && forall slot :: slot in Step(s, a).locks ==> LockOk(Step(s, a), slot)
  {
    hide GroupRuns.Step, GroupRuns.Enabled, SlotTables.StrongCount, SlotTables.Inv;
    var t := Step(s, a);
    forall slot | slot in t.locks ensures LockOk(t, slot) {
      assert slot != s.table.handles[a.task].slot ==> LockOk(s, slot);
    }
    SlotKnown(s.table, a.task);
  }

  lemma SlotKnown(t: SlotTables.Table, task: nat)
    requires SlotTables.Inv(t) && task in t.handles
    ensures t.handles[task].slot < t.next
  {
  }

  // -------------------------------------------------------------- opening and sweeping

  /** A sweep is a section of every group it enters, and touches no other. */
  lemma SweptWorld(s: State, now: nat, group: string)
    requires Inv(s) && Populated(s)
    ensures var t := Swept(s, now);
      && t.locks == s.locks && t.table == s.table
      && GroupRuns.Inv(WorldOf(t, group))
      && (WorldOf(t, group) == WorldOf(s, group) || SweptBy(s, t, now, group))
      && (group in s.table.groups ==> WorldOf(t, group) == View(t, group, s.table.groups[group]))
      && (group !in s.table.groups ==> WorldOf(t, group) == WorldOf(s, group))
  {
    hide GroupRuns.Inv, GroupRuns.Step, SlotTables.StrongCount, SlotTables.Inv;
    var t := Swept(s, now);
    assert Present(s, group);
    WorldLawful(s, group);
    if group in s.table.groups && Idle(s, s.table.groups[group]) {
      GroupRuns.StepKeeps(WorldOf(s, group), GroupRuns.Sweep(now));
      SweepAdvances(WorldOf(s, group), now);
    }
  }

  ghost predicate SweptBy(s: State, t: State, now: nat, group: string) {
    && (WorldOf(s, group).state.Some? ==> WorldOf(s, group).state.value.members != map[])
    && GroupRuns.Enabled(WorldOf(s, group), GroupRuns.Sweep(now))
    && WorldOf(t, group) == GroupRuns.Step(WorldOf(s, group), GroupRuns.Sweep(now))
  }

  lemma SweepAdvances(w: GroupRuns.World, now: nat)
    requires GroupRuns.Inv(w) && w.holder.None?
    ensures w.state.Some? ==> w.state.value.members != map[]
    ensures var t := GroupRuns.Step(w, GroupRuns.Sweep(now));
      t.state == Advance(w.state, now).state && t.holder == w.holder
    ensures Advance(w.state, now).error.Some? ==> Advance(w.state, now).state.Some?
    ensures w.state.None? ==> Advance(w.state, now).state.None?
  {
    hide GroupRuns.InOrder, GroupRuns.Granted, GroupRuns.Agreed, GroupRuns.AllWhole, Advance, GroupLaws.GroupOk;
    GroupRuns.FreeFacts(w);
    if w.state.Some? {
      GroupLaws.AdvanceLaw(w.state.value, GroupRuns.Behind(w), now);
    } else {
      GroupRuns.NoAdvance(now);
    }
  }

  lemma OpenStep(s: State, a: Action)
    requires Inv(s) && Populated(s) && Enabled(s, a) && a.Open?
    ensures Inv(Step(s, a))
  {
    hide GroupRuns.Inv, SlotTables.StrongCount, Swept;
    var t := Step(s, a);
    SlotTables.StepKeeps(s.table, SlotTables.Open(a.task, a.group, a.newcomer, Expired(s, a.now)));
    if a.group in s.table.groups || !a.newcomer {
      SameGroups(s, t);
    } else {
      OpenPresent(s, a);
      OpenLive(s, a);
      OpenLocks(s, a);
    }
  }

  /** What a sweep leaves in the table: idle slots without a group are gone, all others stay. */
  lemma OpenTable(s: State, a: Action)
    requires Populated(s) && a.Open? && a.group !in s.table.groups && a.newcomer && a.task !in s.table.handles
    ensures var t, u := s.table, SlotTables.Step(s.table, SlotTables.Open(a.task, a.group, a.newcomer, Expired(s, a.now)));
      && (forall g :: g in t.groups && SlotTables.Stays(t, t.groups[g], Expired(s, a.now)) ==>
            g in u.groups && u.groups[g] == t.groups[g])
      && (forall g :: g in u.groups && !(g == a.group && u.next > t.next) ==>
            g in t.groups && u.groups[g] == t.groups[g])
      && (forall g :: g in t.groups && g !in u.groups ==> !SlotTables.Stays(t, t.groups[g], Expired(s, a.now)))
      && (u.next == t.next || (u.next == t.next + 1 && a.group in u.groups && u.groups[a.group] == t.next))
      && (forall task :: task in t.handles ==> task in u.handles && u.handles[task] == t.handles[task])
      && u.live == SlotTables.Sweep(t, Expired(s, a.now)).live
  {
    hide SlotTables.StrongCount, Expired;
  }

  lemma OpenPresent(s: State, a: Action)
    requires Inv(s) && Populated(s) && Enabled(s, a) && a.Open? && a.group !in s.table.groups && a.newcomer
    ensures Lawful(Step(s, a)) && forall group :: Present(Step(s, a), group)
  {
    hide GroupRuns.Inv, SlotTables.StrongCount, SlotTables.Inv, Swept, SlotTables.Step, Expired, LockOk;
    var t, swept := Step(s, a), Swept(s, a.now);
    OpenTable(s, a);
    forall group | group in t.worlds ensures GroupRuns.Inv(t.worlds[group]) {
      SweptWorld(s, a.now, group);
    }
    NextFree(s);
    forall group ensures Present(t, group) {
      SweptWorld(s, a.now, group);
      assert Present(s, group);
      if group in s.table.groups {
        var slot := s.table.groups[group];
        OldSlot(s, slot);
        if group !in t.table.groups {
          SweptEmpty(s, a.now, group);
        }
      }
    }
  }

  lemma NextFree(s: State)
    requires Inv(s)
    ensures s.table.next !in s.locks && s.table.next !in s.slots && s.table.next !in s.table.live
  {
    hide GroupRuns.Inv, Lawful, Present;
    if s.table.next in s.locks {
      assert LockOk(s, s.table.next);
      SlotKnown(s.table, s.locks[s.table.next].task);
    }
  }

  lemma OldSlot(s: State, slot: nat)
    requires SlotTables.Inv(s.table) && slot in s.table.groups.Values
    ensures slot < s.table.next
  {
  }

  /** A slot that a sweep removes holds no group any more, and nobody holds its lock. */
  lemma SweptEmpty(s: State, now: nat, group: string)
    requires Inv(s) && Populated(s) && group in s.table.groups
    requires !SlotTables.Stays(s.table, s.table.groups[group], Expired(s, now))
    ensures WorldOf(Swept(s, now), group).state.None? && WorldOf(Swept(s, now), group).holder.None?
  {
    hide GroupRuns.Inv, GroupRuns.Step, SlotTables.StrongCount, SlotTables.Inv;
    var slot := s.table.groups[group];
    assert Present(s, group);
    if slot in s.locks {
      assert LockOk(s, slot);
      LockedHeld(s, slot);
    }
    WorldLawful(s, group);
    SweepAdvances(WorldOf(s, group), now);
  }

  /**
   * Opening a slot for a new group frees exactly the slots that no task holds and whose group is empty
   * once it is advanced.
   */
  lemma OpenFrees(s: State, a: Action, group: string)
    requires Inv(s) && Populated(s) && Enabled(s, a) && a.Open? && a.group !in s.table.groups && a.newcomer
    requires group in s.table.groups
    ensures var slot := s.table.groups[group];
      group in Step(s, a).table.groups <==>
        || SlotTables.SomebodyHolds(s.table, slot)
        || (StateOf(s, slot).Some? && Advance(StateOf(s, slot), a.now).state.Some?)
  {
    hide GroupRuns.Inv, SlotTables.StrongCount, SlotTables.Inv, SlotTables.Step, SlotTables.Sweep, Swept, Advance,
      SlotTables.SomebodyHolds;
    var slot := s.table.groups[group];
    SlotTables.OpenRefuses(s.table, a.task, a.group, Expired(s, a.now));
    SlotTables.SweepFrees(s.table, Expired(s, a.now), group);
    SlotTables.SoleReference(s.table, slot);
    assert Present(s, group);
    WorldLawful(s, group);
    if slot in s.locks {
      assert LockOk(s, slot);
      LockedHeld(s, slot);
    } else if !SlotTables.SomebodyHolds(s.table, slot) {
      AdvanceResult(s, group, a.now);
    }
  }

  /** What advancing leaves of a group nobody has locked. */
  lemma AdvanceResult(s: State, group: string, now: nat)
    requires Inv(s) && group in s.table.groups && s.table.groups[group] !in s.locks
    ensures var state := StateOf(s, s.table.groups[group]);
      && (state.Some? ==> state.value.members != map[])
      && (Advance(state, now).error.Some? ==> Advance(state, now).state.Some?)
      && (state.None? ==> Advance(state, now).state.None?)
  {
    hide GroupRuns.Inv, SlotTables.StrongCount, SlotTables.Inv, Advance;
    assert Present(s, group);
    WorldLawful(s, group);
    SweepAdvances(WorldOf(s, group), now);
  }

  lemma OpenLive(s: State, a: Action)
    requires Inv(s) && Populated(s) && Enabled(s, a) && a.Open? && a.group !in s.table.groups && a.newcomer
    ensures LiveOk(Step(s, a))
  {
    hide GroupRuns.Inv, SlotTables.StrongCount, SlotTables.Step, Inv, Swept, Expired, Idle;
    var t := Step(s, a);
    OpenTable(s, a);
    NextFree(s);
    forall x ensures x in t.table.live <==> x in t.slots && t.slots[x].Some? {
      SweptLive(s, a.now, x);
    }
    forall x | x in t.slots ensures x < t.table.next {
      SweptLive(s, a.now, x);
    }
  }

  /** A sweep keeps the two records of which slots hold a group in step. */
  lemma SweptLive(s: State, now: nat, x: nat)
    requires Inv(s) && Populated(s)
    ensures var t := Swept(s, now);
      && (x in t.slots ==> x < s.table.next)
      && (x in SlotTables.Sweep(s.table, Expired(s, now)).live <==> x in t.slots && t.slots[x].Some?)
  {
    hide GroupRuns.Inv, SlotTables.StrongCount, SlotTables.Inv, GroupRuns.Step;
    if x in s.slots && x in s.table.groups.Values {
      if x in s.locks {
        assert LockOk(s, x);
        LockedHeld(s, x);
      } else {
        var group :| group in s.table.groups && s.table.groups[group] == x;
        assert Present(s, group);
        WorldLawful(s, group);
        SweepAdvances(WorldOf(s, group), now);
      }
    }
    if x in s.table.live {
      LiveInTable(s.table, x);
    }
  }

  lemma LiveInTable(t: SlotTables.Table, slot: nat)
    requires SlotTables.Inv(t) && slot in t.live
    ensures slot in t.groups.Values
  {
  }

  lemma OpenLocks(s: State, a: Action)
    requires Inv(s) && Populated(s) && Enabled(s, a) && a.Open? && a.group !in s.table.groups && a.newcomer
    ensures var t := Step(s, a); forall slot :: slot in t.locks ==> LockOk(t, slot)
  {
    hide GroupRuns.Inv, SlotTables.StrongCount, SlotTables.Inv, SlotTables.Step, Expired, Present;
    var t := Step(s, a);
    OpenTable(s, a);
    forall slot | slot in t.locks ensures LockOk(t, slot) {
      assert LockOk(s, slot);
    }
  }

  lemma StepKeeps(s: State, a: Action)
    requires Inv(s) && Enabled(s, a)
    ensures Populated(s) && Inv(Step(s, a))
  {
    hide Inv, Enabled, Step;
    AllPopulated(s);
    match a
    case Take(_, _) => TakeStep(s, a);
    case Open(_, _, _, _) => OpenStep(s, a);
    case Section(_, _) => SectionStep(s, a);
    case Reclaim(_) => ReclaimStep(s, a);
    case Drop(_) => DropStep(s, a);
  }

  // -------------------------------------------------------------- runs

  ghost predicate Run(states: seq<State>, actions: seq<Action>) {
    && |states| == |actions| + 1
    && states[0] == Empty
    && forall i :: 0 <= i < |actions| ==>
      Populated(states[i]) && Enabled(states[i], actions[i]) && states[i + 1] == Step(states[i], actions[i])
  }

  lemma EmptyInv()
    ensures Inv(Empty)
  {
  }

  lemma {:induction false} EveryState(states: seq<State>, actions: seq<Action>, i: nat)
    requires Run(states, actions) && i < |states|
    ensures Inv(states[i])
  {
    hide Inv, Enabled, Step;
    if i > 0 {
      EveryState(states, actions, i - 1);
      StepKeeps(states[i - 1], actions[i - 1]);
    } else {
      EmptyInv();
    }
  }

  /** What every task finds behind a slot it may use is the present of its group, over all slots the group has had. */
  lemma SlotIsPresent(states: seq<State>, actions: seq<Action>, i: nat, task: nat)
    requires Run(states, actions) && i < |states|
    requires task in states[i].table.handles && states[i].table.handles[task].usable
    ensures var s, h := states[i], states[i].table.handles[task];
      WorldOf(s, h.group) == View(s, h.group, h.slot)
  {
    hide GroupRuns.Inv;
    EveryState(states, actions, i);
    assert Present(states[i], states[i].table.handles[task].group);
    HandleCurrent(states[i], task);
  }

  /** One action of the coordinator is one section of a group, or nothing to it. */
  ghost predicate Moves(w: GroupRuns.World, t: GroupRuns.World, section: GroupRuns.Action) {
    && (w.state.Some? ==> w.state.value.members != map[])
    && GroupRuns.Enabled(w, section) && t == GroupRuns.Step(w, section)
  }

  lemma WorldMoves(s: State, a: Action, group: string)
    requires Inv(s) && Populated(s) && Enabled(s, a)
    ensures var w, t := WorldOf(s, group), WorldOf(Step(s, a), group);
      t == w || exists section :: Moves(w, t, section)
  {
    hide GroupRuns.Inv, GroupRuns.Step, GroupRuns.Enabled, SlotTables.Inv, SlotTables.Step, SlotTables.StrongCount, Swept;
    var w, t := WorldOf(s, group), WorldOf(Step(s, a), group);
    assert Present(s, group);
    match a
    case Section(task, section) =>
      HandleCurrent(s, task);
      if group == s.table.handles[task].group {
        assert Moves(w, t, section);
      }
    case Open(_, _, _, now) =>
      SweptWorld(s, now, group);
      assert SweptBy(s, Swept(s, now), now, group) ==> Moves(w, WorldOf(Swept(s, now), group), GroupRuns.Sweep(now));
    case _ =>
  }

  /**
   * The history of a group, through all the slots it was given and lost, is one run of GroupRuns: so
   * what holds in every such run holds of every group of the coordinator.
   */
  lemma {:induction false} OneHistory(states: seq<State>, actions: seq<Action>, i: nat, group: string)
    returns (worlds: seq<GroupRuns.World>, sections: seq<GroupRuns.Action>)
    requires Run(states, actions) && i < |states|
    ensures GroupRuns.Run(worlds, sections) && worlds[|sections|] == WorldOf(states[i], group)
  {
    hide Inv, Enabled, Step, GroupRuns.Step, GroupRuns.Enabled, View;
    if i == 0 {
      worlds, sections := [GroupRuns.Start], [];
    } else {
      worlds, sections := OneHistory(states, actions, i - 1, group);
      EveryState(states, actions, i - 1);
      WorldMoves(states[i - 1], actions[i - 1], group);
      var w, t := WorldOf(states[i - 1], group), WorldOf(states[i], group);
      if t != w {
        var section :| Moves(w, t, section);
        worlds, sections := worlds + [t], sections + [section];
      }
    }
  }
}
