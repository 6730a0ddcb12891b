/**
 * What runs of a group mean for its members: sessions that are kept alive do not expire, and every
 * assignment a member is given is the one its leader listed for it.
 */
module GroupHistories {
  import opened LogTypes
  import opened Groups
  import opened GroupLaws
  import opened GroupRequests
  import opened GroupMeaning
  import opened GroupRuns

  // -------------------------------------------------------------- the state one action leaves

  /** The group after the critical section of an action, once the group is advanced. */
  ghost function ServedState(state: Option<Group>, a: Action): Option<Group> {
    match a
    case JoinGroup(now, member, protocols, session, rebalance, newId) =>
      Join(state, now, member, protocols, session, rebalance, newId).state
    case PollSync(now, generation, id, assignments, submitted) =>
      Sync(state, now, generation, id, assignments, submitted).state
    case Beat(now, generation, id) => Heartbeat(state, now, generation, id).state
    case LeaveGroup(now, id) => Leave(state, now, id).state
    case _ => state
  }

  lemma RecordKeeps(w: World, state: Option<Group>)
    ensures Record(w, state).state == state && Record(w, state).grants == w.grants && Record(w, state).passes == w.passes
    ensures Record(w, state).issued == w.issued
  {
  }

  lemma ServeState(w: World, a: Action)
    ensures Serve(w, a).state == ServedState(w.state, a)
  {
    hide Record, Join, Sync, Heartbeat, Leave, CommitGate, AwaitJoin;
    forall v: World, state ensures Record(v, state).state == state {
      RecordKeeps(v, state);
    }
  }

  lemma StepState(w: World, a: Action)
    requires w.state.Some? ==> w.state.value.members != map[]
    ensures a.EndCommit? ==> Step(w, a).state == w.state
    ensures !a.EndCommit? ==>
      var advanced := Advance(w.state, NowOf(a));
      Step(w, a).state == if advanced.error.Some? then advanced.state else ServedState(advanced.state, a)
  {
    hide Record, Serve, Advance, ServedState;
    if !a.EndCommit? {
      var advanced := Advance(w.state, NowOf(a));
      RecordKeeps(w, advanced.state);
      ServeState(Record(w, advanced.state), a);
    }
  }

  // -------------------------------------------------------------- what every move of the state may change

  /** What advancing or a request may do to a member that is still there afterwards. */
  predicate MovedOn(was: Member, m: Member, now: nat) {
    && m.sessionTimeout == was.sessionTimeout && m.rebalanceTimeout == was.rebalanceTimeout
    && m.joinedRebalance == was.joinedRebalance
    && (m.deadline == was.deadline || m.deadline == now + was.sessionTimeout)
    && (m.assignment.Some? ==> m.assignment == was.assignment)
  }

  /** A group moves on: nobody new, and whoever keeps an assignment keeps the generation. */
  ghost predicate Onward(g: Group, now: nat, h: Group) {
    && h.members.Keys <= g.members.Keys && g.rebalance <= h.rebalance
    && (forall id :: id in h.members ==> MovedOn(g.members[id], h.members[id], now))
    && forall id :: id in h.members && h.members[id].assignment.Some? ==> h.generation == g.generation
  }

  lemma ShrunkOnward(g: Group, now: nat, h: Group)
    requires Shrunk(g, h)
    ensures Onward(g, now, h)
  {
  }

  lemma RestartedOnward(g: Group, now: nat, h: Group)
    requires Restarted(g, now, h)
    ensures Onward(g, now, h)
  {
    hide IsMaxTimeout;
  }

  lemma FormedOnward(g: Group, now: nat, h: Group)
    requires FormedBy(g, now, h)
    ensures Onward(g, now, h)
  {
    hide IsMaxTimeout, Chosen, RosterOf;
    forall id | id in h.members ensures MovedOn(g.members[id], h.members[id], now) {
      assert Informed(h.members[id], g.members[id], h, id, now);
    }
  }

  lemma AdvancedOnward(g: Group, now: nat)
    requires g.members != map[] && g.leader in g.members && Regular(g) && Advance(Some(g), now).state.Some?
    ensures var h := Advance(Some(g), now).state.value;
      && Onward(g, now, h)
      && forall id :: id in h.members <==> StaysOn(g, now, id)
  {
    hide Advance, Onward, FormedBy, Restarted, Shrunk, Regular, AllKnow, LeaderAfter;
    AdvanceMeaning(g, now);
    var h := Advance(Some(g), now).state.value;
    if Shrunk(g, h) {
      ShrunkOnward(g, now, h);
    }
    if Restarted(g, now, h) {
      RestartedOnward(g, now, h);
    }
    if FormedBy(g, now, h) {
      FormedOnward(g, now, h);
    }
    if h == g {
      SameShrunk(g);
      ShrunkOnward(g, now, h);
    }
  }

  lemma SameShrunk(g: Group)
    ensures Shrunk(g, g)
  {
  }

  lemma RegularOnward(g: Group, now: nat, h: Group)
    requires Regular(g) && Onward(g, now, h)
    ensures Regular(h)
  {
    forall id | id in h.members ensures h.members[id].joinedRebalance <= h.rebalance {
      assert MovedOn(g.members[id], h.members[id], now);
    }
    forall id | id in h.members ensures h.members[id].sessionTimeout > 0 && h.members[id].rebalanceTimeout > 0 {
      assert MovedOn(g.members[id], h.members[id], now);
    }
  }

  /** A leader's first sync of a generation that gives the member this assignment. */
  ghost predicate Lists(g: Group, a: Action, id: MemberId, assignment: string) {
    && a.PollSync? && !a.submitted && a.generation == g.generation
    && g.phase == AwaitingSync && a.id == g.leader && OneEach(a.assignments, g.members)
    && SyncAssignment(id, assignment) in a.assignments
  }

  /** What a request may do to the group it finds. */
  ghost predicate ServedTo(g: Group, a: Action, h: Group) {
    && g.rebalance <= h.rebalance
    && (forall id :: id in g.members && id !in h.members ==> a == LeaveGroup(NowOf(a), id))
    && (forall id :: id in h.members && !(a.JoinGroup? && (a.member == Some(id) || id !in g.members)) ==>
          && id in g.members
          && h.members[id].sessionTimeout == g.members[id].sessionTimeout
          && h.members[id].rebalanceTimeout == g.members[id].rebalanceTimeout
          && h.members[id].joinedRebalance == g.members[id].joinedRebalance
          && (h.members[id].deadline == g.members[id].deadline
              || h.members[id].deadline == NowOf(a) + g.members[id].sessionTimeout))
    && (forall id :: id in h.members && a.JoinGroup? && (a.member == Some(id) || id !in g.members) ==>
          && h.members[id].sessionTimeout == a.session && h.members[id].rebalanceTimeout == a.rebalance
          && h.members[id].joinedRebalance == h.rebalance && h.members[id].assignment.None?)
    && (forall id :: id in h.members && h.members[id].assignment.Some? ==>
          && h.generation == g.generation
          && ((id in g.members && h.members[id].assignment == g.members[id].assignment)
              || Lists(g, a, id, h.members[id].assignment.value)))
  }

  lemma SameServed(g: Group, a: Action)
    ensures ServedTo(g, a, g) || a.JoinGroup?
    ensures a.JoinGroup? && (a.member.Some? ==> a.member.value !in g.members) ==> ServedTo(g, a, g)
  {
  }

  lemma TouchedServed(g: Group, a: Action, id: MemberId, h: Group)
    requires !a.JoinGroup? && Touched(g, id, NowOf(a), h)
    ensures ServedTo(g, a, h)
  {
  }

  lemma AssignedServed(g: Group, a: Action, h: Group)
    requires a.PollSync? && !a.submitted && a.generation == g.generation && g.phase == AwaitingSync && a.id == g.leader
    requires OneEach(a.assignments, g.members) && Assigned(g, a.assignments, a.now, h)
    ensures ServedTo(g, a, h)
  {
    hide Lists, OneEach, Assigned;
    AssignedShape(g, a.assignments, a.now, h);
    forall id | id in h.members
      ensures h.members[id].assignment.Some? && Lists(g, a, id, h.members[id].assignment.value)
      ensures h.members[id] == g.members[id].(assignment := h.members[id].assignment,
                                              deadline := a.now + g.members[id].sessionTimeout)
    {
      AssignedListed(g, a, h, id);
    }
  }

  lemma AssignedShape(g: Group, assignments: seq<SyncAssignment>, now: nat, h: Group)
    requires Assigned(g, assignments, now, h)
    ensures h == g.(phase := Stable, members := h.members) && h.members.Keys == g.members.Keys
  {
  }

  lemma AssignedListed(g: Group, a: Action, h: Group, id: MemberId)
    requires a.PollSync? && !a.submitted && a.generation == g.generation && g.phase == AwaitingSync && a.id == g.leader
    requires OneEach(a.assignments, g.members) && Assigned(g, a.assignments, a.now, h) && id in h.members
    ensures h.members[id].assignment.Some? && Lists(g, a, id, h.members[id].assignment.value)
    ensures h.members[id] == g.members[id].(assignment := h.members[id].assignment,
                                            deadline := a.now + g.members[id].sessionTimeout)
  {
    var i :| 0 <= i < |a.assignments| && a.assignments[i].id == id;
    assert a.assignments[i] == SyncAssignment(id, a.assignments[i].assignment);
  }

  lemma SyncServed(g: Group, a: Action)
    requires a.PollSync? && g.leader in g.members
    ensures ServedState(Some(g), a).Some? && ServedTo(g, a, ServedState(Some(g), a).value)
  {
    hide Sync, ServedTo, Touched, Assigned, OneEach, Own;
    SyncMeaning(g, a.now, a.generation, a.id, a.assignments, a.submitted);
    var h := ServedState(Some(g), a).value;
    SameServed(g, a);
    if Touched(g, a.id, a.now, h) {
      TouchedServed(g, a, a.id, h);
    }
    if Assigned(g, a.assignments, a.now, h) && OneEach(a.assignments, g.members) && a.id == g.leader
       && g.phase == AwaitingSync && !a.submitted && a.generation == g.generation
    {
      AssignedServed(g, a, h);
    }
  }

  lemma LeaveServed(g: Group, a: Action)
    requires a.LeaveGroup? && g.leader in g.members && ServedState(Some(g), a).Some?
    ensures ServedTo(g, a, ServedState(Some(g), a).value)
  {
    hide Leave, FormedBy, Restarted, Shrunk, AllKnow, LeaderAfter;
    LeaveMeaning(g, a.now, a.id);
    var h := ServedState(Some(g), a).value;
    if a.id in g.members {
      if Shrunk(g, h) {
        ShrunkOnward(g, a.now, h);
      }
      if Restarted(g, a.now, h) {
        RestartedOnward(g, a.now, h);
      }
      if FormedBy(g, a.now, h) {
        FormedOnward(g, a.now, h);
      }
      LeftServed(g, a, h);
    } else {
      SameServed(g, a);
    }
  }

  lemma LeftServed(g: Group, a: Action, h: Group)
    requires a.LeaveGroup? && Onward(g, a.now, h) && h.members.Keys == g.members.Keys - {a.id}
    ensures ServedTo(g, a, h)
  {
    forall id | id in h.members ensures MovedOn(g.members[id], h.members[id], a.now) {
    }
  }

  lemma JoinServed(g: Group, a: Action)
    requires a.JoinGroup? && g.leader in g.members && a.newId !in g.members
    ensures ServedState(Some(g), a).Some?
    ensures ServedState(Some(g), a) == Some(g) || ServedTo(g, a, ServedState(Some(g), a).value)
  {
    hide Join, Matches, IsMaxTimeout;
    JoinMeaning(g, a.now, a.member, a.protocols, a.session, a.rebalance, a.newId);
  }

  lemma RegularServed(g: Group, a: Action, h: Group)
    requires Regular(g) && ServedTo(g, a, h) && (a.JoinGroup? ==> a.session > 0 && a.rebalance > 0)
    ensures Regular(h)
  {
    hide Lists;
    forall id | id in h.members
      ensures h.members[id].sessionTimeout > 0 && h.members[id].rebalanceTimeout > 0
              && h.members[id].joinedRebalance <= h.rebalance
    {
    }
  }

  /** Every request either leaves the group as it was, or serves it. */
  lemma AnyServed(g: Group, a: Action)
    requires g.members != map[] && g.leader in g.members && ServedState(Some(g), a).Some?
    requires a.JoinGroup? ==> a.newId !in g.members
    ensures ServedState(Some(g), a) == Some(g) || ServedTo(g, a, ServedState(Some(g), a).value)
  {
    hide ServedTo, Join, Sync, Leave, Heartbeat, Touched;
    match a
    case JoinGroup(_, _, _, _, _, _) => JoinServed(g, a);
    case PollSync(_, _, _, _, _) => SyncServed(g, a);
    case LeaveGroup(_, _) => LeaveServed(g, a);
    case Beat(now, generation, id) =>
      HeartbeatMeaning(g, now, generation, id);
      if Heartbeat(Some(g), now, generation, id).state != Some(g) {
        TouchedServed(g, a, id, Heartbeat(Some(g), now, generation, id).state.value);
      }
    case _ =>
  }

  // -------------------------------------------------------------- every reachable group is regular

  lemma InOrderGroup(w: World)
    requires GroupRuns.Inv(w) && w.state.Some?
    ensures w.state.value.members != map[] && w.state.value.leader in w.state.value.members
    ensures forall id :: id in w.state.value.members ==> id in w.issued
  {
    hide CommonName;
  }

  /** The group an action finds once it has advanced it. */
  lemma Found(w: World, a: Action)
    requires GroupRuns.Inv(w) && !a.EndCommit? && w.holder.None?
    ensures w.state.Some? ==> w.state.value.members != map[]
    ensures var advanced := Advance(w.state, NowOf(a));
      advanced.state.Some? ==>
        && advanced.state.value.members != map[] && advanced.state.value.leader in advanced.state.value.members
        && forall id :: id in advanced.state.value.members ==> id in w.issued
    ensures w.state.None? ==> Advance(w.state, NowOf(a)).state.None?
  {
    hide Advance, Record, GroupRuns.Inv;
    HasMembers(w);
    FreeNow(w);
    TickLaw(w, NowOf(a));
    var ticked := Record(w, Advance(w.state, NowOf(a)).state);
    RecordKeeps(w, Advance(w.state, NowOf(a)).state);
    FreeInv(ticked);
    if ticked.state.Some? {
      InOrderGroup(ticked);
    }
    if w.state.None? {
      NoAdvance(NowOf(a));
    }
  }

  lemma FreeNow(w: World)
    requires GroupRuns.Inv(w) && w.holder.None?
    ensures Free(w)
  {
  }

  lemma FreeInv(w: World)
    requires Free(w)
    ensures GroupRuns.Inv(w)
  {
  }

  predicate RegularState(state: Option<Group>) {
    state.Some? ==> Regular(state.value)
  }

  lemma OpenRegular(a: Action)
    requires a.JoinGroup? && a.session > 0 && a.rebalance > 0
    ensures RegularState(ServedState(None, a))
    ensures ServedState(None, a).Some? ==>
      forall id :: id in ServedState(None, a).value.members ==> ServedState(None, a).value.members[id].assignment.None?
  {
    OpenMeaning(a.now, a.member, a.protocols, a.session, a.rebalance, a.newId);
  }

  lemma NobodyServed(a: Action)
    requires !a.JoinGroup?
    ensures ServedState(None, a).None?
  {
  }

  lemma StepRegular(w: World, a: Action)
    requires GroupRuns.Inv(w) && Enabled(w, a) && RegularState(w.state)
    ensures w.state.Some? ==> w.state.value.members != map[]
    ensures RegularState(Step(w, a).state)
  {
    hide GroupRuns.Inv, Advance, Step, ServedState, Regular, ServedTo, Onward;
    HasMembers(w);
    StepState(w, a);
    if !a.EndCommit? {
      Found(w, a);
      var advanced := Advance(w.state, NowOf(a));
      if w.state.Some? && advanced.state.Some? {
        InOrderGroup(w);
        AdvancedOnward(w.state.value, NowOf(a));
        RegularOnward(w.state.value, NowOf(a), advanced.state.value);
      }
      ServedRegular(advanced.state, a);
    }
  }

  lemma ServedRegular(state: Option<Group>, a: Action)
    requires RegularState(state)
    requires state.Some? ==> state.value.members != map[] && state.value.leader in state.value.members
    requires a.JoinGroup? ==> a.session > 0 && a.rebalance > 0 && (state.Some? ==> a.newId !in state.value.members)
    ensures RegularState(ServedState(state, a))
  {
    hide ServedState, Regular, ServedTo;
    if state.None? {
      if a.JoinGroup? {
        OpenRegular(a);
      } else {
        NobodyServed(a);
      }
    } else if ServedState(state, a).Some? {
      AnyServed(state.value, a);
      if ServedState(state, a) != state {
        RegularServed(state.value, a, ServedState(state, a).value);
      }
    }
  }

  /** In every reachable group timeouts are positive and nobody is ahead of the current rebalance. */
  lemma {:induction false} AlwaysRegular(worlds: seq<World>, actions: seq<Action>, i: nat)
    requires GroupRuns.Run(worlds, actions) && i < |worlds|
    ensures RegularState(worlds[i].state)
  {
    hide GroupRuns.Inv, Step, Enabled, Regular;
    if i > 0 {
      AlwaysRegular(worlds, actions, i - 1);
      EveryWorld(worlds, actions, i - 1);
      StepRegular(worlds[i - 1], actions[i - 1]);
    }
  }

  // -------------------------------------------------------------- where assignments come from

  /** At step k the leader of the generation submitted a list that gives the member this assignment. */
  ghost predicate ListedAt(w: World, a: Action, id: MemberId, generation: int, assignment: string) {
    && !a.EndCommit? && a.PollSync? && a.generation == generation
    && (w.state.Some? ==> w.state.value.members != map[])
    && Advance(w.state, a.now).state.Some?
    && Lists(Advance(w.state, a.now).state.value, a, id, assignment)
  }

  ghost predicate ListedBefore(worlds: seq<World>, actions: seq<Action>, n: nat, id: MemberId, generation: int,
                               assignment: string)
    requires |worlds| == |actions| + 1 && n <= |actions|
  {
    exists k :: 0 <= k < n && ListedAt(worlds[k], actions[k], id, generation, assignment)
  }

  /** Everything assigned in the group, and everything ever granted, was listed. */
  ghost predicate AllListed(worlds: seq<World>, actions: seq<Action>, n: nat)
    requires |worlds| == |actions| + 1 && n <= |actions|
  {
    && (worlds[n].state.Some? ==>
          forall id :: id in worlds[n].state.value.members && worlds[n].state.value.members[id].assignment.Some? ==>
            ListedBefore(worlds, actions, n, id, worlds[n].state.value.generation,
                         worlds[n].state.value.members[id].assignment.value))
    && forall g :: g in worlds[n].grants ==> ListedBefore(worlds, actions, n, g.member, g.generation, g.assignment)
  }

  /** After a step, an assignment is an old one of the same generation, or listed in that step. */
  lemma StepAssignments(w: World, a: Action, id: MemberId)
    requires GroupRuns.Inv(w) && Enabled(w, a) && RegularState(w.state)
    ensures w.state.Some? ==> w.state.value.members != map[]
    ensures var t := Step(w, a);
      t.state.Some? && id in t.state.value.members && t.state.value.members[id].assignment.Some? ==>
        var x := t.state.value.members[id].assignment;
        || (w.state.Some? && id in w.state.value.members && w.state.value.members[id].assignment == x
            && w.state.value.generation == t.state.value.generation)
        || ListedAt(w, a, id, t.state.value.generation, x.value)
  {
    hide GroupRuns.Inv, Advance, Step, ServedState, Regular, ServedTo, Lists, OneEach;
    HasMembers(w);
    StepState(w, a);
    if !a.EndCommit? {
      Found(w, a);
      var advanced := Advance(w.state, NowOf(a));
      if w.state.Some? && advanced.state.Some? {
        InOrderGroup(w);
        AdvancedOnward(w.state.value, NowOf(a));
      }
      if advanced.error.None? {
        ServedAssignments(advanced.state, a, id);
        var t := Step(w, a).state;
        if t.Some? && id in t.value.members && t.value.members[id].assignment.Some? && advanced.state.Some?
           && Lists(advanced.state.value, a, id, t.value.members[id].assignment.value)
        {
          ListsNow(advanced.state.value, a, id, t.value.members[id].assignment.value);
        }
      }
    }
  }

  lemma ListsNow(g: Group, a: Action, id: MemberId, assignment: string)
    requires Lists(g, a, id, assignment)
    ensures a.PollSync? && a.generation == g.generation && NowOf(a) == a.now
  {
  }

  lemma ServedAssignments(state: Option<Group>, a: Action, id: MemberId)
    requires state.Some? ==> state.value.members != map[] && state.value.leader in state.value.members
    requires a.JoinGroup? ==> a.session > 0 && a.rebalance > 0 && (state.Some? ==> a.newId !in state.value.members)
    ensures var t := ServedState(state, a);
      t.Some? && id in t.value.members && t.value.members[id].assignment.Some? ==>
        && state.Some? && t.value.generation == state.value.generation
        && ((id in state.value.members && state.value.members[id].assignment == t.value.members[id].assignment)
            || Lists(state.value, a, id, t.value.members[id].assignment.value))
  {
    hide ServedState, Lists, OneEach;
    if state.None? {
      if a.JoinGroup? {
        OpenRegular(a);
      } else {
        NobodyServed(a);
      }
    } else if ServedState(state, a).Some? {
      AnyServed(state.value, a);
    }
  }

  /** A grant is given out only for what the member then holds. */
  lemma StepGrants(w: World, a: Action, gr: Grant)
    requires GroupRuns.Inv(w) && Enabled(w, a) && (w.state.Some? ==> w.state.value.members != map[])
    requires gr in Step(w, a).grants && gr !in w.grants
    ensures var t := Step(w, a).state;
      && t.Some? && gr.member in t.value.members && t.value.members[gr.member].assignment == Some(gr.assignment)
      && t.value.generation == gr.generation
  {
    hide GroupRuns.Inv, Advance, Record, Join, Leave, Heartbeat, Sync, AwaitJoin, CommitGate, GroupOk, Keeps, Installs;
    forall v: World, state ensures Record(v, state).grants == v.grants && Record(v, state).state == state {
      RecordKeeps(v, state);
    }
    var advanced := Advance(w.state, NowOf(a));
    assert a.PollSync?;
    FreeNow(w);
    TickLaw(w, NowOf(a));
    FreeGroup(Record(w, advanced.state));
    if advanced.state.Some? {
      SyncLaw(advanced.state.value, Behind(Record(w, advanced.state)), a.now, a.generation, a.id, a.assignments, a.submitted);
    } else {
      NobodySyncs(a);
    }
  }

  lemma FreeGroup(w: World)
    requires Free(w)
    ensures w.state.Some? ==> GroupOk(w.state.value, Behind(w))
  {
  }

  lemma {:induction false} EveryListed(worlds: seq<World>, actions: seq<Action>, n: nat)
    requires GroupRuns.Run(worlds, actions) && n < |worlds|
    ensures AllListed(worlds, actions, n)
  {
    hide GroupRuns.Inv, Step, Enabled, Regular, ListedAt, ListedBefore;
    if n > 0 {
      EveryListed(worlds, actions, n - 1);
      EveryWorld(worlds, actions, n - 1);
      AlwaysRegular(worlds, actions, n - 1);
      NextListed(worlds, actions, n - 1);
    }
  }

  lemma NextListed(worlds: seq<World>, actions: seq<Action>, n: nat)
    requires |worlds| == |actions| + 1 && n < |actions| && AllListed(worlds, actions, n)
    requires GroupRuns.Inv(worlds[n]) && Enabled(worlds[n], actions[n]) && RegularState(worlds[n].state)
    requires worlds[n].state.Some? ==> worlds[n].state.value.members != map[]
    requires worlds[n + 1] == Step(worlds[n], actions[n])
    ensures AllListed(worlds, actions, n + 1)
  {
    hide GroupRuns.Inv, Step, Enabled, Regular, ListedAt;
    var w, t, a := worlds[n], worlds[n + 1], actions[n];
    forall id | t.state.Some? && id in t.state.value.members && t.state.value.members[id].assignment.Some?
      ensures ListedBefore(worlds, actions, n + 1, id, t.state.value.generation, t.state.value.members[id].assignment.value)
    {
      StepAssignments(w, a, id);
    }
    forall gr | gr in t.grants ensures ListedBefore(worlds, actions, n + 1, gr.member, gr.generation, gr.assignment) {
      if gr !in w.grants {
        StepGrants(w, a, gr);
        StepAssignments(w, a, gr.member);
      }
    }
  }

  /**
   * Whatever assignment a member was ever given for a generation, the leader of that generation had
   * submitted it: a list with one assignment for every member, and this one for that member.
   */
  lemma GrantsListed(worlds: seq<World>, actions: seq<Action>, n: nat, g: Grant)
    requires GroupRuns.Run(worlds, actions) && n < |worlds| && g in worlds[n].grants
    ensures exists k :: 0 <= k < n && ListedAt(worlds[k], actions[k], g.member, g.generation, g.assignment)
  {
    hide ListedAt;
    EveryListed(worlds, actions, n);
  }

  // -------------------------------------------------------------- sessions that are kept alive

  /** The member's session, of this length, does not run out before `until`. */
  predicate AliveUntil(w: World, id: MemberId, until: nat, session: nat) {
    && w.state.Some? && id in w.state.value.members
    && w.state.value.members[id].sessionTimeout == session && w.state.value.members[id].deadline >= until
  }

  /** The action finds a joining phase due that the member has not joined. */
  predicate MissedAt(w: World, a: Action, id: MemberId) {
    && !a.EndCommit? && w.state.Some? && id in w.state.value.members
    && w.state.value.phase == Joining && a.now >= w.state.value.phaseDeadline
    && w.state.value.members[id].joinedRebalance != w.state.value.rebalance
  }

  /** The action neither takes the member out nor joins it again, and its clock reading is within the session. */
  predicate Leaves(a: Action, id: MemberId, until: nat, session: nat) {
    && !(a.LeaveGroup? && a.id == id) && !(a.JoinGroup? && a.member == Some(id))
    && (a.EndCommit? || a.now < until <= a.now + session)
  }

  lemma StepAlive(w: World, a: Action, id: MemberId, until: nat, session: nat)
    requires GroupRuns.Inv(w) && Enabled(w, a) && RegularState(w.state)
    requires AliveUntil(w, id, until, session) && Leaves(a, id, until, session) && !MissedAt(w, a, id)
    ensures w.state.value.members != map[]
    ensures AliveUntil(Step(w, a), id, until, session)
  {
    hide GroupRuns.Inv, Advance, Step, ServedState, Regular, ServedTo, Onward, Lists;
    HasMembers(w);
    StepState(w, a);
    InOrderGroup(w);
    if !a.EndCommit? {
      Found(w, a);
      AdvanceAlive(w.state.value, a.now, id, until, session);
      var advanced := Advance(w.state, a.now);
      if advanced.error.None? {
        ServedAlive(advanced.state.value, a, id, until, session);
      }
    }
  }

  lemma AdvanceAlive(g: Group, now: nat, id: MemberId, until: nat, session: nat)
    requires g.members != map[] && g.leader in g.members && Regular(g) && StaysOn(g, now, id)
    requires g.members[id].sessionTimeout == session && g.members[id].deadline >= until && now < until <= now + session
    ensures var a := Advance(Some(g), now);
      && a.state.Some? && id in a.state.value.members
      && a.state.value.members[id].sessionTimeout == session && a.state.value.members[id].deadline >= until
  {
    hide Advance, Regular, AdvancedTo;
    AdvanceMeaning(g, now);
    assert Somebody(g, now);
    AdvancedOnward(g, now);
    assert MovedOn(g.members[id], Advance(Some(g), now).state.value.members[id], now);
  }

  lemma ServedAlive(g: Group, a: Action, id: MemberId, until: nat, session: nat)
    requires g.members != map[] && g.leader in g.members && id in g.members && !a.EndCommit?
    requires a.JoinGroup? ==> a.newId !in g.members
    requires g.members[id].sessionTimeout == session && g.members[id].deadline >= until
    requires Leaves(a, id, until, session)
    ensures var t := ServedState(Some(g), a);
      && t.Some? && id in t.value.members
      && t.value.members[id].sessionTimeout == session && t.value.members[id].deadline >= until
  {
    hide ServedState, Lists;
    StillThere(g, a, id);
    AnyServed(g, a);
  }

  lemma StillThere(g: Group, a: Action, id: MemberId)
    requires g.leader in g.members && id in g.members && !(a.LeaveGroup? && a.id == id)
    requires a.JoinGroup? ==> a.newId !in g.members
    ensures ServedState(Some(g), a).Some?
  {
    hide Join, Sync, Leave, Submits, Matches, FormedBy, Restarted, Shrunk, AllKnow;
    match a
    case JoinGroup(_, _, _, _, _, _) => JoinServed(g, a);
    case PollSync(_, _, _, _, _) => SyncServed(g, a);
    case LeaveGroup(now, other) => LeaveMeaning(g, now, other);
    case _ =>
  }

  /**
   * A session that a heartbeat started anew at time t lasts: as long as no action reads the clock at
   * t plus the session timeout or later, the member stays in the group, unless it leaves, joins again,
   * or misses a joining phase.
   */
  lemma {:induction false} HeartbeatLasts(worlds: seq<World>, actions: seq<Action>, i: nat, n: nat, id: MemberId, session: nat)
    requires GroupRuns.Run(worlds, actions) && i < n <= |actions|
    requires actions[i].Beat? && actions[i].id == id && worlds[i + 1].passes != worlds[i].passes
    requires worlds[i + 1].state.Some? && id in worlds[i + 1].state.value.members
    requires worlds[i + 1].state.value.members[id].sessionTimeout == session
    requires forall k :: i < k < n ==>
      Leaves(actions[k], id, actions[i].now + session, session) && !MissedAt(worlds[k], actions[k], id)
    ensures AliveUntil(worlds[n], id, actions[i].now + session, session)
    decreases n
  {
    hide GroupRuns.Inv, Step, Enabled, Regular, Leaves;
    EveryWorld(worlds, actions, n - 1);
    if n == i + 1 {
      BeatTouches(worlds[i], actions[i]);
    } else {
      HeartbeatLasts(worlds, actions, i, n - 1, id, session);
      AlwaysRegular(worlds, actions, n - 1);
      StepAlive(worlds[n - 1], actions[n - 1], id, actions[i].now + session, session);
    }
  }

  lemma BeatTouches(w: World, a: Action)
    requires GroupRuns.Inv(w) && Enabled(w, a) && a.Beat? && (w.state.Some? ==> w.state.value.members != map[])
    requires Step(w, a).passes != w.passes
    ensures var t := Step(w, a).state;
      t.Some? && a.id in t.value.members && t.value.members[a.id].deadline == a.now + t.value.members[a.id].sessionTimeout
  {
    hide GroupRuns.Inv, Advance, Record, Heartbeat;
    forall v: World, state ensures Record(v, state).passes == v.passes && Record(v, state).state == state {
      RecordKeeps(v, state);
    }
    var advanced := Advance(w.state, a.now);
    if advanced.state.Some? {
      HeartbeatMeaning(advanced.state.value, a.now, a.generation, a.id);
    } else {
      NobodyBeats(a);
    }
  }

  lemma NobodyBeats(a: Action)
    requires a.Beat?
    ensures Heartbeat(None, a.now, a.generation, a.id) == Served(None, Failed(UnknownMemberId))
  {
  }

  /** And a session that has run out is over: no action at that time or later finds the member still there. */
  lemma ExpiredIsGone(worlds: seq<World>, actions: seq<Action>, i: nat, id: MemberId)
    requires GroupRuns.Run(worlds, actions) && i < |actions| && !actions[i].EndCommit?
    requires worlds[i].state.Some? && id in worlds[i].state.value.members
    requires worlds[i].state.value.members[id].deadline <= actions[i].now
    requires !(actions[i].JoinGroup? && actions[i].member == Some(id))
    ensures worlds[i + 1].state.Some? ==> id !in worlds[i + 1].state.value.members
  {
    hide GroupRuns.Inv, Step, Advance, ServedState, Regular, ServedTo;
    EveryWorld(worlds, actions, i);
    AlwaysRegular(worlds, actions, i);
    var w, a := worlds[i], actions[i];
    StepState(w, a);
    InOrderGroup(w);
    Found(w, a);
    var advanced := Advance(w.state, NowOf(a));
    if advanced.state.Some? {
      AdvancedOnward(w.state.value, NowOf(a));
    }
    ServedGone(advanced.state, a, id, w.issued);
  }

  lemma ServedGone(state: Option<Group>, a: Action, id: MemberId, issued: map<MemberId, nat>)
    requires state.Some? ==> state.value.members != map[] && state.value.leader in state.value.members
    requires state.Some? ==> id !in state.value.members && forall other :: other in state.value.members ==> other in issued
    requires a.JoinGroup? ==> a.newId !in issued && a.member != Some(id)
    requires id in issued
    ensures ServedState(state, a).Some? ==> id !in ServedState(state, a).value.members
  {
    hide ServedState, Lists;
    if state.None? {
      if a.JoinGroup? {
        OpenGone(a);
      } else {
        NobodyServed(a);
      }
    } else if ServedState(state, a).Some? {
      AnyServed(state.value, a);
      if a.JoinGroup? {
        JoinAdds(state.value, a);
      }
    }
  }

  lemma OpenGone(a: Action)
    requires a.JoinGroup?
    ensures ServedState(None, a).Some? ==> ServedState(None, a).value.members.Keys == {a.newId}
  {
    OpenMeaning(a.now, a.member, a.protocols, a.session, a.rebalance, a.newId);
  }

  lemma JoinAdds(g: Group, a: Action)
    requires a.JoinGroup? && g.leader in g.members
    ensures ServedState(Some(g), a).Some?
    ensures ServedState(Some(g), a).value.members.Keys
      <= g.members.Keys + {if a.member.Some? then a.member.value else a.newId}
  {
    hide Join, Matches, IsMaxTimeout;
    JoinMeaning(g, a.now, a.member, a.protocols, a.session, a.rebalance, a.newId);
  }
}
