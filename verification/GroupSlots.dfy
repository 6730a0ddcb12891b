/** The coordinator's critical sections as they update one group in place. */
module GroupSlots {
  import opened LogTypes
  import FiniteSets
  import opened Groups
  import opened GroupLaws
  import opened GroupRequests

  /** The least key, found by iterating in key order. */
  method First(ids: set<MemberId>) returns (id: MemberId)
    requires |ids| > 0
    ensures id == Least(ids)
  {
    LeastExists(ids);
    id :| id in ids && forall other :: other in ids ==> id <= other;
  }

  class GroupState {
    var generation: int
    var rebalance: nat
    var phase: Phase
    var phaseDeadline: nat
    var protocolName: Option<string>
    var leader: MemberId
    var members: map<MemberId, Member>

    function Value(): Group
      reads this
    {
      Group(generation, rebalance, phase, phaseDeadline, protocolName, leader, members)
    }

    constructor (now: nat, id: MemberId, protocols: seq<Protocol>, session: nat, rebalanceTimeout: nat)
      ensures Value() == Group(0, 1, Joining, now + rebalanceTimeout, None, id,
                               map[id := NewMember(protocols, session, rebalanceTimeout, now, 1)])
    {
      generation, rebalance, phase := 0, 1, Joining;
      phaseDeadline, protocolName, leader := now + rebalanceTimeout, None, id;
      members := map[id := NewMember(protocols, session, rebalanceTimeout, now, 1)];
    }

    /** The latest rebalance timeout of any member. */
    method Longest() returns (t: nat)
      ensures t == MaxTimeout(members)
    {
      t := 0;
      var ids := members.Keys;
      assert Kept(members, ids - ids) == map[];
      while ids != {}
        invariant ids <= members.Keys
        invariant IsMaxTimeout(Kept(members, members.Keys - ids), t)
        decreases |ids|
      {
        ghost var some := FiniteSets.Pick(ids);
        var id :| id in ids;
        MoreTimeout(members, ids, id, t);
        if t < members[id].rebalanceTimeout {
          t := members[id].rebalanceTimeout;
        }
        ids := ids - {id};
      }
      assert Kept(members, members.Keys - {}) == members;
      MaxTimeoutUnique(members, t);
    }

    /** src/coordinator.rs:682-686 */
    method EnsureLeader()
      requires members != map[]
      modifies this`leader
      ensures Value() == Groups.EnsureLeader(old(Value()))
    {
      if leader !in members {
        NonemptyKeys(members);
        leader := First(members.Keys);
      }
    }

    /** src/coordinator.rs:688-706 */
    method StartRebalance(now: nat) returns (error: Option<GroupError>)
      modifies this
      ensures Moved(Value(), error) == Groups.StartRebalance(old(Value()), now)
    {
      if rebalance + 1 > U64_MAX {
        return Some(UnknownServerError);
      }
      rebalance := rebalance + 1;
      phase, protocolName := Joining, None;
      var longest := Longest();
      phaseDeadline := now + longest;
      ClearMembers();
      return None;
    }

    method ClearMembers()
      modifies this`members
      ensures members == ClearedBut(old(members), {})
    {
      hide ClearedBut;
      var ids := members.Keys;
      ghost var before := members;
      NothingCleared(before);
      while ids != {}
        invariant ids <= before.Keys
        invariant members == ClearedBut(before, ids)
        decreases |ids|
      {
        ghost var some := FiniteSets.Pick(ids);
        var id :| id in ids;
        OneCleared(before, ids, id);
        members := members[id := members[id].(assignment := None, joinResult := None)];
        ids := ids - {id};
      }
    }

    /** The members in order, with their metadata for the selected protocol. */
    method LeaderMembers(name: string) returns (roster: seq<JoinMember>)
      ensures roster == Roster(members, name)
    {
      hide RosterFrom, Roster;
      roster := [];
      var ids := members.Keys;
      RosterStart(members, name);
      while |ids| > 0
        invariant ids <= members.Keys
        invariant roster + RosterFrom(members, ids, name) == Roster(members, name)
        decreases |ids|
      {
        var id := First(ids);
        RosterNext(members, ids, name);
        roster := roster + [JoinMember(id, MetadataOf(members[id].protocols, name))];
        ids := ids - {id};
      }
      RosterEnd(members, ids, name);
    }

    /** src/coordinator.rs:708-755 */
    method FinalizeRebalance(now: nat) returns (error: Option<GroupError>)
      requires members != map[]
      modifies this
      ensures Moved(Value(), error) == Finalize(old(Value()), now)
    {
      hide SelectProtocol, MaxTimeout, Roster, Form, Informed, Groups.EnsureLeader;
      EnsureLeader();
      ghost var led := Value();
      var selected := SelectProtocol(Value());
      if selected.None? {
        return Some(InconsistentGroupProtocol);
      }
      if generation + 1 > I32_MAX {
        return Some(UnknownServerError);
      }
      generation := generation + 1;
      phase, protocolName := AwaitingSync, selected;
      var longest := Longest();
      phaseDeadline := now + longest;
      var roster := LeaderMembers(selected.value);
      SetResults(now, selected.value, roster);
      SameForm(led, selected.value, now, roster);
      FormIs(led, selected.value, now, Value());
      return None;
    }

    /** Every member gets a new deadline and its view of the formation. */
    method SetResults(now: nat, name: string, roster: seq<JoinMember>)
      modifies this`members
      ensures members == Informed(old(members), {}, generation, name, leader, roster, now)
    {
      hide Informed;
      var ids := members.Keys;
      ghost var before := members;
      NobodyInformed(before, generation, name, leader, roster, now);
      while ids != {}
        invariant ids <= before.Keys
        invariant members == Informed(before, ids, generation, name, leader, roster, now)
        decreases |ids|
      {
        ghost var some := FiniteSets.Pick(ids);
        var id :| id in ids;
        OneInformed(before, ids, id, generation, name, leader, roster, now);
        var outcome := JoinOutcome(generation, name, leader, id, if id == leader then roster else []);
        members := members[id := members[id].(assignment := None, deadline := now + members[id].sessionTimeout,
                                              joinResult := Some(outcome))];
        ids := ids - {id};
      }
    }
  }

  // -------------------------------------------------------------- loops over the members

  /** All members cleared except those still waiting. */
  function ClearedBut(members: map<MemberId, Member>, waiting: set<MemberId>): map<MemberId, Member> {
    map id | id in members :: if id in waiting then members[id] else Cleared(members[id])
  }

  lemma NothingCleared(members: map<MemberId, Member>)
    ensures ClearedBut(members, members.Keys) == members
  {
  }

  lemma OneCleared(members: map<MemberId, Member>, waiting: set<MemberId>, id: MemberId)
    requires id in waiting && id in members
    ensures id in ClearedBut(members, waiting) && ClearedBut(members, waiting)[id] == members[id]
    ensures ClearedBut(members, waiting)[id := members[id].(assignment := None, joinResult := None)]
      == ClearedBut(members, waiting - {id})
  {
  }

  function View(m: Member, id: MemberId, generation: int, name: string, leader: MemberId, roster: seq<JoinMember>, now: nat)
    : Member
  {
    m.(assignment := None, deadline := now + m.sessionTimeout,
       joinResult := Some(JoinOutcome(generation, name, leader, id, if id == leader then roster else [])))
  }

  /** All members informed of the formation except those still waiting. */
  function Informed(members: map<MemberId, Member>, waiting: set<MemberId>, generation: int, name: string, leader: MemberId,
                    roster: seq<JoinMember>, now: nat): map<MemberId, Member>
  {
    map id | id in members :: if id in waiting then members[id] else View(members[id], id, generation, name, leader, roster, now)
  }

  lemma NobodyInformed(members: map<MemberId, Member>, generation: int, name: string, leader: MemberId,
                       roster: seq<JoinMember>, now: nat)
    ensures Informed(members, members.Keys, generation, name, leader, roster, now) == members
  {
  }

  lemma OneInformed(members: map<MemberId, Member>, waiting: set<MemberId>, id: MemberId, generation: int, name: string,
                    leader: MemberId, roster: seq<JoinMember>, now: nat)
    requires id in waiting && id in members
    ensures var before := Informed(members, waiting, generation, name, leader, roster, now);
      && id in before && before[id] == members[id]
      && before[id := View(members[id], id, generation, name, leader, roster, now)]
         == Informed(members, waiting - {id}, generation, name, leader, roster, now)
  {
  }

  /** Informing everyone with the roster is forming the generation. */
  lemma SameForm(g: Group, name: string, now: nat, roster: seq<JoinMember>)
    requires roster == Roster(g.members, name)
    ensures Informed(g.members, {}, g.generation + 1, name, g.leader, roster, now) == Form(g, name, now).members
  {
    hide Roster, MaxTimeout;
  }

  lemma FormIs(g: Group, name: string, now: nat, h: Group)
    requires h == Group(g.generation + 1, g.rebalance, AwaitingSync, now + MaxTimeout(g.members), Some(name), g.leader,
                        Form(g, name, now).members)
    ensures h == Form(g, name, now)
  {
    hide MaxTimeout, Roster;
  }

  ghost function RosterFrom(members: map<MemberId, Member>, ids: set<MemberId>, name: string): seq<JoinMember>
    requires ids <= members.Keys
  {
    var all := Ordered(ids);
    seq(|all|, i requires 0 <= i < |all| => JoinMember(all[i], MetadataOf(members[all[i]].protocols, name)))
  }

  lemma RosterStart(members: map<MemberId, Member>, name: string)
    ensures [] + RosterFrom(members, members.Keys, name) == Roster(members, name)
  {
  }

  lemma RosterNext(members: map<MemberId, Member>, ids: set<MemberId>, name: string)
    requires ids <= members.Keys && |ids| > 0
    ensures var id := Least(ids);
      RosterFrom(members, ids, name)
        == [JoinMember(id, MetadataOf(members[id].protocols, name))] + RosterFrom(members, ids - {id}, name)
  {
    hide MetadataOf;
    var id := Least(ids);
    var all, rest := Ordered(ids), Ordered(ids - {id});
    assert all == [id] + rest;
    assert forall i :: 0 < i < |all| ==> all[i] == rest[i - 1];
  }

  lemma RosterEnd(members: map<MemberId, Member>, ids: set<MemberId>, name: string)
    requires ids <= members.Keys && |ids| == 0
    ensures RosterFrom(members, ids, name) == []
  {
  }

  /** All listed members have their assignment except those still waiting. */
  function InstalledBut(members: map<MemberId, Member>, installed: map<MemberId, string>, waiting: set<MemberId>, now: nat)
    : map<MemberId, Member>
  {
    map id | id in members ::
      if id in installed && id !in waiting then
        members[id].(assignment := Some(installed[id]), deadline := now + members[id].sessionTimeout)
      else members[id]
  }

  lemma NothingInstalled(members: map<MemberId, Member>, installed: map<MemberId, string>, now: nat)
    ensures InstalledBut(members, installed, installed.Keys, now) == members
  {
  }

  lemma OneInstalled(members: map<MemberId, Member>, installed: map<MemberId, string>, waiting: set<MemberId>, id: MemberId,
                     now: nat)
    requires id in waiting && id in members && id in installed
    ensures var before := InstalledBut(members, installed, waiting, now);
      && id in before && before[id] == members[id]
      && before[id := members[id].(assignment := Some(installed[id]), deadline := now + members[id].sessionTimeout)]
         == InstalledBut(members, installed, waiting - {id}, now)
  {
  }

  lemma AllInstalled(g: Group, installed: map<MemberId, string>, now: nat)
    ensures InstalledBut(g.members, installed, {}, now) == Install(g, installed, now).members
  {
  }

  lemma MoreTimeout(members: map<MemberId, Member>, ids: set<MemberId>, id: MemberId, t: nat)
    requires ids <= members.Keys && id in ids && IsMaxTimeout(Kept(members, members.Keys - ids), t)
    ensures IsMaxTimeout(Kept(members, members.Keys - (ids - {id})),
                         if t < members[id].rebalanceTimeout then members[id].rebalanceTimeout else t)
  {
    var before, after := Kept(members, members.Keys - ids), Kept(members, members.Keys - (ids - {id}));
    assert after == before[id := members[id]];
    assert id in after;
    if t >= members[id].rebalanceTimeout && before != map[] {
      var top :| top in before && before[top].rebalanceTimeout == t;
      assert top in after && after[top].rebalanceTimeout == t;
    }
  }

  /** One slot: the state behind the group's lock. */
  class Slot {
    var state: GroupState?

    constructor ()
      ensures state == null
    {
      state := null;
    }

    function Value(): Option<Group>
      reads this, state
    {
      if state == null then None else Some(state.Value())
    }

    predicate Valid()
      reads this, state
    {
      state != null ==> state.members != map[]
    }

    /** The first half of advancing: expired members leave. */
    method DropExpiredMembers(now: nat) returns (error: Option<GroupError>, changed: bool)
      requires Valid() && state != null
      modifies this, state
      ensures Advanced(Value(), error, changed) == DropExpired(old(state.Value()), now)
      ensures state == old(state) || state == null
    {
      var alive := Alive(state.Value(), now);
      if alive == state.members.Keys {
        return None, false;
      }
      state.members := Kept(state.members, alive);
      if state.members == map[] {
        state := null;
        return None, true;
      }
      state.EnsureLeader();
      if state.phase != Joining {
        error := state.StartRebalance(now);
        return error, true;
      }
      return None, true;
    }

    /** The second half: a due deadline, or a complete join. */
    method AdvancePhaseInPlace(now: nat, before: bool) returns (error: Option<GroupError>, changed: bool)
      requires Valid() && state != null
      modifies this, state
      ensures Advanced(Value(), error, changed) == AdvancePhase(old(state.Value()), now, before)
      ensures state == old(state) || state == null
    {
      changed := before;
      if state.phase == Joining {
        if now >= state.phaseDeadline {
          state.members := Kept(state.members, Rejoined(state.Value()));
          changed := true;
          if state.members == map[] {
            state := null;
            return None, true;
          }
          state.EnsureLeader();
        }
        if AllJoined(state.Value()) {
          error := state.FinalizeRebalance(now);
          return error, true;
        }
        return None, changed;
      }
      if state.phase == AwaitingSync && now >= state.phaseDeadline {
        error := state.StartRebalance(now);
        return error, true;
      }
      return None, changed;
    }

    /** src/coordinator.rs:622-680 */
    method AdvanceGroup(now: nat) returns (error: Option<GroupError>, changed: bool)
      requires Valid()
      modifies this, state
      ensures Advanced(Value(), error, changed) == Advance(old(Value()), now)
      ensures state == old(state) || state == null
    {
      if state == null {
        return None, false;
      }
      error, changed := DropExpiredMembers(now);
      if state == null || error.Some? {
        return;
      }
      error, changed := AdvancePhaseInPlace(now, changed);
    }

    /** The first critical section of a join, once the group is advanced (src/coordinator.rs:195-275). */
    method JoinSection(now: nat, member: Option<MemberId>, protocols: seq<Protocol>, session: nat, rebalanceTimeout: nat,
                       newId: MemberId) returns (r: Reply<(MemberId, nat)>)
      requires Valid()
      modifies this, state
      ensures Served(Value(), r) == Join(old(Value()), now, member, protocols, session, rebalanceTimeout, newId)
    {
      hide Compatible, Groups.StartRebalance, MaxTimeout;
      if state == null {
        if member.Some? {
          return Failed(UnknownMemberId);
        }
        state := new GroupState(now, newId, protocols, session, rebalanceTimeout);
        return Done((newId, 1));
      }
      if member.Some? && member.value !in state.members {
        return Failed(UnknownMemberId);
      }
      if !Compatible(state.Value(), member, protocols) {
        return Failed(InconsistentGroupProtocol);
      }
      if member.None? && |state.members| >= MAX_GROUP_MEMBERS {
        return Failed(GroupMaxSizeReached);
      }
      if state.phase != Joining {
        var error := state.StartRebalance(now);
        if error.Some? {
          return Failed(error.value);
        }
      }
      var id := if member.Some? then member.value else newId;
      state.members := state.members[id := NewMember(protocols, session, rebalanceTimeout, now, state.rebalance)];
      var longest := state.Longest();
      state.phaseDeadline := now + longest;
      r := Done((id, state.rebalance));
    }

    /** One pass of the sync loop after advancing (src/coordinator.rs:356-412). */
    method SyncPass(now: nat, generation: int, id: MemberId, assignments: seq<SyncAssignment>, submitted: bool)
      returns (r: Reply<Option<string>>)
      requires Valid()
      modifies this, state
      ensures Served(Value(), r) == Sync(old(Value()), now, generation, id, assignments, submitted)
    {
      var active := Active(Value(), generation, id);
      if active.Failed? {
        return Failed(active.error);
      }
      if state.phase == Joining {
        return Failed(RebalanceInProgress);
      }
      if !submitted {
        var isLeader := state.leader == id;
        if state.phase == AwaitingSync && isLeader {
          var installed := Exact(state.Value(), assignments);
          if installed.None? {
            return Failed(InvalidRequest);
          }
          InstallAll(now, installed.value);
        } else if state.phase == AwaitingSync {
          if assignments != [] {
            return Failed(InvalidRequest);
          }
        } else if assignments != [] {
          if !isLeader {
            return Failed(InvalidRequest);
          }
          var proposed := Exact(state.Value(), assignments);
          if proposed.None?
             || exists other :: other in proposed.value && state.members[other].assignment != Some(proposed.value[other])
          {
            return Failed(InvalidRequest);
          }
        }
        state.members := state.members[id := state.members[id].(deadline := now + state.members[id].sessionTimeout)];
      }
      if state.phase != Stable {
        return Done(None);
      }
      if state.members[id].assignment.None? {
        return Failed(RebalanceInProgress);
      }
      r := Done(state.members[id].assignment);
    }

    /** Every listed member gets its assignment and a new deadline; the group is stable. */
    method InstallAll(now: nat, installed: map<MemberId, string>)
      requires state != null && installed.Keys <= state.members.Keys
      modifies state
      ensures state.Value() == Install(old(state.Value()), installed, now)
    {
      hide InstalledBut;
      var ids := installed.Keys;
      ghost var before := state.members;
      NothingInstalled(before, installed, now);
      while ids != {}
        invariant ids <= installed.Keys
        invariant state.members == InstalledBut(before, installed, ids, now)
        invariant state.Value() == old(state.Value()).(members := state.members)
        decreases |ids|
      {
        ghost var some := FiniteSets.Pick(ids);
        var id :| id in ids;
        OneInstalled(before, installed, ids, id, now);
        state.members := state.members[id := state.members[id].(assignment := Some(installed[id]),
                                                                deadline := now + state.members[id].sessionTimeout)];
        ids := ids - {id};
      }
      state.phase := Stable;
      AllInstalled(old(state.Value()), installed, now);
    }

    /** src/coordinator.rs:435-449 */
    method HeartbeatSection(now: nat, generation: int, id: MemberId) returns (r: Reply<()>)
      requires Valid()
      modifies this, state
      ensures Served(Value(), r) == Heartbeat(old(Value()), now, generation, id)
    {
      var active := Active(Value(), generation, id);
      if active.Failed? {
        return Failed(active.error);
      }
      state.members := state.members[id := state.members[id].(deadline := now + state.members[id].sessionTimeout)];
      if state.phase != Stable || state.members[id].assignment.None? {
        return Failed(RebalanceInProgress);
      }
      r := Done(());
    }

    /** src/coordinator.rs:469-501 */
    method LeaveSection(now: nat, id: MemberId) returns (r: Reply<()>)
      requires Valid()
      modifies this, state
      ensures Served(Value(), r) == Leave(old(Value()), now, id)
    {
      if state == null || id !in state.members {
        return Failed(UnknownMemberId);
      }
      state.members := Kept(state.members, state.members.Keys - {id});
      if state.members == map[] {
        state := null;
        return Done(());
      }
      if state.leader == id {
        NonemptyKeys(state.members);
        state.leader := First(state.members.Keys);
      }
      var error: Option<GroupError> := None;
      if state.phase == Joining {
        if AllJoined(state.Value()) {
          error := state.FinalizeRebalance(now);
        }
      } else {
        error := state.StartRebalance(now);
      }
      r := if error.Some? then Failed(error.value) else Done(());
    }
  }
}
