/**
 * What the critical sections do, stated on the fields of a group: deadlines, timeouts, protocol lists
 * and assignments. Nothing here uses the functions that the sections are computed with.
 */
module GroupMeaning {
  import opened LogTypes
  import opened Groups
  import GroupLaws
  import opened GroupRequests

  // -------------------------------------------------------------- groups as requests leave them

  /** Timeouts are positive, and nobody has joined a rebalance that is still to come. */
  predicate Regular(g: Group) {
    forall id :: id in g.members ==>
      && g.members[id].sessionTimeout > 0 && g.members[id].rebalanceTimeout > 0
      && g.members[id].joinedRebalance <= g.rebalance
  }

  predicate LeastOf(id: MemberId, ids: set<MemberId>) {
    id in ids && forall other :: other in ids ==> id <= other
  }

  /** The leader stays while it is a member; then the first member in key order follows. */
  predicate LeaderAfter(leader: MemberId, h: Group) {
    if leader in h.members then h.leader == leader else LeastOf(h.leader, h.members.Keys)
  }

  predicate Knows(m: Member, name: string) {
    exists i :: 0 <= i < |m.protocols| && m.protocols[i].name == name
  }

  predicate AllKnow(members: map<MemberId, Member>, name: string) {
    forall id :: id in members ==> Knows(members[id], name)
  }

  /** The first of the choices that everybody knows. */
  predicate FirstKnown(choices: seq<Protocol>, members: map<MemberId, Member>, name: string) {
    exists i :: 0 <= i < |choices|
      && choices[i].name == name && AllKnow(members, name)
      && forall j :: 0 <= j < i ==> !AllKnow(members, choices[j].name)
  }

  /** The leader's first choice that everybody knows. */
  predicate Chosen(members: map<MemberId, Member>, leader: MemberId, name: string) {
    leader in members && FirstKnown(members[leader].protocols, members, name)
  }

  /** What a member sent with its first protocol of that name. */
  predicate Sent(protocols: seq<Protocol>, name: string, metadata: string) {
    exists i :: 0 <= i < |protocols|
      && protocols[i] == Protocol(name, metadata)
      && forall j :: 0 <= j < i ==> protocols[j].name != name
  }

  /** Every member once, in key order, with what it sent for the chosen protocol. */
  predicate RosterOf(roster: seq<JoinMember>, members: map<MemberId, Member>, name: string) {
    && |roster| == |members|
    && (forall i, j :: 0 <= i < j < |roster| ==> roster[i].id < roster[j].id)
    && (forall i :: 0 <= i < |roster| ==> roster[i].id in members && Sent(members[roster[i].id].protocols, name, roster[i].metadata))
  }

  // -------------------------------------------------------------- the two ways a rebalance moves on

  /** A new rebalance of the members left: everybody has the longest of their timeouts to join again. */
  predicate Restarted(g: Group, now: nat, h: Group) {
    && h.phase == Joining && h.generation == g.generation && h.rebalance == g.rebalance + 1 && h.protocolName.None?
    && now <= h.phaseDeadline && IsMaxTimeout(h.members, h.phaseDeadline - now)
    && forall id :: id in h.members ==>
         id in g.members && h.members[id] == g.members[id].(assignment := None, joinResult := None)
  }

  predicate Informed(m: Member, was: Member, h: Group, id: MemberId, now: nat) {
    && m == was.(assignment := None, deadline := now + was.sessionTimeout, joinResult := m.joinResult)
    && m.joinResult.Some? && h.protocolName.Some?
    && var r := m.joinResult.value;
    && r.generation == h.generation && r.protocolName == h.protocolName.value && r.leader == h.leader && r.member == id
    && if id == h.leader then RosterOf(r.members, h.members, h.protocolName.value) else r.members == []
  }

  /** The next generation, formed by exactly those who joined this rebalance. */
  predicate FormedBy(g: Group, now: nat, h: Group) {
    && h.phase == AwaitingSync && h.generation == g.generation + 1 && h.rebalance == g.rebalance
    && h.protocolName.Some? && Chosen(h.members, h.leader, h.protocolName.value)
    && now <= h.phaseDeadline && IsMaxTimeout(h.members, h.phaseDeadline - now)
    && forall id :: id in h.members ==>
         && id in g.members && g.members[id].joinedRebalance == g.rebalance
         && Informed(h.members[id], g.members[id], h, id, now)
  }

  /** Only members went: those left are as they were. */
  predicate Shrunk(g: Group, h: Group) {
    && h == g.(members := h.members, leader := h.leader)
    && forall id :: id in h.members ==> id in g.members && h.members[id] == g.members[id]
  }

  // -------------------------------------------------------------- helper facts

  lemma LeaderLaw(g: Group, ids: set<MemberId>)
    requires Kept(g.members, ids) != map[]
    ensures LeaderAfter(g.leader, EnsureLeader(g.(members := Kept(g.members, ids))))
    ensures EnsureLeader(g.(members := Kept(g.members, ids)))
      == g.(members := Kept(g.members, ids), leader := EnsureLeader(g.(members := Kept(g.members, ids))).leader)
  {
    GroupLaws.NonemptyKeys(Kept(g.members, ids));
  }

  lemma AllKnowIs(members: map<MemberId, Member>, name: string)
    ensures AllKnow(members, name) <==> OfferedByAll(members, name)
  {
    forall id | id in members ensures Knows(members[id], name) <==> Offers(members[id].protocols, name) {
    }
  }

  lemma {:induction false} FirstChoice(choices: seq<Protocol>, members: map<MemberId, Member>)
    ensures FirstCommon(choices, members).Some? ==> FirstKnown(choices, members, FirstCommon(choices, members).value)
    decreases |choices|
  {
    hide OfferedByAll, AllKnow;
    if choices != [] {
      AllKnowIs(members, choices[0].name);
      if OfferedByAll(members, choices[0].name) {
        assert choices[0].name == choices[0].name;
      } else {
        var rest := choices[1..];
        FirstChoice(rest, members);
        if FirstCommon(rest, members).Some? {
          var r := FirstCommon(rest, members).value;
          var i :| 0 <= i < |rest| && rest[i].name == r && AllKnow(members, r)
            && forall j :: 0 <= j < i ==> !AllKnow(members, rest[j].name);
          assert choices[i + 1].name == r;
          assert forall j :: 0 < j < i + 1 ==> choices[j] == rest[j - 1];
        }
      }
    }
  }

  lemma {:induction false} MetadataSent(protocols: seq<Protocol>, name: string)
    requires exists i :: 0 <= i < |protocols| && protocols[i].name == name
    ensures Sent(protocols, name, MetadataOf(protocols, name))
    decreases |protocols|
  {
    if protocols[0].name == name {
      assert protocols[0] == Protocol(name, MetadataOf(protocols, name));
    } else {
      var rest := protocols[1..];
      var k :| 0 <= k < |protocols| && protocols[k].name == name;
      assert rest[k - 1].name == name;
      MetadataSent(rest, name);
      var i :| 0 <= i < |rest| && rest[i] == Protocol(name, MetadataOf(rest, name))
        && forall j :: 0 <= j < i ==> rest[j].name != name;
      assert protocols[i + 1] == Protocol(name, MetadataOf(protocols, name));
      assert forall j :: 0 < j < i + 1 ==> protocols[j] == rest[j - 1];
    }
  }

  lemma {:induction false} OrderedRises(ids: set<MemberId>)
    ensures forall i, j :: 0 <= i < j < |Ordered(ids)| ==> Ordered(ids)[i] < Ordered(ids)[j]
    decreases |ids|
  {
    if |ids| > 0 {
      var least := Least(ids);
      var rest := Ordered(ids - {least});
      OrderedRises(ids - {least});
      assert Ordered(ids) == [least] + rest;
      forall j | 0 <= j < |rest| ensures least < rest[j] {
        assert rest[j] in rest;
        assert rest[j] in ids - {least};
      }
    }
  }

  /** The roster the leader gets is the declared one. */
  lemma RosterMeaning(members: map<MemberId, Member>, name: string)
    requires AllKnow(members, name)
    ensures RosterOf(Roster(members, name), members, name)
  {
    hide Sent, Knows;
    var ids, roster := Ordered(members.Keys), Roster(members, name);
    OrderedRises(members.Keys);
    assert |members| == |members.Keys|;
    forall i | 0 <= i < |roster|
      ensures roster[i].id in members && Sent(members[roster[i].id].protocols, name, roster[i].metadata)
    {
      assert ids[i] in ids;
      EntrySent(members, name, ids[i]);
    }
  }

  lemma EntrySent(members: map<MemberId, Member>, name: string, id: MemberId)
    requires AllKnow(members, name) && id in members
    ensures Sent(members[id].protocols, name, MetadataOf(members[id].protocols, name))
  {
    hide Sent;
    assert Knows(members[id], name);
    MetadataSent(members[id].protocols, name);
  }

  lemma RestartMeaning(g: Group, now: nat)
    ensures var m := StartRebalance(g, now);
      && (m.error.Some? <==> g.rebalance >= U64_MAX)
      && (m.error.Some? ==> m == Moved(g, Some(UnknownServerError)))
      && (m.error.None? ==> Restarted(g, now, m.group) && m.group.leader == g.leader && m.group.members.Keys == g.members.Keys)
  {
    hide MaxTimeout;
    var h := StartRebalance(g, now).group;
    if g.rebalance < U64_MAX {
      SameTimeouts(g.members, h.members, MaxTimeout(g.members));
    }
  }

  lemma SameTimeouts(a: map<MemberId, Member>, b: map<MemberId, Member>, t: nat)
    requires IsMaxTimeout(a, t) && a.Keys == b.Keys
    requires forall id :: id in a ==> b[id].rebalanceTimeout == a[id].rebalanceTimeout
    ensures IsMaxTimeout(b, t)
  {
    assert a == map[] <==> a.Keys == {};
    assert b == map[] <==> b.Keys == {};
    if a != map[] {
      var id :| id in a && a[id].rebalanceTimeout == t;
      assert b[id].rebalanceTimeout == t;
    }
  }

  /** When everybody has joined: the next generation, or a full counter, or no common protocol. */
  lemma FormMeaning(g: Group, now: nat)
    requires g.leader in g.members && forall id :: id in g.members ==> g.members[id].joinedRebalance == g.rebalance
    ensures g.members != map[]
    ensures var m := Finalize(g, now);
      && (m.error.None? ==> FormedBy(g, now, m.group) && m.group.leader == g.leader && m.group.members.Keys == g.members.Keys)
      && (m.error.Some? ==> m.group == g)
      && (m.error == Some(InconsistentGroupProtocol) <==> forall name :: !AllKnow(g.members, name))
      && (m.error.Some? ==> m.error.value in {InconsistentGroupProtocol, UnknownServerError})
      && (m.error == Some(UnknownServerError) ==> g.generation >= I32_MAX)
      && (g.generation >= I32_MAX ==> m.error.Some?)
  {
    hide MaxTimeout, Roster, FirstCommon, AllKnow, OfferedByAll;
    var choices := g.members[g.leader].protocols;
    FirstChoice(choices, g.members);
    NoneCommon(g);
    if SelectProtocol(g).Some? && g.generation < I32_MAX {
      FormedMeaning(g, SelectProtocol(g).value, now);
    }
  }

  lemma NoneCommon(g: Group)
    requires g.leader in g.members
    ensures FirstCommon(g.members[g.leader].protocols, g.members).None? <==> forall name :: !AllKnow(g.members, name)
  {
    var choices := g.members[g.leader].protocols;
    forall name ensures AllKnow(g.members, name) <==> OfferedByAll(g.members, name) {
      AllKnowIs(g.members, name);
    }
    if name :| AllKnow(g.members, name) {
      assert Knows(g.members[g.leader], name);
      var i :| 0 <= i < |choices| && choices[i].name == name;
      assert OfferedByAll(g.members, choices[i].name);
    }
  }

  lemma FormedMeaning(g: Group, name: string, now: nat)
    requires g.leader in g.members && forall id :: id in g.members ==> g.members[id].joinedRebalance == g.rebalance
    requires Chosen(g.members, g.leader, name)
    ensures var h := Form(g, name, now);
      FormedBy(g, now, h) && h.leader == g.leader && h.members.Keys == g.members.Keys
  {
    hide MaxTimeout, Roster, RosterOf, Chosen;
    var h := Form(g, name, now);
    SameTimeouts(g.members, h.members, MaxTimeout(g.members));
    SameChoice(g.members, h.members, g.leader, name);
    GroupLaws.SameRoster(g.members, h.members, name);
    assert AllKnow(h.members, name) by {
      ChosenKnown(h.members, g.leader, name);
    }
    RosterMeaning(h.members, name);
    forall id | id in h.members ensures Informed(h.members[id], g.members[id], h, id, now) {
    }
  }

  lemma ChosenKnown(members: map<MemberId, Member>, leader: MemberId, name: string)
    requires Chosen(members, leader, name)
    ensures AllKnow(members, name)
  {
  }

  lemma SameChoice(a: map<MemberId, Member>, b: map<MemberId, Member>, leader: MemberId, name: string)
    requires Chosen(a, leader, name) && a.Keys == b.Keys
    requires forall id :: id in a ==> b[id].protocols == a[id].protocols
    ensures Chosen(b, leader, name)
  {
    forall n ensures AllKnow(b, n) <==> AllKnow(a, n) {
      SameKnow(a, b, n);
    }
    var i :| 0 <= i < |a[leader].protocols|
      && a[leader].protocols[i].name == name && AllKnow(a, name)
      && forall j :: 0 <= j < i ==> !AllKnow(a, a[leader].protocols[j].name);
    assert b[leader].protocols[i].name == name;
  }

  lemma SameKnow(a: map<MemberId, Member>, b: map<MemberId, Member>, name: string)
    requires a.Keys == b.Keys && forall id :: id in a ==> b[id].protocols == a[id].protocols
    ensures AllKnow(b, name) <==> AllKnow(a, name)
  {
    forall id | id in a ensures Knows(b[id], name) <==> Knows(a[id], name) {
    }
  }

  // -------------------------------------------------------------- advancing

  /** A member whose session has not run out, and that has not missed a joining phase that is due. */
  predicate StaysOn(g: Group, now: nat, id: MemberId) {
    && id in g.members && g.members[id].deadline > now
    && !(g.phase == Joining && now >= g.phaseDeadline && g.members[id].joinedRebalance != g.rebalance)
  }

  predicate Somebody(g: Group, now: nat) {
    exists id :: id in g.members && StaysOn(g, now, id)
  }

  predicate Everybody(g: Group, now: nat) {
    forall id :: id in g.members ==> StaysOn(g, now, id)
  }

  /** What advancing does to a group, by its deadlines alone. */
  ghost predicate AdvancedTo(g: Group, now: nat, a: Advanced)
    requires a.state.Some?
  {
    var h := a.state.value;
    && (forall id :: id in h.members <==> StaysOn(g, now, id))
    && LeaderAfter(g.leader, h)
    && if g.phase == Joining then
         if forall id :: id in h.members ==> g.members[id].joinedRebalance == g.rebalance then
           && a.changed
           && (a.error.None? ==> FormedBy(g, now, h))
           && (a.error.Some? ==>
                 Shrunk(g, h) && ((a.error.value == UnknownServerError && g.generation >= I32_MAX)
                                  || (a.error.value == InconsistentGroupProtocol && forall name :: !AllKnow(h.members, name))))
         else Shrunk(g, h) && a.error.None? && a.changed == !Everybody(g, now)
       else if Everybody(g, now) && (g.phase == Stable || now < g.phaseDeadline) then
         h == g && a.error.None? && !a.changed
       else if g.rebalance >= U64_MAX then Shrunk(g, h) && a.error == Some(UnknownServerError) && a.changed
       else Restarted(g, now, h) && a.error.None? && a.changed
  }

  /** A restarted rebalance is neither due nor complete. */
  lemma JustRestarted(g: Group, now: nat, h: Group, changed: bool)
    requires Regular(g) && Restarted(g, now, h) && h.members != map[]
    ensures AdvancePhase(h, now, changed) == Advanced(Some(h), None, changed)
  {
    GroupLaws.NonemptyKeys(h.members);
    var id :| id in h.members.Keys;
    assert g.members[id].joinedRebalance <= g.rebalance;
    assert h.members[id].joinedRebalance != h.rebalance;
    assert h.members[id].rebalanceTimeout > 0;
  }

  lemma RestartedFrom(g: Group, led: Group, now: nat, h: Group)
    requires Shrunk(g, led) && Restarted(led, now, h)
    ensures Restarted(g, now, h)
  {
  }

  lemma FormedFrom(g: Group, led: Group, now: nat, h: Group)
    requires Shrunk(g, led) && FormedBy(led, now, h)
    ensures FormedBy(g, now, h)
  {
    hide Chosen, RosterOf, IsMaxTimeout;
    forall id | id in h.members ensures Informed(h.members[id], g.members[id], h, id, now) {
      assert Informed(h.members[id], led.members[id], h, id, now);
    }
  }

  /** Past joining: nothing happens, or a new rebalance starts without the members whose session ran out. */
  lemma SettledMeaning(g: Group, now: nat)
    requires g.members != map[] && g.leader in g.members && Regular(g) && g.phase != Joining
    ensures var a := Advance(Some(g), now);
      if a.state.Some? then AdvancedTo(g, now, a) else a.error.None? && a.changed && !Somebody(g, now)
  {
    hide MaxTimeout, StartRebalance, IsMaxTimeout;
    var ids := Alive(g, now);
    if ids == g.members.Keys {
      assert Everybody(g, now);
      RestartMeaning(g, now);
    } else {
      var gone :| gone in g.members && gone !in ids;
      assert !StaysOn(g, now, gone);
      var left := g.(members := Kept(g.members, ids));
      if left.members != map[] {
        LeaderLaw(g, ids);
        var led := EnsureLeader(left);
        RestartMeaning(led, now);
        var m := StartRebalance(led, now);
        if m.error.None? {
          RestartedFrom(g, led, now, m.group);
          JustRestarted(g, now, m.group, true);
        }
      } else {
        NobodyLeft(g, ids, now);
      }
    }
  }

  lemma NobodyLeft(g: Group, ids: set<MemberId>, now: nat)
    requires Kept(g.members, ids) == map[]
    requires forall id :: StaysOn(g, now, id) ==> id in ids
    ensures !Somebody(g, now)
  {
    assert Kept(g.members, ids).Keys == {};
    forall id | id in g.members ensures !StaysOn(g, now, id) {
      assert id in ids ==> id in Kept(g.members, ids).Keys;
    }
  }

  ghost function Led(g: Group, ids: set<MemberId>): Group
    requires Kept(g.members, ids) != map[]
  {
    EnsureLeader(g.(members := Kept(g.members, ids)))
  }

  /** Dropping members in two steps leaves the group of dropping them at once. */
  lemma LedTwice(g: Group, first: set<MemberId>, ids: set<MemberId>)
    requires Kept(g.members, ids) != map[] && ids <= first
    ensures Kept(g.members, first) != map[] && Kept(Led(g, first).members, ids) == Kept(g.members, ids)
    ensures EnsureLeader(Led(g, first).(members := Kept(g.members, ids))) == Led(g, ids)
  {
    GroupLaws.NonemptyKeys(Kept(g.members, ids));
    var id :| id in Kept(g.members, ids).Keys;
    assert id in Kept(g.members, first);
    LeaderLaw(g, first);
    LeaderLaw(g, ids);
    LeaderLaw(Led(g, first), ids);
    assert Kept(Led(g, first).members, ids) == Kept(g.members, ids);
  }

  lemma LedSame(g: Group)
    requires g.members != map[] && g.leader in g.members
    ensures Kept(g.members, g.members.Keys) == g.members && Led(g, g.members.Keys) == g
  {
    assert Kept(g.members, g.members.Keys) == g.members;
  }

  /** How a joining group advances, in one step. */
  lemma JoiningShape(g: Group, now: nat, ids: set<MemberId>)
    requires g.members != map[] && g.leader in g.members && g.phase == Joining
    requires forall id :: id in ids <==> StaysOn(g, now, id)
    ensures Kept(g.members, ids) == map[] ==> Advance(Some(g), now) == Advanced(None, None, true)
    ensures Kept(g.members, ids) != map[] ==>
      && Led(g, ids).members != map[]
      && Advance(Some(g), now)
         == if AllJoined(Led(g, ids))
            then Advanced(Some(Finalize(Led(g, ids), now).group), Finalize(Led(g, ids), now).error, true)
            else Advanced(Some(Led(g, ids)), None, ids != g.members.Keys)
  {
    hide Finalize, EnsureLeader;
    var first := Alive(g, now);
    assert ids <= first;
    LedSame(g);
    if first == g.members.Keys {
      LateMembers(g, now, g, ids, false);
    } else if Kept(g.members, first) == map[] {
      assert Kept(g.members, first).Keys == {};
      assert Kept(g.members, ids).Keys <= Kept(g.members, first).Keys;
    } else {
      LeaderLaw(g, first);
      var gone :| gone in g.members && gone !in first;
      LateMembers(g, now, Led(g, first), ids, true);
    }
  }

  /** The second half of advancing a joining group, after expired members are gone. */
  lemma LateMembers(g: Group, now: nat, mid: Group, ids: set<MemberId>, changed: bool)
    requires g.members != map[] && g.leader in g.members && g.phase == Joining
    requires forall id :: id in ids <==> StaysOn(g, now, id)
    requires Kept(g.members, Alive(g, now)) != map[] && mid == Led(g, Alive(g, now)) && mid.members != map[]
    requires mid == g.(members := Kept(g.members, Alive(g, now)), leader := mid.leader)
    requires changed == (Alive(g, now) != g.members.Keys)
    ensures Kept(g.members, ids) == map[] ==> AdvancePhase(mid, now, changed) == Advanced(None, None, true)
    ensures Kept(g.members, ids) != map[] ==>
      && Led(g, ids).members != map[]
      && AdvancePhase(mid, now, changed)
         == if AllJoined(Led(g, ids))
            then Advanced(Some(Finalize(Led(g, ids), now).group), Finalize(Led(g, ids), now).error, true)
            else Advanced(Some(Led(g, ids)), None, ids != g.members.Keys)
  {
    hide Finalize, EnsureLeader;
    var first := Alive(g, now);
    if now >= g.phaseDeadline {
      assert Kept(mid.members, Rejoined(mid)) == Kept(g.members, ids);
      if Kept(g.members, ids) != map[] {
        LedTwice(g, first, ids);
        LeaderLaw(g, ids);
        assert AllJoined(Led(g, ids));
      }
    } else {
      assert ids == first;
      LeaderLaw(g, ids);
    }
  }

  /** While joining: members go whose session or joining time ran out; once all left have joined, they form. */
  lemma JoiningMeaning(g: Group, now: nat)
    requires g.members != map[] && g.leader in g.members && g.phase == Joining
    ensures var a := Advance(Some(g), now);
      if a.state.Some? then AdvancedTo(g, now, a) else a.error.None? && a.changed && !Somebody(g, now)
  {
    hide Finalize, EnsureLeader, FormedBy, AllKnow, Advance;
    var ids := set id | id in g.members && StaysOn(g, now, id);
    JoiningShape(g, now, ids);
    if Kept(g.members, ids) == map[] {
      NobodyLeft(g, ids, now);
    } else {
      var led := Led(g, ids);
      LeaderLaw(g, ids);
      assert Everybody(g, now) <==> ids == g.members.Keys;
      if AllJoined(led) {
        LedLeader(g, ids);
        FormMeaning(led, now);
        if Finalize(led, now).error.None? {
          JoinedMeaning(g, now, led);
        }
      }
    }
  }

  lemma LedLeader(g: Group, ids: set<MemberId>)
    requires Kept(g.members, ids) != map[]
    ensures Led(g, ids).leader in Led(g, ids).members
  {
    GroupLaws.NonemptyKeys(Kept(g.members, ids));
  }

  lemma JoinedMeaning(g: Group, now: nat, led: Group)
    requires Shrunk(g, led) && led.members != map[] && FormedBy(led, now, Finalize(led, now).group)
    ensures FormedBy(g, now, Finalize(led, now).group)
  {
    hide Finalize, FormedBy;
    FormedFrom(g, led, now, Finalize(led, now).group);
  }

  /** Advancing, by deadlines: who stays, when the group empties, restarts or forms, and when nothing happens. */
  lemma AdvanceMeaning(g: Group, now: nat)
    requires g.members != map[] && g.leader in g.members && Regular(g)
    ensures var a := Advance(Some(g), now);
      if a.state.Some? then AdvancedTo(g, now, a) else a.error.None? && a.changed && !Somebody(g, now)
  {
    hide Advance, AdvancedTo;
    if g.phase == Joining {
      JoiningMeaning(g, now);
    } else {
      SettledMeaning(g, now);
    }
  }

  // -------------------------------------------------------------- joining

  predicate Names(protocols: seq<Protocol>, name: string) {
    exists i :: 0 <= i < |protocols| && protocols[i].name == name
  }

  /** The candidate offers the protocol, and every other member knows it. */
  ghost predicate MatchOn(g: Group, candidate: Option<MemberId>, protocols: seq<Protocol>, name: string) {
    Names(protocols, name) && forall id :: id in g.members && Some(id) != candidate ==> Knows(g.members[id], name)
  }

  ghost predicate Matches(g: Group, candidate: Option<MemberId>, protocols: seq<Protocol>) {
    exists name :: MatchOn(g, candidate, protocols, name)
  }

  lemma NamesIs(protocols: seq<Protocol>, name: string)
    ensures Names(protocols, name) <==> Offers(protocols, name)
  {
  }

  lemma MatchOnIs(g: Group, candidate: Option<MemberId>, protocols: seq<Protocol>, name: string)
    ensures MatchOn(g, candidate, protocols, name) ==> Offers(protocols, name)
    ensures Offers(protocols, name) ==>
      (MatchOn(g, candidate, protocols, name) <==>
         forall id :: id in g.members ==> Offers(if candidate == Some(id) then protocols else g.members[id].protocols, name))
  {
    hide Offers, Names;
    NamesIs(protocols, name);
    forall id | id in g.members ensures Knows(g.members[id], name) <==> Offers(g.members[id].protocols, name) {
      KnowsIs(g.members[id], name);
    }
  }

  lemma KnowsIs(m: Member, name: string)
    ensures Knows(m, name) <==> Offers(m.protocols, name)
  {
  }

  lemma MatchesIs(g: Group, candidate: Option<MemberId>, protocols: seq<Protocol>)
    requires g.leader in g.members
    ensures Compatible(g, candidate, protocols) <==> Matches(g, candidate, protocols)
  {
    hide Offers, Knows, MatchOn;
    var choices := if candidate == Some(g.leader) then protocols else g.members[g.leader].protocols;
    if Compatible(g, candidate, protocols) {
      var i :| 0 <= i < |choices| && Offers(protocols, choices[i].name)
        && forall id :: id in g.members ==>
             Offers(if candidate == Some(id) then protocols else g.members[id].protocols, choices[i].name);
      MatchOnIs(g, candidate, protocols, choices[i].name);
    }
    if Matches(g, candidate, protocols) {
      var name :| MatchOn(g, candidate, protocols, name);
      MatchOnIs(g, candidate, protocols, name);
      assert candidate != Some(g.leader) ==>
        Offers(if candidate == Some(g.leader) then protocols else g.members[g.leader].protocols, name);
      var i := Offered(choices, name);
      CompatibleFrom(g, candidate, protocols, choices, i);
    }
  }

  lemma CompatibleFrom(g: Group, candidate: Option<MemberId>, protocols: seq<Protocol>, choices: seq<Protocol>, i: nat)
    requires g.leader in g.members && i < |choices|
    requires choices == if candidate == Some(g.leader) then protocols else g.members[g.leader].protocols
    requires Offers(protocols, choices[i].name)
    requires forall id :: id in g.members ==>
      Offers(if candidate == Some(id) then protocols else g.members[id].protocols, choices[i].name)
    ensures Compatible(g, candidate, protocols)
  {
    if candidate == Some(g.leader) {
      assert Offers(protocols, protocols[i].name);
    } else {
      assert Offers(protocols, g.members[g.leader].protocols[i].name);
    }
  }

  lemma Offered(protocols: seq<Protocol>, name: string) returns (i: nat)
    requires Offers(protocols, name)
    ensures i < |protocols| && protocols[i].name == name
  {
    i :| 0 <= i < |protocols| && protocols[i].name == name;
  }

  /** The group with a member that has just joined; unless it was joining already, everybody has to join again. */
  predicate Entered(g: Group, now: nat, id: MemberId, protocols: seq<Protocol>, session: nat, rebalance: nat, h: Group) {
    && h.phase == Joining && h.generation == g.generation && h.leader == g.leader
    && h.rebalance == (if g.phase == Joining then g.rebalance else g.rebalance + 1)
    && h.protocolName == (if g.phase == Joining then g.protocolName else None)
    && h.members.Keys == g.members.Keys + {id}
    && h.members[id] == Member(protocols, None, session, rebalance, now + session, h.rebalance, None)
    && (forall other :: other in g.members && other != id ==>
          h.members[other] == if g.phase == Joining then g.members[other]
                              else g.members[other].(assignment := None, joinResult := None))
    && now <= h.phaseDeadline && IsMaxTimeout(h.members, h.phaseDeadline - now)
  }

  /** When a join is refused, and what one that is not does. */
  lemma JoinMeaning(g: Group, now: nat, member: Option<MemberId>, protocols: seq<Protocol>, session: nat, rebalance: nat,
                    newId: MemberId)
    requires g.leader in g.members
    ensures var s := Join(Some(g), now, member, protocols, session, rebalance, newId);
      if member.Some? && member.value !in g.members then s == Served(Some(g), Failed(UnknownMemberId))
      else if !Matches(g, member, protocols) then s == Served(Some(g), Failed(InconsistentGroupProtocol))
      else if member.None? && |g.members| >= MAX_GROUP_MEMBERS then s == Served(Some(g), Failed(GroupMaxSizeReached))
      else if g.phase != Joining && g.rebalance >= U64_MAX then s == Served(Some(g), Failed(UnknownServerError))
      else
        var id := if member.Some? then member.value else newId;
        && s.state.Some? && Entered(g, now, id, protocols, session, rebalance, s.state.value)
        && s.reply == Done((id, s.state.value.rebalance))
  {
    hide Compatible, Matches, MaxTimeout, Offers;
    MatchesIs(g, member, protocols);
  }

  /** Nobody can rejoin an empty group; the first member opens one, as its leader. */
  lemma OpenMeaning(now: nat, member: Option<MemberId>, protocols: seq<Protocol>, session: nat, rebalance: nat,
                    newId: MemberId)
    ensures Join(None, now, member, protocols, session, rebalance, newId)
      == if member.Some? then Served(None, Failed(UnknownMemberId))
         else Served(Some(Group(0, 1, Joining, now + rebalance, None, newId,
                                map[newId := Member(protocols, None, session, rebalance, now + session, 1, None)])),
                     Done((newId, 1)))
  {
  }

  // -------------------------------------------------------------- syncing

  /** The member's session starts anew, and nothing else changes. */
  predicate Touched(g: Group, id: MemberId, now: nat, h: Group) {
    && id in g.members
    && h == g.(members := g.members[id := g.members[id].(deadline := now + g.members[id].sessionTimeout)])
  }

  /** One assignment for every member, and none for anybody else. */
  ghost predicate OneEach(assignments: seq<SyncAssignment>, members: map<MemberId, Member>) {
    && (forall i, j :: 0 <= i < j < |assignments| ==> assignments[i].id != assignments[j].id)
    && (forall i :: 0 <= i < |assignments| ==> assignments[i].id in members)
    && forall id :: id in members ==> exists i :: 0 <= i < |assignments| && assignments[i].id == id
  }

  /** The group is stable, and every member holds what the list gives it. */
  predicate Assigned(g: Group, assignments: seq<SyncAssignment>, now: nat, h: Group) {
    && h == g.(phase := Stable, members := h.members)
    && h.members.Keys == g.members.Keys
    && forall i :: 0 <= i < |assignments| && assignments[i].id in g.members ==>
         var was := g.members[assignments[i].id];
         h.members[assignments[i].id]
           == was.(assignment := Some(assignments[i].assignment), deadline := now + was.sessionTimeout)
  }

  lemma OneEachIs(g: Group, assignments: seq<SyncAssignment>)
    ensures Exact(g, assignments).Some? <==> OneEach(assignments, g.members)
    ensures Exact(g, assignments).Some? ==>
      && Exact(g, assignments).value.Keys == g.members.Keys
      && forall i :: 0 <= i < |assignments| ==>
           Exact(g, assignments).value[assignments[i].id] == assignments[i].assignment
  {
    hide Exact;
    ExactMeaning(g, assignments);
    if OneEach(assignments, g.members) {
      forall id ensures id in Ids(assignments) <==> id in g.members {
      }
    }
    if Exact(g, assignments).Some? {
      forall id | id in g.members ensures exists i :: 0 <= i < |assignments| && assignments[i].id == id {
        assert id in Ids(assignments);
      }
    }
  }

  /** The answer a member gets once the group is stable. */
  function Own(g: Group, id: MemberId): Reply<Option<string>>
    requires id in g.members
  {
    if g.phase != Stable then Done(None)
    else if g.members[id].assignment.None? then Failed(RebalanceInProgress)
    else Done(g.members[id].assignment)
  }

  /** A sync of a current member of a group past joining, the first time it is looked at. */
  ghost predicate Submits(g: Group, now: nat, id: MemberId, assignments: seq<SyncAssignment>, s: Served<Option<string>>)
    requires id in g.members
  {
    if g.phase == AwaitingSync && id == g.leader then
      if OneEach(assignments, g.members) then
        && s.state.Some? && Assigned(g, assignments, now, s.state.value)
        && forall i :: 0 <= i < |assignments| && assignments[i].id == id ==> s.reply == Done(Some(assignments[i].assignment))
      else s == Served(Some(g), Failed(InvalidRequest))
    else if assignments == []
            || (g.phase == Stable && id == g.leader && OneEach(assignments, g.members)
                && forall i :: 0 <= i < |assignments| ==>
                     g.members[assignments[i].id].assignment == Some(assignments[i].assignment)) then
      s.state.Some? && Touched(g, id, now, s.state.value) && s.reply == Own(g, id)
    else s == Served(Some(g), Failed(InvalidRequest))
  }

  lemma AssignedMeaning(g: Group, now: nat, id: MemberId, assignments: seq<SyncAssignment>)
    requires id in g.members && OneEach(assignments, g.members)
    ensures Exact(g, assignments).Some?
    ensures var h := Touch(Install(g, Exact(g, assignments).value, now), id, now);
      && Assigned(g, assignments, now, h)
      && forall i :: 0 <= i < |assignments| && assignments[i].id == id ==>
           h.members[id].assignment == Some(assignments[i].assignment)
  {
    hide Exact;
    OneEachIs(g, assignments);
  }

  /** Whether a stable group already holds what its leader submits again. */
  lemma SameAgain(g: Group, assignments: seq<SyncAssignment>)
    requires Exact(g, assignments).Some?
    ensures (forall other :: other in Exact(g, assignments).value ==>
               other in g.members && g.members[other].assignment == Some(Exact(g, assignments).value[other]))
      <==> forall i :: 0 <= i < |assignments| ==>
             assignments[i].id in g.members && g.members[assignments[i].id].assignment == Some(assignments[i].assignment)
  {
    hide Exact;
    OneEachIs(g, assignments);
    var installed := Exact(g, assignments).value;
    if forall i :: 0 <= i < |assignments| ==>
         assignments[i].id in g.members && g.members[assignments[i].id].assignment == Some(assignments[i].assignment)
    {
      forall other | other in installed
        ensures other in g.members && g.members[other].assignment == Some(installed[other])
      {
        var i :| 0 <= i < |assignments| && assignments[i].id == other;
      }
    }
  }

  /** One pass of a sync: refused in this order, else submitted once, and answered with the member's own assignment. */
  lemma SyncMeaning(g: Group, now: nat, generation: int, id: MemberId, assignments: seq<SyncAssignment>, submitted: bool)
    requires g.leader in g.members
    ensures var s := Sync(Some(g), now, generation, id, assignments, submitted);
      if id !in g.members then s == Served(Some(g), Failed(UnknownMemberId))
      else if generation != g.generation then s == Served(Some(g), Failed(IllegalGeneration))
      else if g.phase == Joining then s == Served(Some(g), Failed(RebalanceInProgress))
      else if submitted then s == Served(Some(g), Own(g, id))
      else Submits(g, now, id, assignments, s)
    ensures Sync(None, now, generation, id, assignments, submitted) == Served(None, Failed(UnknownMemberId))
  {
    hide Exact, Assigned, Install;
    if id in g.members && generation == g.generation && g.phase != Joining && !submitted {
      OneEachIs(g, assignments);
      if OneEach(assignments, g.members) {
        AssignedMeaning(g, now, id, assignments);
        SameAgain(g, assignments);
        InstalledStable(g, Exact(g, assignments).value, now);
      }
    }
  }

  lemma InstalledStable(g: Group, installed: map<MemberId, string>, now: nat)
    ensures Install(g, installed, now).phase == Stable && Install(g, installed, now).members.Keys == g.members.Keys
    ensures forall id :: id in g.members && id in installed ==>
      Install(g, installed, now).members[id].assignment == Some(installed[id])
  {
  }

  // -------------------------------------------------------------- heartbeats, commits, leaving

  /** A heartbeat of a current member starts its session anew even when the answer is to join again. */
  lemma HeartbeatMeaning(g: Group, now: nat, generation: int, id: MemberId)
    ensures var s := Heartbeat(Some(g), now, generation, id);
      if id !in g.members then s == Served(Some(g), Failed(UnknownMemberId))
      else if generation != g.generation then s == Served(Some(g), Failed(IllegalGeneration))
      else
        && s.state.Some? && Touched(g, id, now, s.state.value)
        && s.reply == (if g.phase == Stable && g.members[id].assignment.Some? then Done(()) else Failed(RebalanceInProgress))
    ensures Heartbeat(None, now, generation, id) == Served(None, Failed(UnknownMemberId))
  {
  }

  lemma CommitMeaning(g: Group, generation: int, id: MemberId)
    ensures CommitGate(Some(g), generation, id)
      == if id !in g.members then Failed(UnknownMemberId)
         else if generation != g.generation then Failed(IllegalGeneration)
         else if g.phase == Stable && g.members[id].assignment.Some? then Done(())
         else Failed(RebalanceInProgress)
    ensures CommitGate(None, generation, id) == Failed(UnknownMemberId)
  {
  }

  /** Leaving takes exactly that member out; the others restart, or form if all of them have joined. */
  ghost predicate LeftBy(g: Group, now: nat, id: MemberId, s: Served<()>) {
    if id !in g.members then s == Served(Some(g), Failed(UnknownMemberId))
    else if g.members.Keys == {id} then s == Served(None, Done(()))
    else
      && s.state.Some?
      && var h := s.state.value;
      && h.members.Keys == g.members.Keys - {id} && LeaderAfter(g.leader, h)
      && if g.phase != Joining then
           if g.rebalance >= U64_MAX then Shrunk(g, h) && s.reply == Failed(UnknownServerError)
           else Restarted(g, now, h) && s.reply == Done(())
         else if forall other :: other in h.members ==> g.members[other].joinedRebalance == g.rebalance then
           || (FormedBy(g, now, h) && s.reply == Done(()))
           || (Shrunk(g, h) && s.reply == Failed(UnknownServerError) && g.generation >= I32_MAX)
           || (Shrunk(g, h) && s.reply == Failed(InconsistentGroupProtocol) && forall name :: !AllKnow(h.members, name))
         else Shrunk(g, h) && s.reply == Done(())
  }

  lemma LeaveMeaning(g: Group, now: nat, id: MemberId)
    requires g.members != map[] && g.leader in g.members
    ensures LeftBy(g, now, id, Leave(Some(g), now, id))
    ensures Leave(None, now, id) == Served(None, Failed(UnknownMemberId))
  {
    hide Finalize, StartRebalance, FormedBy, Restarted, AllKnow;
    if id in g.members {
      var ids := g.members.Keys - {id};
      var left := g.(members := Kept(g.members, ids));
      assert left.members.Keys == ids;
      assert left.members == map[] <==> left.members.Keys == {};
      if left.members != map[] {
        GroupLaws.NonemptyKeys(left.members);
        LeaderLaw(g, ids);
        var led := if g.leader == id then left.(leader := Least(left.members.Keys)) else left;
        RestartMeaning(led, now);
        if StartRebalance(led, now).error.None? {
          RestartedFrom(g, led, now, StartRebalance(led, now).group);
        }
        if led.phase == Joining && AllJoined(led) {
          FormMeaning(led, now);
          if Finalize(led, now).error.None? {
            JoinedMeaning(g, now, led);
          }
        }
        FewerMembers(g, id);
      }
    }
  }

  lemma FewerMembers(g: Group, id: MemberId)
    requires id in g.members && Kept(g.members, g.members.Keys - {id}) != map[]
    ensures g.members.Keys != {id}
  {
    GroupLaws.NonemptyKeys(Kept(g.members, g.members.Keys - {id}));
    var other :| other in Kept(g.members, g.members.Keys - {id}).Keys;
    assert other in g.members.Keys;
  }

  /** A join waits until its own rebalance has formed; it fails when that rebalance, or the member, is gone. */
  lemma AwaitMeaning(g: Group, id: MemberId, target: nat)
    ensures AwaitJoin(Some(g), id, target)
      == if g.rebalance != target then Failed(RebalanceInProgress)
         else if id !in g.members then Failed(UnknownMemberId)
         else Done(g.members[id].joinResult)
    ensures AwaitJoin(None, id, target) == Failed(UnknownMemberId)
  {
  }
}
