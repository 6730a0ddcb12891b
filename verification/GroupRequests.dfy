/** How each request moves a group, and what its answer means. */
module GroupRequests {
  import opened LogTypes
  import opened Groups
  import opened GroupLaws

  // -------------------------------------------------------------- join

  lemma CompatibleCommon(g: Group, candidate: Option<MemberId>, protocols: seq<Protocol>, members: map<MemberId, Member>,
                         id: MemberId)
    requires Compatible(g, candidate, protocols)
    requires candidate.Some? ==> id == candidate.value
    requires id in members && members[id].protocols == protocols && members.Keys <= g.members.Keys + {id}
    requires candidate.None? ==> id !in g.members
    requires forall other :: other in members && other != id ==>
      other in g.members && members[other].protocols == g.members[other].protocols
    ensures CommonName(members)
  {
    var choices :=
      if candidate == Some(g.leader) then protocols
      else if g.leader in g.members then g.members[g.leader].protocols
      else protocols;
    var i :| 0 <= i < |choices|
      && Offers(protocols, choices[i].name)
      && forall other :: other in g.members ==>
           Offers(if candidate == Some(other) then protocols else g.members[other].protocols, choices[i].name);
    assert OfferedByAll(members, choices[i].name);
  }

  /** The first member opens a group that is joining. */
  lemma OpenLaw(now: nat, protocols: seq<Protocol>, session: nat, rebalance: nat, newId: MemberId)
    requires ProtocolsOk(protocols)
    ensures var s := Join(None, now, None, protocols, session, rebalance, newId);
      && s.state.Some? && s.reply == Done((newId, 1))
      && GroupOk(s.state.value, None) && s.state.value.phase == Joining && s.state.value.members.Keys == {newId}
      && s.state.value.rebalance == 1
  {
    var g := Join(None, now, None, protocols, session, rebalance, newId).state.value;
    assert Offers(protocols, protocols[0].name);
    assert OfferedByAll(g.members, protocols[0].name);
    assert newId in g.members;
  }

  /** A join is refused without effect, or puts the group (back) into joining with the member in it. */
  lemma JoinLaw(g: Group, f: Option<Formation>, now: nat, member: Option<MemberId>, protocols: seq<Protocol>, session: nat,
                rebalance: nat, newId: MemberId)
    requires GroupOk(g, f) && newId !in g.members
    ensures var s := Join(Some(g), now, member, protocols, session, rebalance, newId);
      && s.state.Some?
      && (s.reply.Failed? ==> s.state.value == g)
      && (s.reply.Done? ==>
            && var h := s.state.value; var id := s.reply.value.0;
            && Restarts(g, h) && GroupOk(h, None)
            && id == (if member.Some? then member.value else newId)
            && h.members.Keys == g.members.Keys + {id}
            && s.reply.value.1 == h.rebalance)
  {
    hide GroupOk, StartRebalance, Compatible, Join, CommonName;
    Facts(g, f);
    JoinShape(g, now, member, protocols, session, rebalance, newId);
    if g.phase != Joining {
      RestartLaw(g, f, now);
      StartKeeps(g, now);
    }
    var s := Join(Some(g), now, member, protocols, session, rebalance, newId);
    if s.reply.Done? {
      var mid := Reopened(g, now).group;
      CompatibleCommon(g, member, protocols, s.state.value.members, s.reply.value.0);
      AddLaw(mid, s.reply.value.0, s.state.value);
    }
  }

  ghost function Reopened(g: Group, now: nat): Moved {
    if g.phase == Joining then Moved(g, None) else StartRebalance(g, now)
  }

  lemma JoinShape(g: Group, now: nat, member: Option<MemberId>, protocols: seq<Protocol>, session: nat, rebalance: nat,
                  newId: MemberId)
    ensures var s := Join(Some(g), now, member, protocols, session, rebalance, newId);
      && s.state.Some?
      && (s.reply.Failed? ==> s.state.value == g || (Reopened(g, now).error.Some? && s.state.value == Reopened(g, now).group))
      && (s.reply.Done? ==>
            && var mid := Reopened(g, now).group; var h := s.state.value; var id := s.reply.value.0;
            && Reopened(g, now).error.None? && Compatible(g, member, protocols)
            && id == (if member.Some? then member.value else newId) && (member.Some? ==> id in g.members)
            && s.reply.value.1 == mid.rebalance
            && h == mid.(members := mid.members[id := NewMember(protocols, session, rebalance, now, mid.rebalance)],
                         phaseDeadline := h.phaseDeadline))
  {
    hide MaxTimeout, StartRebalance, Compatible;
  }

  /** Adding a member that has just joined keeps a joining group in order. */
  lemma AddLaw(g: Group, id: MemberId, h: Group)
    requires GroupOk(g, None) && g.phase == Joining && CommonName(h.members)
    requires id in h.members && h.members == g.members[id := h.members[id]]
    requires h.members[id].assignment.None? && h.members[id].joinResult.None?
    requires h == g.(members := h.members, phaseDeadline := h.phaseDeadline)
    ensures GroupOk(h, None)
  {
    hide CommonName;
  }

  lemma StartKeeps(g: Group, now: nat)
    ensures var m := StartRebalance(g, now).group;
      && m.members.Keys == g.members.Keys
      && forall id :: id in m.members ==> m.members[id].protocols == g.members[id].protocols
  {
  }

  // -------------------------------------------------------------- sync

  lemma {:induction false} ListedKeys(assignments: seq<SyncAssignment>, id: MemberId)
    ensures id in Listed(assignments) <==> exists i :: 0 <= i < |assignments| && assignments[i].id == id
  {
    if assignments != [] {
      var n := |assignments| - 1;
      var front := assignments[..n];
      ListedKeys(front, id);
      assert forall i :: 0 <= i < n ==> front[i] == assignments[i];
      if id in Listed(front) {
        var i :| 0 <= i < |front| && front[i].id == id;
        assert assignments[i].id == id;
      }
    }
  }

  lemma {:induction false} ListedSize(assignments: seq<SyncAssignment>)
    ensures |Listed(assignments)| <= |assignments|
    ensures assignments != [] && |Listed(assignments)| == |assignments| ==>
      && |Listed(assignments[..|assignments| - 1])| == |assignments| - 1
      && assignments[|assignments| - 1].id !in Listed(assignments[..|assignments| - 1])
  {
    if assignments != [] {
      var front, last := assignments[..|assignments| - 1], assignments[|assignments| - 1];
      ListedSize(front);
      var before, after := Listed(front), Listed(assignments);
      if last.id in before {
        assert after.Keys == before.Keys;
        assert |after| == |after.Keys| && |before| == |before.Keys|;
      }
    }
  }

  /** As many keys as entries: no identifier is listed twice, and each entry is installed. */
  lemma {:induction false} ListedDistinct(assignments: seq<SyncAssignment>)
    requires |Listed(assignments)| == |assignments|
    ensures forall i, j :: 0 <= i < j < |assignments| ==> assignments[i].id != assignments[j].id
    ensures forall i :: 0 <= i < |assignments| ==>
      assignments[i].id in Listed(assignments) && Listed(assignments)[assignments[i].id] == assignments[i].assignment
  {
    if assignments != [] {
      var n := |assignments| - 1;
      var front, last := assignments[..n], assignments[n];
      ListedSize(assignments);
      ListedDistinct(front);
      assert forall i :: 0 <= i < n ==> front[i] == assignments[i];
      forall i | 0 <= i < n ensures assignments[i].id != last.id {
        assert front[i].id in Listed(front);
      }
    }
  }

  lemma SameSize<T>(a: set<T>, b: set<T>)
    requires a <= b && |a| == |b|
    ensures a == b
  {
    var rest := b - a;
    assert b == a + rest;
    assert |b| == |a| + |rest|;
    assert |rest| == 0;
  }

  /** Distinct identifiers are as many keys as entries. */
  lemma {:induction false} DistinctListed(assignments: seq<SyncAssignment>)
    requires forall i, j :: 0 <= i < j < |assignments| ==> assignments[i].id != assignments[j].id
    ensures |Listed(assignments)| == |assignments|
  {
    if assignments != [] {
      var n := |assignments| - 1;
      var front, last := assignments[..n], assignments[n];
      assert forall i :: 0 <= i < n ==> front[i] == assignments[i];
      DistinctListed(front);
      ListedKeys(front, last.id);
      var before, after := Listed(front), Listed(assignments);
      assert after.Keys == before.Keys + {last.id};
      assert |after| == |after.Keys| && |before| == |before.Keys|;
    }
  }

  /** The identifiers of a list. */
  function Ids(assignments: seq<SyncAssignment>): set<MemberId> {
    set i | 0 <= i < |assignments| :: assignments[i].id
  }

  lemma ListedIds(assignments: seq<SyncAssignment>)
    ensures Listed(assignments).Keys == Ids(assignments)
  {
    forall id ensures id in Listed(assignments).Keys <==> id in Ids(assignments) {
      ListedKeys(assignments, id);
    }
  }

  /**
   * Assignments are accepted exactly when they name every member once and nobody else, and then
   * they are installed as given.
   */
  lemma ExactMeaning(g: Group, assignments: seq<SyncAssignment>)
    ensures Exact(g, assignments).Some? <==>
      && Ids(assignments) == g.members.Keys
      && forall i, j :: 0 <= i < j < |assignments| ==> assignments[i].id != assignments[j].id
    ensures Exact(g, assignments).Some? ==>
      && Exact(g, assignments).value.Keys == g.members.Keys
      && (forall i, j :: 0 <= i < j < |assignments| ==> assignments[i].id != assignments[j].id)
      && (forall i :: 0 <= i < |assignments| ==>
            assignments[i].id in g.members
            && Exact(g, assignments).value[assignments[i].id] == assignments[i].assignment)
  {
    var installed := Listed(assignments);
    ListedIds(assignments);
    if forall i, j :: 0 <= i < j < |assignments| ==> assignments[i].id != assignments[j].id {
      DistinctListed(assignments);
      assert |installed| == |installed.Keys| && |g.members| == |g.members.Keys|;
    }
    if Exact(g, assignments).Some? {
      ListedDistinct(assignments);
      SameSize(installed.Keys, g.members.Keys);
    }
  }

  lemma TouchLaw(g: Group, f: Option<Formation>, id: MemberId, now: nat)
    requires GroupOk(g, f) && id in g.members
    ensures var h := Touch(g, id, now); Keeps(g, h) && GroupOk(h, f) && h.members.Keys == g.members.Keys
  {
    hide CommonName;
    CommonSame(g.members, Touch(g, id, now).members);
  }

  lemma InstallLaw(g: Group, f: Option<Formation>, assignments: seq<SyncAssignment>, now: nat)
    requires GroupOk(g, f) && g.phase == AwaitingSync && Exact(g, assignments).Some?
    ensures var h := Install(g, Exact(g, assignments).value, now);
      Installs(g, h) && GroupOk(h, f)
  {
    hide CommonName, Exact;
    ExactMeaning(g, assignments);
    CommonSame(g.members, Install(g, Exact(g, assignments).value, now).members);
  }

  /** A sync that succeeds leaves the same phase or completes it; an answer is the member's own assignment. */
  ghost predicate SyncOk(g: Group, f: Option<Formation>, generation: int, id: MemberId, s: Served<Option<string>>) {
    && s.state.Some?
    && var h := s.state.value;
    && (Keeps(g, h) || Installs(g, h)) && GroupOk(h, f) && h.members.Keys == g.members.Keys
    && (s.reply.Done? && s.reply.value.Some? ==>
          && h.phase == Stable && h.generation == generation
          && id in h.members && h.members[id].assignment == s.reply.value)
  }

  lemma InstallThenTouch(g: Group, mid: Group, id: MemberId, now: nat)
    requires Installs(g, mid) && id in mid.members
    ensures Installs(g, Touch(mid, id, now))
  {
  }

  lemma SubmitLaw(g: Group, f: Option<Formation>, now: nat, id: MemberId, assignments: seq<SyncAssignment>)
    requires GroupOk(g, f) && id in g.members
    ensures var r := Submit(g, now, id, assignments);
      r.Done? ==>
        && (Keeps(g, r.value) || Installs(g, r.value)) && GroupOk(r.value, f) && r.value.members.Keys == g.members.Keys
  {
    hide GroupOk, Exact, Touch, Install, Keeps, Installs;
    TouchLaw(g, f, id, now);
    if g.phase == AwaitingSync && Exact(g, assignments).Some? {
      var mid := Install(g, Exact(g, assignments).value, now);
      InstallLaw(g, f, assignments, now);
      InstalledKeys(g, mid);
      TouchLaw(mid, f, id, now);
      InstallThenTouch(g, mid, id, now);
    }
  }

  lemma InstalledKeys(g: Group, mid: Group)
    requires Installs(g, mid)
    ensures mid.members.Keys == g.members.Keys
  {
  }

  lemma SyncLaw(g: Group, f: Option<Formation>, now: nat, generation: int, id: MemberId, assignments: seq<SyncAssignment>,
                submitted: bool)
    requires GroupOk(g, f)
    ensures SyncOk(g, f, generation, id, Sync(Some(g), now, generation, id, assignments, submitted))
  {
    hide GroupOk, Submit;
    if id in g.members {
      SubmitLaw(g, f, now, id, assignments);
    }
  }

  // -------------------------------------------------------------- heartbeat, commit, leave

  lemma HeartbeatLaw(g: Group, f: Option<Formation>, now: nat, generation: int, id: MemberId)
    requires GroupOk(g, f)
    ensures var s := Heartbeat(Some(g), now, generation, id);
      && s.state.Some? && Keeps(g, s.state.value) && GroupOk(s.state.value, f) && s.state.value.members.Keys == g.members.Keys
      && (s.reply.Done? <==> id in g.members && generation == g.generation && g.phase == Stable)
  {
    hide CommonName;
    if id in g.members {
      TouchLaw(g, f, id, now);
    }
  }

  lemma CommitLaw(g: Group, f: Option<Formation>, generation: int, id: MemberId)
    requires GroupOk(g, f)
    ensures CommitGate(Some(g), generation, id).Done? <==> id in g.members && generation == g.generation && g.phase == Stable
  {
    hide CommonName;
  }

  /** Leaving empties the group, or moves it lawfully; it fails only for a stranger or on a full counter. */
  lemma LeaveLaw(g: Group, f: Option<Formation>, now: nat, id: MemberId)
    requires GroupOk(g, f)
    ensures var s := Leave(Some(g), now, id);
      && (s.state.Some? ==> Lawful(g, f, s.state.value) && Within(g, s.state.value))
      && (s.state.Some? && id in g.members ==> id !in s.state.value.members)
      && (s.state.None? ==> s.reply == Done(()))
      && (s.reply.Failed? ==> id !in g.members || (s.state.Some? && Exhausted(s.state.value)))
  {
    hide GroupOk, StartRebalance, Finalize, Forms, FormationOf;
    if id in g.members {
      var left := g.(members := Kept(g.members, g.members.Keys - {id}));
      if left.members != map[] {
        Remaining(g, f, id);
        var led := if g.leader == id then left.(leader := Least(left.members.Keys)) else left;
        Facts(led, f);
        RestartLaw(led, f, now);
        if led.phase == Joining {
          FinalizeLaw(led, now);
        }
        LeaveForms(g, led, now);
      }
    } else {
      assert Keeps(g, g);
    }
  }

  lemma LeaveForms(g: Group, led: Group, now: nat)
    requires Keeps(g, led) && led.members != map[]
    ensures Forms(led, Finalize(led, now).group) ==> Forms(g, Finalize(led, now).group)
    ensures Restarts(led, StartRebalance(led, now).group) ==> Restarts(g, StartRebalance(led, now).group)
  {
    hide Finalize, FormationOf, StartRebalance;
  }

  lemma Remaining(g: Group, f: Option<Formation>, id: MemberId)
    requires GroupOk(g, f) && Kept(g.members, g.members.Keys - {id}) != map[]
    ensures var left := g.(members := Kept(g.members, g.members.Keys - {id}));
      && |left.members.Keys| > 0
      && var led := if g.leader == id then left.(leader := Least(left.members.Keys)) else left;
      Keeps(g, led) && GroupOk(led, f) && Within(g, led) && id !in led.members
  {
    hide CommonName;
    CommonSubset(g.members, g.members.Keys - {id});
    NonemptyKeys(Kept(g.members, g.members.Keys - {id}));
  }
}
