/** What every critical section keeps: the phase invariant of one group, and how it may move on. */
module GroupLaws {
  import opened LogTypes
  import opened Groups

  /** What one finished rebalance settled for all its members. */
  datatype Formation = Formation(generation: int, protocolName: string, leader: MemberId, roster: seq<JoinMember>,
                                 members: set<MemberId>)

  function OutcomeOf(f: Formation, id: MemberId): JoinOutcome {
    JoinOutcome(f.generation, f.protocolName, f.leader, id, if id == f.leader then f.roster else [])
  }

  ghost function FormationOf(g: Group): Formation {
    var name := if g.protocolName.Some? then g.protocolName.value else "";
    Formation(g.generation, name, g.leader, Roster(g.members, name), g.members.Keys)
  }

  ghost predicate CommonName(members: map<MemberId, Member>) {
    exists name :: OfferedByAll(members, name)
  }

  /** Every member's join result is its view of one formation, of the current generation. */
  ghost predicate ResultsOf(g: Group, f: Formation) {
    && g.generation == f.generation
    && f.leader in f.members
    && forall id :: id in g.members ==> id in f.members && g.members[id].joinResult == Some(OutcomeOf(f, id))
  }

  ghost predicate NoAssignments(g: Group) {
    forall id :: id in g.members ==> g.members[id].assignment.None?
  }

  /** The phase invariant; `f` is the formation behind the current generation once joining is over. */
  ghost predicate GroupOk(g: Group, f: Option<Formation>) {
    && g.members != map[] && g.leader in g.members && CommonName(g.members)
    && 0 <= g.generation <= I32_MAX && g.rebalance <= U64_MAX
    && match g.phase
       case Joining => NoAssignments(g) && forall id :: id in g.members ==> g.members[id].joinResult.None?
       case AwaitingSync => f.Some? && ResultsOf(g, f.value) && NoAssignments(g)
       case Stable =>
         f.Some? && ResultsOf(g, f.value) && forall id :: id in g.members ==> g.members[id].assignment.Some?
  }

  // -------------------------------------------------------------- moves

  /** The same rebalance, phase and generation; members may go, and those left keep what they hold. */
  ghost predicate Keeps(g: Group, h: Group) {
    && h.generation == g.generation && h.rebalance == g.rebalance && h.phase == g.phase
    && forall id :: id in h.members ==>
         && id in g.members
         && h.members[id].assignment == g.members[id].assignment && h.members[id].joinResult == g.members[id].joinResult
  }

  /** Back to joining, under a later rebalance unless it was joining already. */
  ghost predicate Restarts(g: Group, h: Group) {
    && h.phase == Joining && h.generation == g.generation
    && g.rebalance <= h.rebalance && (h.rebalance == g.rebalance ==> g.phase == Joining)
  }

  /** A new generation, formed by everyone in the group. */
  ghost predicate Forms(g: Group, h: Group) {
    && h.phase == AwaitingSync && h.generation == g.generation + 1
    && g.rebalance <= h.rebalance && (h.rebalance == g.rebalance ==> g.phase == Joining)
    && h.protocolName.Some? && OfferedByAll(h.members, h.protocolName.value)
    && h.leader in h.members
    && forall id :: id in h.members ==> h.members[id].joinResult == Some(OutcomeOf(FormationOf(h), id))
  }

  /** The leader's assignments arrive: every member gets one, nothing else changes. */
  ghost predicate Installs(g: Group, h: Group) {
    && g.phase == AwaitingSync && h.phase == Stable
    && h.generation == g.generation && h.rebalance == g.rebalance
    && h.members.Keys == g.members.Keys
    && forall id :: id in h.members ==>
         h.members[id].assignment.Some? && h.members[id].joinResult == g.members[id].joinResult
  }

  /** A lawful move, the invariant after it, and the formation then behind the group. */
  ghost predicate Lawful(g: Group, f: Option<Formation>, h: Group) {
    || (Keeps(g, h) && GroupOk(h, f))
    || (Installs(g, h) && GroupOk(h, f))
    || (Restarts(g, h) && GroupOk(h, None))
    || (Forms(g, h) && GroupOk(h, Some(FormationOf(h))))
  }

  ghost predicate Within(g: Group, h: Group) {
    h.members.Keys <= g.members.Keys
  }

  /** The only errors a rebalance can meet are full counters. */
  ghost predicate Exhausted(g: Group) {
    g.generation == I32_MAX || g.rebalance == U64_MAX
  }

  // -------------------------------------------------------------- building blocks

  lemma CommonSubset(members: map<MemberId, Member>, ids: set<MemberId>)
    requires CommonName(members)
    ensures CommonName(Kept(members, ids))
  {
    var name :| OfferedByAll(members, name);
    assert OfferedByAll(Kept(members, ids), name);
  }

  lemma CommonSame(a: map<MemberId, Member>, b: map<MemberId, Member>)
    requires CommonName(a) && b.Keys <= a.Keys && forall id :: id in b ==> b[id].protocols == a[id].protocols
    ensures CommonName(b)
  {
    var name :| OfferedByAll(a, name);
    assert OfferedByAll(b, name);
  }

  lemma NonemptyKeys(members: map<MemberId, Member>)
    requires members != map[]
    ensures |members.Keys| > 0
  {
    var id :| id in members;
    assert id in members.Keys;
  }

  lemma Facts(g: Group, f: Option<Formation>)
    requires GroupOk(g, f)
    ensures g.members != map[] && g.leader in g.members && CommonName(g.members)
    ensures 0 <= g.generation <= I32_MAX && g.rebalance <= U64_MAX
    ensures g.phase == Joining ==> GroupOk(g, None)
  {
  }

  lemma LeaderFound(g: Group)
    requires g.members != map[]
    ensures EnsureLeader(g).leader in g.members
    ensures EnsureLeader(g) == g.(leader := EnsureLeader(g).leader)
    ensures g.leader in g.members ==> EnsureLeader(g) == g
  {
    NonemptyKeys(g.members);
  }

  /** Dropping members and finding a leader again stays in the phase. */
  lemma ShrinkLaw(g: Group, f: Option<Formation>, ids: set<MemberId>)
    requires GroupOk(g, f) && Kept(g.members, ids) != map[]
    ensures var h := EnsureLeader(g.(members := Kept(g.members, ids)));
      Keeps(g, h) && GroupOk(h, f) && Within(g, h)
  {
    hide EnsureLeader, CommonName;
    CommonSubset(g.members, ids);
    LeaderFound(g.(members := Kept(g.members, ids)));
  }

  lemma RestartLaw(g: Group, f: Option<Formation>, now: nat)
    requires GroupOk(g, f)
    ensures var m := StartRebalance(g, now);
      && Within(g, m.group)
      && (m.error.Some? ==> m.group == g && m.error == Some(UnknownServerError) && g.rebalance == U64_MAX)
      && (m.error.None? ==> Restarts(g, m.group) && m.group.rebalance == g.rebalance + 1 && GroupOk(m.group, None))
  {
    hide CommonName, MaxTimeout, ResultsOf;
    var h := StartRebalance(g, now).group;
    if StartRebalance(g, now).error.None? {
      CommonSame(g.members, h.members);
      assert g.leader in h.members;
    }
  }

  /** A common protocol exists, so only a full generation counter can stop a rebalance. */
  lemma SelectLaw(g: Group)
    requires g.leader in g.members && CommonName(g.members)
    ensures SelectProtocol(g).Some? && OfferedByAll(g.members, SelectProtocol(g).value)
  {
    hide OfferedByAll;
    var name :| OfferedByAll(g.members, name);
    var choices := g.members[g.leader].protocols;
    assert Offers(choices, name) by {
      OfferedBy(g.members, g.leader, name);
    }
    var i :| 0 <= i < |choices| && choices[i].name == name;
    assert OfferedByAll(g.members, choices[i].name);
  }

  lemma OfferedBy(members: map<MemberId, Member>, id: MemberId, name: string)
    requires OfferedByAll(members, name) && id in members
    ensures Offers(members[id].protocols, name)
  {
  }

  lemma FormLaw(g: Group, name: string, now: nat)
    requires GroupOk(g, None) && g.phase == Joining && g.generation < I32_MAX && OfferedByAll(g.members, name)
    ensures var h := Form(g, name, now); Forms(g, h) && GroupOk(h, Some(FormationOf(h))) && Within(g, h)
  {
    hide CommonName, MaxTimeout, Roster, OfferedByAll;
    var h := Form(g, name, now);
    SameRoster(g.members, h.members, name);
    CommonSame(g.members, h.members);
    SameOffers(g.members, h.members, name);
    assert g.leader in h.members;
    FormedResults(g, name, now);
    assert ResultsOf(h, FormationOf(h));
  }

  lemma FormedResults(g: Group, name: string, now: nat)
    requires Roster(g.members, name) == Roster(Form(g, name, now).members, name)
    ensures var h := Form(g, name, now);
      forall id :: id in h.members ==>
        && id in g.members && h.members[id].assignment.None?
        && h.members[id].joinResult == Some(OutcomeOf(FormationOf(h), id))
  {
    hide MaxTimeout, Roster;
  }

  lemma SameOffers(a: map<MemberId, Member>, b: map<MemberId, Member>, name: string)
    requires OfferedByAll(a, name) && b.Keys <= a.Keys && forall id :: id in b ==> b[id].protocols == a[id].protocols
    ensures OfferedByAll(b, name)
  {
  }

  /** The roster depends on identifiers and protocols only. */
  lemma SameRoster(a: map<MemberId, Member>, b: map<MemberId, Member>, name: string)
    requires a.Keys == b.Keys && forall id :: id in a ==> a[id].protocols == b[id].protocols
    ensures Roster(a, name) == Roster(b, name)
  {
  }

  lemma FinalizeLaw(g: Group, now: nat)
    requires GroupOk(g, None) && g.phase == Joining
    ensures g.members != map[]
    ensures var m := Finalize(g, now);
      && Within(g, m.group)
      && (m.error.Some? ==> m.group == g && m.error == Some(UnknownServerError) && g.generation == I32_MAX)
      && (m.error.None? ==> Forms(g, m.group) && GroupOk(m.group, Some(FormationOf(m.group))))
  {
    hide Form, SelectProtocol, Forms, EnsureLeader, FormationOf, CommonName, GroupOk;
    Facts(g, None);
    LeaderFound(g);
    SelectLaw(g);
    if g.generation < I32_MAX {
      FormLaw(g, SelectProtocol(g).value, now);
    }
  }

  /** The roster names every member once, in order. */
  lemma RosterAll(members: map<MemberId, Member>, name: string)
    ensures |Roster(members, name)| == |members.Keys|
    ensures forall id :: id in members <==> exists i :: 0 <= i < |Roster(members, name)| && Roster(members, name)[i].id == id
  {
    var ids, roster := Ordered(members.Keys), Roster(members, name);
    forall id ensures id in members <==> exists i :: 0 <= i < |roster| && roster[i].id == id {
      if id in members {
        assert id in ids;
        var i :| 0 <= i < |ids| && ids[i] == id;
        assert roster[i].id == id;
      }
    }
  }

  // -------------------------------------------------------------- advancing

  /** An advanced slot: emptied, or moved lawfully; an error only on a full counter. */
  ghost predicate AdvanceOk(g: Group, f: Option<Formation>, a: Advanced) {
    && (a.state.None? ==> a.error.None? && a.changed)
    && (a.state.Some? ==> Lawful(g, f, a.state.value) && Within(g, a.state.value))
    && (a.error.Some? ==> a.error == Some(UnknownServerError) && a.state.Some? && Exhausted(a.state.value))
  }

  lemma DropLaw(g: Group, f: Option<Formation>, now: nat)
    requires GroupOk(g, f)
    ensures var a := DropExpired(g, now);
      && (a.state.None? ==> a.error.None? && a.changed)
      && (a.state.Some? ==>
            && Within(g, a.state.value)
            && ((Keeps(g, a.state.value) && GroupOk(a.state.value, f))
                || (Restarts(g, a.state.value) && GroupOk(a.state.value, None))))
      && (a.error.Some? ==> a.error == Some(UnknownServerError) && a.state.Some? && Exhausted(a.state.value))
  {
    hide GroupOk, StartRebalance, EnsureLeader;
    var ids := Alive(g, now);
    if ids != g.members.Keys && Kept(g.members, ids) != map[] {
      ShrinkLaw(g, f, ids);
      RestartLaw(EnsureLeader(g.(members := Kept(g.members, ids))), f, now);
    }
  }

  lemma JoiningLaw(g: Group, now: nat, changed: bool)
    requires GroupOk(g, None) && g.phase == Joining
    ensures g.members != map[] && AdvanceOk(g, None, AdvancePhase(g, now, changed))
  {
    hide GroupOk, Finalize, EnsureLeader, Forms, FormationOf;
    Facts(g, None);
    if now >= g.phaseDeadline {
      if Kept(g.members, Rejoined(g)) != map[] {
        ShrinkLaw(g, None, Rejoined(g));
        FinalizeLaw(EnsureLeader(g.(members := Kept(g.members, Rejoined(g)))), now);
        AfterKeeping(g, EnsureLeader(g.(members := Kept(g.members, Rejoined(g)))), now);
      }
    } else {
      FinalizeLaw(g, now);
    }
  }

  lemma AfterKeeping(g: Group, led: Group, now: nat)
    requires Keeps(g, led) && led.members != map[]
    ensures Forms(led, Finalize(led, now).group) ==> Forms(g, Finalize(led, now).group)
  {
    hide Finalize, FormationOf;
  }

  /** While joining, no formation matters. */
  lemma JoiningAny(g: Group, f: Option<Formation>, a: Advanced)
    requires g.phase == Joining && AdvanceOk(g, None, a)
    ensures AdvanceOk(g, f, a)
  {
    hide Forms, FormationOf, CommonName;
  }

  lemma PhaseLaw(g: Group, f: Option<Formation>, now: nat, changed: bool)
    requires GroupOk(g, f)
    ensures g.members != map[] && AdvanceOk(g, f, AdvancePhase(g, now, changed))
  {
    Facts(g, f);
    match g.phase
    case Joining =>
      JoiningLaw(g, now, changed);
      JoiningAny(g, f, AdvancePhase(g, now, changed));
    case AwaitingSync => AwaitingLaw(g, f, now, changed);
    case Stable =>
  }

  lemma AwaitingLaw(g: Group, f: Option<Formation>, now: nat, changed: bool)
    requires GroupOk(g, f) && g.phase == AwaitingSync && g.members != map[]
    ensures AdvanceOk(g, f, AdvancePhase(g, now, changed))
  {
    hide GroupOk, StartRebalance, Forms, Finalize;
    RestartLaw(g, f, now);
  }

  /** Two lawful moves in a row, the first without a new generation, are one. */
  lemma Compose(g: Group, f: Option<Formation>, mid: Group, h: Group, fm: Option<Formation>)
    requires (Keeps(g, mid) && fm == f) || (Restarts(g, mid) && fm == None)
    requires Lawful(mid, fm, h) && Within(g, mid) && Within(mid, h)
    requires !Installs(mid, h)
    ensures Lawful(g, f, h) && Within(g, h)
  {
    hide GroupOk, FormationOf;
  }

  lemma AdvanceLaw(g: Group, f: Option<Formation>, now: nat)
    requires GroupOk(g, f)
    ensures g.members != map[] && AdvanceOk(g, f, Advance(Some(g), now))
  {
    hide GroupOk, DropExpired, AdvancePhase, Lawful;
    Facts(g, f);
    DropLaw(g, f, now);
    var dropped := DropExpired(g, now);
    if dropped.state.Some? {
      var mid := dropped.state.value;
      var fm := if Keeps(g, mid) && GroupOk(mid, f) then f else None;
      DropIsLawful(g, f, mid, fm);
      if dropped.error.None? {
        PhaseLaw(mid, fm, now, dropped.changed);
        var after := AdvancePhase(mid, now, dropped.changed);
        if after.state.Some? {
          NeverStable(mid, now, dropped.changed);
          Compose(g, f, mid, after.state.value, fm);
        }
      }
    }
  }

  lemma DropIsLawful(g: Group, f: Option<Formation>, mid: Group, fm: Option<Formation>)
    requires (Keeps(g, mid) && GroupOk(mid, f) && fm == f) || (Restarts(g, mid) && GroupOk(mid, None) && fm == None)
    ensures Lawful(g, f, mid)
  {
  }

  /** Advancing never makes a group stable. */
  lemma NeverStable(g: Group, now: nat, changed: bool)
    requires g.members != map[] && AdvancePhase(g, now, changed).state.Some?
    ensures !Installs(g, AdvancePhase(g, now, changed).state.value)
  {
    hide SelectProtocol, MaxTimeout, Roster;
  }
}
