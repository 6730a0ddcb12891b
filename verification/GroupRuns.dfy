/**
 * Runs of one consumer group in one broker process: every critical section of every task, in any
 * order, at any clock readings. The slot lock makes each section atomic; a commit keeps the lock
 * until its task is answered, gives up or is cancelled. What its store update does meanwhile, and
 * may still do afterwards, is the subject of GroupCommits.
 */
module GroupRuns {
  import opened LogTypes
  import opened Groups
  import opened GroupLaws
  import opened GroupRequests

  /** A generation of one life of the group; a group that empties and returns starts a new life. */
  datatype Stamp = Stamp(life: nat, generation: int)
  datatype Joined = Joined(life: nat, rebalance: nat, outcome: JoinOutcome)
  datatype Grant = Grant(member: MemberId, generation: int, assignment: string)

  /**
   * The slot's state and lock. The rest are history variables: the current life, the life every
   * identifier was issued in, what each rebalance formed, every answer given, and the order in
   * which heartbeats passed and offset commits were let through.
   */
  datatype World = World(
    state: Option<Group>,
    holder: Option<Stamp>,
    life: nat,
    issued: map<MemberId, nat>,
    formed: map<(nat, nat), Formation>,
    outcomes: set<Joined>,
    grants: set<Grant>,
    passes: seq<Stamp>,
    admitted: seq<Stamp>)

  const Start: World := World(None, None, 0, map[], map[], {}, {}, [], [])

  datatype Action =
    | JoinGroup(now: nat, member: Option<MemberId>, protocols: seq<Protocol>, session: nat, rebalance: nat, newId: MemberId)
    | PollJoin(now: nat, id: MemberId, target: nat)
    | PollSync(now: nat, generation: int, id: MemberId, assignments: seq<SyncAssignment>, submitted: bool)
    | Beat(now: nat, generation: int, id: MemberId)
    | BeginCommit(now: nat, generation: int, id: MemberId)
    | EndCommit
    | LeaveGroup(now: nat, id: MemberId)
    | Sweep(now: nat)

  /**
   * New identifiers are fresh, and timeouts were validated (src/coordinator.rs:824-840); only the
   * holder of the lock acts while it holds it.
   */
  predicate Enabled(w: World, a: Action) {
    && (a.EndCommit? <==> w.holder.Some?)
    && (a.JoinGroup? ==>
          && ProtocolsOk(a.protocols) && a.newId !in w.issued
          && 0 < a.session <= MAX_SESSION_TIMEOUT && 0 < a.rebalance <= MAX_SESSION_TIMEOUT)
  }

  // -------------------------------------------------------------- steps

  /** Store a state, and record the formation behind it once joining is over. */
  ghost function Record(w: World, state: Option<Group>): World {
    var next := w.(state := state);
    if state.Some? && state.value.phase != Joining && (w.life, state.value.rebalance) !in w.formed
    then next.(formed := w.formed[(w.life, state.value.rebalance) := FormationOf(state.value)])
    else next
  }

  ghost function NowOf(a: Action): nat {
    if a.EndCommit? then 0 else a.now
  }

  /** The life a member identifier belongs to. */
  function LifeOf(w: World, id: MemberId): nat {
    if id in w.issued then w.issued[id] else 0
  }

  ghost function Serve(w: World, a: Action): World {
    match a
    case JoinGroup(now, member, protocols, session, rebalance, newId) =>
      var s := Join(w.state, now, member, protocols, session, rebalance, newId);
      var alive := if w.state.None? && s.state.Some? then w.(life := w.life + 1) else w;
      Record(if s.reply.Done? then alive.(issued := alive.issued[s.reply.value.0 := alive.life]) else alive, s.state)
    case PollJoin(_, id, target) =>
      var r := AwaitJoin(w.state, id, target);
      if r.Done? && r.value.Some? then w.(outcomes := w.outcomes + {Joined(LifeOf(w, id), target, r.value.value)}) else w
    case PollSync(now, generation, id, assignments, submitted) =>
      var s := Sync(w.state, now, generation, id, assignments, submitted);
      var after := Record(w, s.state);
      if s.reply.Done? && s.reply.value.Some?
      then after.(grants := after.grants + {Grant(id, generation, s.reply.value.value)}) else after
    case Beat(now, generation, id) =>
      var s := Heartbeat(w.state, now, generation, id);
      var after := Record(w, s.state);
      if s.reply.Done? then after.(passes := after.passes + [Stamp(LifeOf(w, id), generation)]) else after
    case BeginCommit(_, generation, id) =>
      var stamp := Stamp(LifeOf(w, id), generation);
      if CommitGate(w.state, generation, id).Done? then w.(holder := Some(stamp), admitted := w.admitted + [stamp]) else w
    case LeaveGroup(now, id) => Record(w, Leave(w.state, now, id).state)
    case _ => w
  }

  ghost function Step(w: World, a: Action): World
    requires w.state.Some? ==> w.state.value.members != map[]
  {
    match a
    case EndCommit => w.(holder := None)
    case _ =>
      var advanced := Advance(w.state, NowOf(a));
      var ticked := Record(w, advanced.state);
      if advanced.error.Some? then ticked else Serve(ticked, a)
  }

  // -------------------------------------------------------------- the invariant

  ghost function Behind(w: World): Option<Formation> {
    if w.state.Some? && w.state.value.phase != Joining && (w.life, w.state.value.rebalance) in w.formed
    then Some(w.formed[(w.life, w.state.value.rebalance)]) else None
  }

  ghost predicate MembersIssued(w: World) {
    && (forall id :: id in w.issued ==> w.issued[id] <= w.life)
    && (w.state.Some? ==> forall id :: id in w.state.value.members ==> id in w.issued && w.issued[id] == w.life)
  }

  /** Rebalances form at most once. */
  ghost predicate FormedOnce(w: World) {
    forall k :: k in w.formed ==>
      && k.0 <= w.life
      && (w.state.Some? && k.0 == w.life ==>
            && k.1 <= w.state.value.rebalance
            && (w.state.value.phase == Joining ==> k.1 < w.state.value.rebalance))
  }

  ghost predicate Agreed(w: World) {
    forall o :: o in w.outcomes ==>
      && (o.life, o.rebalance) in w.formed
      && o.outcome == OutcomeOf(w.formed[(o.life, o.rebalance)], o.outcome.member)
  }

  /** A formation: one leader, a member, whose roster is the whole group. */
  ghost predicate Whole(f: Formation) {
    && f.leader in f.members
    && |f.roster| == |f.members|
    && forall id :: id in f.members <==> exists i :: 0 <= i < |f.roster| && f.roster[i].id == id
  }

  ghost predicate AllWhole(w: World) {
    forall k :: k in w.formed ==> Whole(w.formed[k])
  }

  ghost predicate GrantOk(w: World, g: Grant) {
    && g.member in w.issued
    && (w.state.Some? && w.issued[g.member] == w.life ==>
          && g.generation <= w.state.value.generation
          && (w.state.value.phase == AwaitingSync ==> g.generation < w.state.value.generation)
          && (w.state.value.phase == Stable && g.member in w.state.value.members
              && g.generation == w.state.value.generation ==>
                w.state.value.members[g.member].assignment == Some(g.assignment)))
  }

  ghost predicate Granted(w: World) {
    && (forall g :: g in w.grants ==> GrantOk(w, g))
    && (forall g, h :: g in w.grants && h in w.grants && g.member == h.member && g.generation == h.generation ==>
          g.assignment == h.assignment)
  }

  predicate NotAfter(a: Stamp, b: Stamp) {
    a.life < b.life || (a.life == b.life && a.generation <= b.generation)
  }

  /** A stamp of the current life and generation, or an older one. */
  predicate Past(w: World, s: Stamp) {
    s.life < w.life || (s.life == w.life && (w.state.Some? ==> s.generation <= w.state.value.generation))
  }

  ghost predicate InOrder(w: World, stamps: seq<Stamp>) {
    && (forall i :: 0 <= i < |stamps| ==> Past(w, stamps[i]))
    && (forall i, j :: 0 <= i < j < |stamps| ==> NotAfter(stamps[i], stamps[j]))
  }

  ghost predicate Held(w: World) {
    w.holder.Some? ==>
      && w.state.Some? && w.holder.value == Stamp(w.life, w.state.value.generation)
      && w.admitted != [] && w.admitted[|w.admitted| - 1] == w.holder.value
  }

  ghost predicate Inv(w: World) {
    && (w.state.Some? ==> GroupOk(w.state.value, Behind(w)))
    && MembersIssued(w) && FormedOnce(w) && Agreed(w) && AllWhole(w) && Granted(w)
    && InOrder(w, w.passes) && InOrder(w, w.admitted) && Held(w)
  }

  // -------------------------------------------------------------- moves

  ghost predicate Free(w: World) {
    Inv(w) && w.holder.None?
  }

  lemma HasMembers(w: World)
    requires Inv(w)
    ensures w.state.Some? ==> w.state.value.members != map[]
  {
  }

  /** Storing the outcome of a lawful move. */
  lemma MoveLaw(w: World, g: Group, h: Group)
    requires Free(w) && w.state == Some(g) && Lawful(g, Behind(w), h) && Within(g, h)
    ensures Free(Record(w, Some(h)))
  {
    hide GroupOk, FormationOf, Agreed, AllWhole, Granted, InOrder, Forms, Installs, Keeps, Restarts;
    var t := Record(w, Some(h));
    MoveFormed(w, g, h);
    MoveBehind(w, g, h);
    MoveAgreed(w, g, h);
    MoveWhole(w, g, h);
    MoveGranted(w, g, h);
    MoveOrder(w, g, h, w.passes);
    MoveOrder(w, g, h, w.admitted);
  }

  lemma MoveFormed(w: World, g: Group, h: Group)
    requires FormedOnce(w) && w.state == Some(g) && Lawful(g, Behind(w), h)
    ensures FormedOnce(Record(w, Some(h)))
  {
    hide GroupOk, FormationOf;
  }

  /** The formation on record is the one behind the new state. */
  lemma MoveBehind(w: World, g: Group, h: Group)
    requires FormedOnce(w) && w.state == Some(g) && GroupOk(g, Behind(w)) && Lawful(g, Behind(w), h)
    ensures GroupOk(h, Behind(Record(w, Some(h))))
  {
    hide CommonName, FormationOf, ResultsOf;
    var t := Record(w, Some(h));
    if Keeps(g, h) && GroupOk(h, Behind(w)) {
      assert h.phase != Joining ==> (w.life, h.rebalance) in w.formed;
    }
  }

  lemma MoveAgreed(w: World, g: Group, h: Group)
    requires Agreed(w)
    ensures Agreed(Record(w, Some(h)))
  {
    hide FormationOf;
  }

  lemma MoveWhole(w: World, g: Group, h: Group)
    requires AllWhole(w) && FormedOnce(w) && w.state == Some(g) && GroupOk(g, Behind(w)) && Lawful(g, Behind(w), h)
    ensures AllWhole(Record(w, Some(h)))
  {
    hide CommonName, ResultsOf, Whole, FormationOf, NoAssignments;
    if h.phase != Joining && (w.life, h.rebalance) !in w.formed {
      FreshWhole(h);
    }
  }

  lemma FreshWhole(h: Group)
    requires h.leader in h.members
    ensures Whole(FormationOf(h))
  {
    RosterAll(h.members, FormationOf(h).protocolName);
  }

  lemma MoveGranted(w: World, g: Group, h: Group)
    requires Granted(w) && MembersIssued(w) && w.state == Some(g) && Lawful(g, Behind(w), h) && Within(g, h)
    ensures Granted(Record(w, Some(h)))
  {
    hide GroupOk, FormationOf;
    var t := Record(w, Some(h));
    forall gr | gr in t.grants ensures GrantOk(t, gr) {
      assert GrantOk(w, gr);
    }
  }

  lemma MoveOrder(w: World, g: Group, h: Group, stamps: seq<Stamp>)
    requires InOrder(w, stamps) && w.state == Some(g) && Lawful(g, Behind(w), h)
    ensures InOrder(Record(w, Some(h)), stamps)
  {
    hide GroupOk, FormationOf;
    forall i | 0 <= i < |stamps| ensures Past(Record(w, Some(h)), stamps[i]) {
      assert Past(w, stamps[i]);
    }
  }

  lemma EmptyLaw(w: World)
    requires Free(w)
    ensures Free(Record(w, None))
  {
    var t := Record(w, None);
    forall gr | gr in t.grants ensures GrantOk(t, gr) {
      assert GrantOk(w, gr);
    }
    forall i | 0 <= i < |t.passes| ensures Past(t, t.passes[i]) {
      assert Past(w, w.passes[i]);
    }
    forall i | 0 <= i < |t.admitted| ensures Past(t, t.admitted[i]) {
      assert Past(w, w.admitted[i]);
    }
  }

  lemma TickLaw(w: World, now: nat)
    requires Free(w)
    ensures w.state.Some? ==> w.state.value.members != map[]
    ensures Free(Record(w, Advance(w.state, now).state))
  {
    hide Free, Advance, Record;
    FreeFacts(w);
    if w.state.Some? {
      var g := w.state.value;
      AdvanceLaw(g, Behind(w), now);
      var a := Advance(w.state, now);
      if a.state.Some? {
        MoveLaw(w, g, a.state.value);
      } else {
        EmptyLaw(w);
      }
    } else {
      NoAdvance(now);
      EmptyLaw(w);
    }
  }

  lemma NoAdvance(now: nat)
    ensures Advance(None, now).state == None && Advance(None, now).error == None
  {
  }

  lemma FreeFacts(w: World)
    requires Free(w)
    ensures w.state.Some? ==> w.state.value.members != map[] && GroupOk(w.state.value, Behind(w))
  {
  }

  // -------------------------------------------------------------- requests

  /** The first member of a new life. */
  lemma OpenStep(w: World, h: Group, newId: MemberId)
    requires Free(w) && w.state.None? && newId !in w.issued
    requires GroupOk(h, None) && h.phase == Joining && h.members.Keys == {newId}
    ensures Free(Record(w.(life := w.life + 1, issued := w.issued[newId := w.life + 1]), Some(h)))
  {
    hide GroupOk;
    var t := Record(w.(life := w.life + 1, issued := w.issued[newId := w.life + 1]), Some(h));
    forall gr | gr in t.grants ensures GrantOk(t, gr) {
      assert GrantOk(w, gr);
    }
    forall i | 0 <= i < |t.passes| ensures Past(t, t.passes[i]) {
      assert Past(w, w.passes[i]);
    }
    forall i | 0 <= i < |t.admitted| ensures Past(t, t.admitted[i]) {
      assert Past(w, w.admitted[i]);
    }
  }

  /** A member joins, or rejoins, a living group. */
  lemma EnterStep(w: World, g: Group, h: Group, id: MemberId)
    requires Free(w) && w.state == Some(g) && Restarts(g, h) && GroupOk(h, None)
    requires h.members.Keys == g.members.Keys + {id}
    requires id in w.issued ==> id in g.members
    ensures Free(Record(w.(issued := w.issued[id := w.life]), Some(h)))
  {
    hide GroupOk, FormationOf;
    var t := Record(w.(issued := w.issued[id := w.life]), Some(h));
    forall gr | gr in t.grants ensures GrantOk(t, gr) {
      assert GrantOk(w, gr);
    }
    forall i | 0 <= i < |t.passes| ensures Past(t, t.passes[i]) {
      assert Past(w, w.passes[i]);
    }
    forall i | 0 <= i < |t.admitted| ensures Past(t, t.admitted[i]) {
      assert Past(w, w.admitted[i]);
    }
  }

  lemma SelfLawful(g: Group, f: Option<Formation>)
    requires GroupOk(g, f)
    ensures Lawful(g, f, g) && Within(g, g)
  {
    assert Keeps(g, g);
  }

  lemma JoinStep(w: World, a: Action)
    requires Free(w) && a.JoinGroup? && ProtocolsOk(a.protocols) && a.newId !in w.issued
    ensures Free(Serve(w, a))
  {
    hide Free, Join, Record;
    FreeFacts(w);
    var s := Join(w.state, a.now, a.member, a.protocols, a.session, a.rebalance, a.newId);
    if w.state.None? {
      if a.member.None? {
        OpenLaw(a.now, a.protocols, a.session, a.rebalance, a.newId);
        OpenStep(w, s.state.value, a.newId);
      } else {
        StrangerRefused(a);
        EmptyLaw(w);
      }
    } else {
      var g := w.state.value;
      NewIsNew(w, g, a.newId);
      JoinLaw(g, Behind(w), a.now, a.member, a.protocols, a.session, a.rebalance, a.newId);
      if s.reply.Done? {
        MemberRejoins(g, a);
        EnterStep(w, g, s.state.value, s.reply.value.0);
      } else {
        SelfLawful(g, Behind(w));
        MoveLaw(w, g, g);
      }
    }
  }

  lemma StrangerRefused(a: Action)
    requires a.JoinGroup? && a.member.Some?
    ensures Join(None, a.now, a.member, a.protocols, a.session, a.rebalance, a.newId)
      == Served(None, Failed(UnknownMemberId))
  {
  }

  lemma NewIsNew(w: World, g: Group, newId: MemberId)
    requires Free(w) && w.state == Some(g) && newId !in w.issued
    ensures newId !in g.members
  {
  }

  lemma MemberRejoins(g: Group, a: Action)
    requires a.JoinGroup?
    requires Join(Some(g), a.now, a.member, a.protocols, a.session, a.rebalance, a.newId).reply.Done?
    ensures a.member.Some? ==> a.member.value in g.members
  {
    hide StartRebalance, Compatible;
  }

  /** A finished join returns the member's view of the formation of its rebalance. */
  lemma PollJoinStep(w: World, id: MemberId, target: nat)
    requires Free(w)
    requires AwaitJoin(w.state, id, target).Done? && AwaitJoin(w.state, id, target).value.Some?
    ensures Free(w.(outcomes := w.outcomes + {Joined(LifeOf(w, id), target, AwaitJoin(w.state, id, target).value.value)}))
  {
    hide CommonName, Granted, AllWhole, InOrder;
    var g := w.state.value;
    assert g.phase != Joining;
    var t := w.(outcomes := w.outcomes + {Joined(LifeOf(w, id), target, AwaitJoin(w.state, id, target).value.value)});
    assert Behind(t) == Behind(w);
    SameGranted(w, t);
    SameOrder(w, t, w.passes);
    SameOrder(w, t, w.admitted);
    SameWhole(w, t);
  }

  lemma SameGranted(w: World, t: World)
    requires Granted(w) && t.state == w.state && t.life == w.life && t.issued == w.issued && t.grants == w.grants
    ensures Granted(t)
  {
    forall gr | gr in t.grants ensures GrantOk(t, gr) {
      assert GrantOk(w, gr);
    }
  }

  lemma SameOrder(w: World, t: World, stamps: seq<Stamp>)
    requires InOrder(w, stamps) && t.state == w.state && t.life == w.life
    ensures InOrder(t, stamps)
  {
    forall i | 0 <= i < |stamps| ensures Past(t, stamps[i]) {
      assert Past(w, stamps[i]);
    }
  }

  lemma SameWhole(w: World, t: World)
    requires AllWhole(w) && t.formed == w.formed
    ensures AllWhole(t)
  {
  }

  /** An answered sync adds the member's current assignment, which no earlier answer contradicts. */
  lemma GrantStep(w: World, id: MemberId, generation: int, assignment: string)
    requires Free(w) && w.state.Some? && w.state.value.phase == Stable && w.state.value.generation == generation
    requires id in w.state.value.members && w.state.value.members[id].assignment == Some(assignment)
    ensures Free(w.(grants := w.grants + {Grant(id, generation, assignment)}))
  {
    hide GroupOk, AllWhole, InOrder, Agreed;
    var t := w.(grants := w.grants + {Grant(id, generation, assignment)});
    forall gr | gr in t.grants ensures GrantOk(t, gr) {
      assert gr in w.grants ==> GrantOk(w, gr);
    }
    assert Behind(t) == Behind(w);
    SameOrder(w, t, w.passes);
    SameOrder(w, t, w.admitted);
    SameWhole(w, t);
    SameAgreed(w, t);
  }

  lemma SameAgreed(w: World, t: World)
    requires Agreed(w) && t.formed == w.formed && t.outcomes == w.outcomes
    ensures Agreed(t)
  {
  }

  /** A stamp of the current generation comes after all earlier ones. */
  lemma Latest(w: World, t: World, stamps: seq<Stamp>, s: Stamp)
    requires InOrder(w, stamps) && t.state == w.state && t.life == w.life
    requires w.state.Some? && s == Stamp(w.life, w.state.value.generation)
    ensures InOrder(t, stamps + [s])
  {
    var longer := stamps + [s];
    forall i | 0 <= i < |longer| ensures Past(t, longer[i]) {
      assert i < |stamps| ==> Past(w, stamps[i]);
    }
    forall i, j | 0 <= i < j < |longer| ensures NotAfter(longer[i], longer[j]) {
      assert Past(w, stamps[i]);
      assert j < |stamps| ==> NotAfter(stamps[i], stamps[j]);
    }
  }

  lemma PassStep(w: World, generation: int, id: MemberId)
    requires Free(w) && w.state.Some? && generation == w.state.value.generation && id in w.state.value.members
    ensures Free(w.(passes := w.passes + [Stamp(LifeOf(w, id), generation)]))
  {
    hide GroupOk, AllWhole, InOrder, Agreed, Granted;
    var t := w.(passes := w.passes + [Stamp(LifeOf(w, id), generation)]);
    assert Behind(t) == Behind(w);
    Latest(w, t, w.passes, Stamp(w.life, generation));
    SameOrder(w, t, w.admitted);
    SameWhole(w, t);
    SameAgreed(w, t);
    SameGranted(w, t);
  }

  lemma SyncStep(w: World, a: Action)
    requires Free(w) && a.PollSync?
    ensures Free(Serve(w, a))
  {
    hide Free, Sync, Record, Keeps, Installs, GroupOk;
    FreeFacts(w);
    var s := Sync(w.state, a.now, a.generation, a.id, a.assignments, a.submitted);
    if w.state.Some? {
      var g := w.state.value;
      SyncLaw(g, Behind(w), a.now, a.generation, a.id, a.assignments, a.submitted);
      SyncMoves(g, Behind(w), a.generation, a.id, s);
      MoveLaw(w, g, s.state.value);
      RecordState(w, s.state);
      if s.reply.Done? && s.reply.value.Some? {
        GrantStep(Record(w, s.state), a.id, a.generation, s.reply.value.value);
      }
    } else {
      NobodySyncs(a);
      EmptyLaw(w);
    }
  }

  lemma SyncMoves(g: Group, f: Option<Formation>, generation: int, id: MemberId, s: Served<Option<string>>)
    requires SyncOk(g, f, generation, id, s)
    ensures Lawful(g, f, s.state.value) && Within(g, s.state.value)
  {
    hide GroupOk, Keeps, Installs;
  }

  lemma RecordState(w: World, state: Option<Group>)
    ensures Record(w, state).state == state && Record(w, state).life == w.life
    ensures Record(w, state).passes == w.passes && Record(w, state).grants == w.grants
  {
  }

  lemma NobodySyncs(a: Action)
    requires a.PollSync?
    ensures Sync(None, a.now, a.generation, a.id, a.assignments, a.submitted) == Served(None, Failed(UnknownMemberId))
  {
  }

  lemma BeatStep(w: World, a: Action)
    requires Free(w) && a.Beat?
    ensures Free(Serve(w, a))
  {
    hide Free, Record, Keeps, GroupOk;
    FreeFacts(w);
    var s := Heartbeat(w.state, a.now, a.generation, a.id);
    if w.state.Some? {
      var g := w.state.value;
      HeartbeatLaw(g, Behind(w), a.now, a.generation, a.id);
      assert Lawful(g, Behind(w), s.state.value);
      MoveLaw(w, g, s.state.value);
      RecordState(w, s.state);
      KeptGeneration(g, s.state.value);
      if s.reply.Done? {
        KeptMember(g, s, a.id);
        SameLife(w, s.state, a.id);
        PassStep(Record(w, s.state), a.generation, a.id);
      }
    } else {
      EmptyLaw(w);
    }
  }

  lemma KeptMember(g: Group, s: Served<()>, id: MemberId)
    requires s.state.Some? && id in g.members && s.state.value.members.Keys == g.members.Keys
    ensures id in s.state.value.members
  {
  }

  lemma SameLife(w: World, state: Option<Group>, id: MemberId)
    ensures LifeOf(Record(w, state), id) == LifeOf(w, id)
  {
  }

  lemma KeptGeneration(g: Group, h: Group)
    requires Keeps(g, h)
    ensures h.generation == g.generation
  {
  }

  lemma LeaveStep(w: World, a: Action)
    requires Free(w) && a.LeaveGroup?
    ensures Free(Serve(w, a))
  {
    hide Free, Record, Leave;
    FreeFacts(w);
    var s := Leave(w.state, a.now, a.id);
    if w.state.Some? {
      LeaveLaw(w.state.value, Behind(w), a.now, a.id);
      if s.state.Some? {
        MoveLaw(w, w.state.value, s.state.value);
      } else {
        EmptyLaw(w);
      }
    } else {
      NobodyLeaves(a);
      EmptyLaw(w);
    }
  }

  lemma NobodyLeaves(a: Action)
    requires a.LeaveGroup?
    ensures Leave(None, a.now, a.id).state == None
  {
  }

  // -------------------------------------------------------------- every step

  lemma CommitStep(w: World, a: Action)
    requires Free(w) && a.BeginCommit?
    ensures Inv(Serve(w, a))
  {
    hide AllWhole, InOrder, Agreed, Granted, CommonName, FormationOf;
    if CommitGate(w.state, a.generation, a.id).Done? {
      var stamp := Stamp(LifeOf(w, a.id), a.generation);
      var t := w.(holder := Some(stamp), admitted := w.admitted + [stamp]);
      assert Behind(t) == Behind(w);
      SameOrder(w, t, w.passes);
      Latest(w, t, w.admitted, stamp);
      SameWhole(w, t);
      SameAgreed(w, t);
      SameGranted(w, t);
    }
  }

  lemma LockedStep(w: World, a: Action)
    requires Inv(w) && a.EndCommit?
    requires w.state.Some? ==> w.state.value.members != map[]
    ensures Inv(Step(w, a))
  {
    hide GroupOk, AllWhole, InOrder, Agreed, Granted;
    var t := Step(w, a);
    assert Behind(t) == Behind(w);
    SameOrder(w, t, w.passes);
    SameOrder(w, t, w.admitted);
    SameWhole(w, t);
    SameAgreed(w, t);
    SameGranted(w, t);
  }

  lemma ServeStep(w: World, a: Action)
    requires Free(w) && !a.EndCommit?
    requires a.JoinGroup? ==> ProtocolsOk(a.protocols) && a.newId !in w.issued
    ensures Inv(Serve(w, a))
  {
    hide Inv;
    match a
    case JoinGroup(_, _, _, _, _, _) => JoinStep(w, a);
    case PollJoin(_, id, target) =>
      if AwaitJoin(w.state, id, target).Done? && AwaitJoin(w.state, id, target).value.Some? {
        PollJoinStep(w, id, target);
      }
    case PollSync(_, _, _, _, _) => SyncStep(w, a);
    case Beat(_, _, _) => BeatStep(w, a);
    case BeginCommit(_, _, _) => CommitStep(w, a);
    case LeaveGroup(_, _) => LeaveStep(w, a);
    case _ =>
  }

  lemma RecordIssued(w: World, state: Option<Group>)
    ensures Record(w, state).issued == w.issued
  {
  }

  lemma RecordAdmits(w: World, state: Option<Group>)
    ensures Record(w, state).admitted == w.admitted
  {
  }

  lemma ServeAdmits(w: World, a: Action)
    ensures w.admitted <= Serve(w, a).admitted
  {
    hide Record, Join, Sync, Heartbeat, Leave, AwaitJoin, CommitGate;
    forall v: World, state ensures Record(v, state).admitted == v.admitted {
      RecordAdmits(v, state);
    }
  }

  /** What was let through stays on record. */
  lemma AdmittedGrows(w: World, a: Action)
    requires w.state.Some? ==> w.state.value.members != map[]
    ensures w.admitted <= Step(w, a).admitted
  {
    hide Record, Serve, Advance;
    if !a.EndCommit? {
      var ticked := Record(w, Advance(w.state, NowOf(a)).state);
      RecordAdmits(w, Advance(w.state, NowOf(a)).state);
      ServeAdmits(ticked, a);
    }
  }

  /** The invariant survives every critical section of every task. */
  lemma StepKeeps(w: World, a: Action)
    requires Inv(w) && Enabled(w, a)
    ensures w.state.Some? ==> w.state.value.members != map[]
    ensures Inv(Step(w, a))
  {
    hide Inv, Advance, Record, Serve;
    HasMembers(w);
    if a.EndCommit? {
      LockedStep(w, a);
    } else {
      var advanced := Advance(w.state, NowOf(a));
      TickLaw(w, NowOf(a));
      RecordIssued(w, advanced.state);
      if advanced.error.None? {
        ServeStep(Record(w, advanced.state), a);
      }
    }
  }

  // -------------------------------------------------------------- runs

  /** The world after a run of enabled actions. */
  ghost predicate Run(worlds: seq<World>, actions: seq<Action>) {
    && |worlds| == |actions| + 1
    && worlds[0] == Start
    && forall i :: 0 <= i < |actions| ==>
      && Enabled(worlds[i], actions[i])
      && (worlds[i].state.Some? ==> worlds[i].state.value.members != map[])
      && worlds[i + 1] == Step(worlds[i], actions[i])
  }

  lemma {:induction false} EveryWorld(worlds: seq<World>, actions: seq<Action>, i: nat)
    requires Run(worlds, actions) && i < |worlds|
    ensures Inv(worlds[i])
  {
    hide Step;
    if i > 0 {
      EveryWorld(worlds, actions, i - 1);
      StepKeeps(worlds[i - 1], actions[i - 1]);
    }
  }

  /**
   * The phase invariant in every reachable state: the leader is a member; a joining group has no
   * results and no assignments; an awaiting one has results of the current generation and no
   * assignments; in a stable one every member has an assignment; and some protocol is offered by all.
   */
  lemma PhaseInvariant(worlds: seq<World>, actions: seq<Action>, i: nat)
    requires Run(worlds, actions) && i < |worlds| && worlds[i].state.Some?
    ensures var g := worlds[i].state.value;
      && g.leader in g.members && CommonName(g.members)
      && (g.phase == Joining ==>
            forall id :: id in g.members ==> g.members[id].joinResult.None? && g.members[id].assignment.None?)
      && (g.phase == AwaitingSync ==>
            forall id :: id in g.members ==>
              && g.members[id].joinResult.Some? && g.members[id].joinResult.value.generation == g.generation
              && g.members[id].assignment.None?)
      && (g.phase == Stable ==> forall id :: id in g.members ==> g.members[id].assignment.Some?)
  {
    EveryWorld(worlds, actions, i);
  }

  /** A rebalance that is due fails only when a counter is full. */
  lemma OnlyOverflow(worlds: seq<World>, actions: seq<Action>, i: nat, now: nat)
    requires Run(worlds, actions) && i < |worlds| && worlds[i].state.Some?
    ensures worlds[i].state.value.members != map[]
    ensures var a := Advance(worlds[i].state, now);
      a.error.Some? ==> a.state.Some? && Exhausted(a.state.value)
  {
    hide Advance, Lawful;
    EveryWorld(worlds, actions, i);
    AdvanceLaw(worlds[i].state.value, Behind(worlds[i]), now);
  }

  /** All joins that succeed in one rebalance agree, and the leader alone sees the members: all of them. */
  lemma JoinsAgree(worlds: seq<World>, actions: seq<Action>, i: nat, a: Joined, b: Joined)
    requires Run(worlds, actions) && i < |worlds| && a in worlds[i].outcomes && b in worlds[i].outcomes
    requires a.life == b.life && a.rebalance == b.rebalance
    ensures a.outcome.generation == b.outcome.generation && a.outcome.protocolName == b.outcome.protocolName
    ensures a.outcome.leader == b.outcome.leader
    ensures a.outcome.member != a.outcome.leader ==> a.outcome.members == []
    ensures a.outcome.member == a.outcome.leader ==>
      (a.life, a.rebalance) in worlds[i].formed
      && forall id :: id in worlds[i].formed[(a.life, a.rebalance)].members <==>
           exists n :: 0 <= n < |a.outcome.members| && a.outcome.members[n].id == id
  {
    hide GroupOk;
    EveryWorld(worlds, actions, i);
    var w := worlds[i];
    assert Whole(w.formed[(a.life, a.rebalance)]);
  }

  /** The assignment returned to a member for a generation never changes, in any life of the group. */
  lemma AssignmentsStand(worlds: seq<World>, actions: seq<Action>, i: nat, a: Grant, b: Grant)
    requires Run(worlds, actions) && i < |worlds| && a in worlds[i].grants && b in worlds[i].grants
    requires a.member == b.member && a.generation == b.generation
    ensures a == b
  {
    EveryWorld(worlds, actions, i);
  }

  /** A pair is current: its member is in the group now, in this life, and its generation is the present one. */
  ghost predicate CurrentPair(w: World, id: MemberId, generation: int) {
    && w.state.Some? && w.state.value.phase == Stable
    && id in w.state.value.members && id in w.issued && w.issued[id] == w.life
    && generation == w.state.value.generation
  }

  ghost predicate StampIsCurrent(w: World, s: Stamp) {
    w.state.Some? && s == Stamp(w.life, w.state.value.generation)
  }

  /**
   * No stale pair ever passes: whenever a heartbeat passes or a commit is let through, its member
   * and generation are current at that step, even though both counters restart with every life.
   */
  lemma OnlyCurrentPasses(worlds: seq<World>, actions: seq<Action>, i: nat)
    requires Run(worlds, actions) && i < |actions|
    ensures var w, t, a := worlds[i], worlds[i + 1], actions[i];
      && (t.passes != w.passes ==>
            && a.Beat? && CurrentPair(t, a.id, a.generation)
            && t.passes == w.passes + [Stamp(t.life, a.generation)] && StampIsCurrent(t, t.passes[|w.passes|]))
      && (w.holder.None? && t.holder.Some? ==>
            a.BeginCommit? && CurrentPair(t, a.id, a.generation) && t.holder.value == Stamp(t.life, a.generation))
      && (t.admitted != w.admitted ==>
            t.holder.Some? && t.admitted == w.admitted + [t.holder.value] && StampIsCurrent(t, t.holder.value))
  {
    hide Agreed, AllWhole, Granted, InOrder, FormedOnce, Advance;
    EveryWorld(worlds, actions, i);
    EveryWorld(worlds, actions, i + 1);
    var w, a := worlds[i], actions[i];
    if !a.EndCommit? {
      TickLaw(w, NowOf(a));
      ServedCurrent(Record(w, Advance(w.state, NowOf(a)).state), a);
    }
  }

  lemma ServedCurrent(w: World, a: Action)
    requires Free(w)
    ensures var t := Serve(w, a);
      && (t.passes != w.passes ==>
            a.Beat? && CurrentPair(t, a.id, a.generation) && t.passes == w.passes + [Stamp(t.life, a.generation)])
      && (t.holder.Some? ==>
            a.BeginCommit? && CurrentPair(t, a.id, a.generation) && t.holder.value == Stamp(t.life, a.generation))
      && (t.holder.Some? ==> t.admitted == w.admitted + [t.holder.value])
      && (t.holder.None? ==> t.admitted == w.admitted)
  {
    hide Agreed, AllWhole, Granted, InOrder, FormedOnce, FormationOf, CommonName, Join, Sync, Leave;
    if a.Beat? && w.state.Some? {
      HeartbeatLaw(w.state.value, Behind(w), a.now, a.generation, a.id);
      KeptPhase(w.state.value, Heartbeat(w.state, a.now, a.generation, a.id).state.value);
    }
  }

  lemma KeptPhase(g: Group, h: Group)
    requires Keeps(g, h)
    ensures h.generation == g.generation && h.phase == g.phase
  {
  }

  /** Heartbeats pass, and commits are let through, in the order of generations across all lives of the group. */
  lemma NothingStale(worlds: seq<World>, actions: seq<Action>, n: nat, i: nat, j: nat)
    requires Run(worlds, actions) && n < |worlds| && i < j
    ensures j < |worlds[n].passes| ==> NotAfter(worlds[n].passes[i], worlds[n].passes[j])
    ensures j < |worlds[n].admitted| ==> NotAfter(worlds[n].admitted[i], worlds[n].admitted[j])
  {
    hide GroupOk;
    EveryWorld(worlds, actions, n);
  }
}
