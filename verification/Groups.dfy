/** The classic consumer-group state machine: what each critical section does to one group. */
module Groups {
  import opened LogTypes
  import FiniteSets

  const I32_MAX: int := 0x7fff_ffff
  const MAX_PROTOCOLS: nat := 32
  const MAX_GROUP_MEMBERS: nat := 1024
  const MAX_SESSION_TIMEOUT: nat := 300_000

  // Member identifiers are ordered; a new one is drawn fresh.
  type MemberId = nat

  datatype Protocol = Protocol(name: string, metadata: string)
  datatype JoinMember = JoinMember(id: MemberId, metadata: string)
  datatype JoinOutcome = JoinOutcome(generation: int, protocolName: string, leader: MemberId, member: MemberId,
                                     members: seq<JoinMember>)
  datatype SyncAssignment = SyncAssignment(id: MemberId, assignment: string)

  datatype Phase = Joining | AwaitingSync | Stable

  datatype Member = Member(
    protocols: seq<Protocol>,
    assignment: Option<string>,
    sessionTimeout: nat,
    rebalanceTimeout: nat,
    deadline: nat,
    joinedRebalance: nat,
    joinResult: Option<JoinOutcome>)

  datatype Group = Group(
    generation: int,
    rebalance: nat,
    phase: Phase,
    phaseDeadline: nat,
    protocolName: Option<string>,
    leader: MemberId,
    members: map<MemberId, Member>)

  datatype GroupError =
    | UnknownMemberId
    | IllegalGeneration
    | RebalanceInProgress
    | InconsistentGroupProtocol
    | InvalidRequest
    | GroupMaxSizeReached
    | UnknownServerError

  datatype Reply<+T> = Done(value: T) | Failed(error: GroupError)

  // -------------------------------------------------------------- members

  lemma LeastExists(ids: set<MemberId>)
    requires |ids| > 0
    ensures exists id :: id in ids && forall other :: other in ids ==> id <= other
  {
    var least := FiniteSets.LeastOf(ids, (a: MemberId, b: MemberId) => a <= b);
    assert least in ids && forall other :: other in ids ==> least <= other;
  }

  /** The first key of a nonempty map in key order. */
  ghost function Least(ids: set<MemberId>): (id: MemberId)
    requires |ids| > 0
    ensures id in ids && forall other :: other in ids ==> id <= other
  {
    LeastExists(ids);
    var id :| id in ids && forall other :: other in ids ==> id <= other; id
  }

  /** Keys in order. */
  ghost function Ordered(ids: set<MemberId>): (r: seq<MemberId>)
    ensures |r| == |ids|
    ensures forall id :: id in r <==> id in ids
    decreases |ids|
  {
    if |ids| == 0 then [] else [Least(ids)] + Ordered(ids - {Least(ids)})
  }

  predicate IsMaxTimeout(members: map<MemberId, Member>, t: nat) {
    && (forall id :: id in members ==> members[id].rebalanceTimeout <= t)
    && (members == map[] ==> t == 0)
    && (members != map[] ==> exists id :: id in members && members[id].rebalanceTimeout == t)
  }

  ghost function MaxTimeout(members: map<MemberId, Member>): (t: nat)
    ensures IsMaxTimeout(members, t)
    decreases |members|
  {
    if |members| == 0 then 0
    else
      var id := Least(members.Keys);
      var rest := members - {id};
      assert members == rest[id := members[id]];
      var t := MaxTimeout(rest);
      if t <= members[id].rebalanceTimeout then members[id].rebalanceTimeout else t
  }

  lemma MaxTimeoutUnique(members: map<MemberId, Member>, t: nat)
    requires IsMaxTimeout(members, t)
    ensures t == MaxTimeout(members)
  {
  }

  function Kept(members: map<MemberId, Member>, ids: set<MemberId>): map<MemberId, Member> {
    map id | id in members && id in ids :: members[id]
  }

  // -------------------------------------------------------------- protocols

  predicate Offers(protocols: seq<Protocol>, name: string) {
    exists i :: 0 <= i < |protocols| && protocols[i].name == name
  }

  predicate OfferedByAll(members: map<MemberId, Member>, name: string) {
    forall id :: id in members ==> Offers(members[id].protocols, name)
  }

  /** The first choice that every member offers. */
  function FirstCommon(choices: seq<Protocol>, members: map<MemberId, Member>): (r: Option<string>)
    ensures r.Some? ==> OfferedByAll(members, r.value) && Offers(choices, r.value)
    ensures r.None? ==> forall i :: 0 <= i < |choices| ==> !OfferedByAll(members, choices[i].name)
  {
    if choices == [] then None
    else if OfferedByAll(members, choices[0].name) then
      assert choices[0].name == choices[0].name;
      Some(choices[0].name)
    else
      var r := FirstCommon(choices[1..], members);
      assert r.Some? ==> Offers(choices, r.value) by {
        if r.Some? {
          var i :| 0 <= i < |choices[1..]| && choices[1..][i].name == r.value;
          assert choices[i + 1].name == r.value;
        }
      }
      assert forall i :: 0 < i < |choices| ==> choices[i] == choices[1..][i - 1];
      r
  }

  /** src/coordinator.rs:787-801 */
  function SelectProtocol(g: Group): Option<string> {
    if g.leader in g.members then FirstCommon(g.members[g.leader].protocols, g.members) else None
  }

  function MetadataOf(protocols: seq<Protocol>, name: string): string {
    if protocols == [] then "" else if protocols[0].name == name then protocols[0].metadata else MetadataOf(protocols[1..], name)
  }

  /** src/coordinator.rs:757-785: some choice of the leader is offered by the candidate and everyone else. */
  predicate Compatible(g: Group, candidate: Option<MemberId>, protocols: seq<Protocol>) {
    var choices :=
      if candidate == Some(g.leader) then protocols
      else if g.leader in g.members then g.members[g.leader].protocols
      else protocols;
    exists i :: 0 <= i < |choices|
      && Offers(protocols, choices[i].name)
      && forall id :: id in g.members ==>
           Offers(if candidate == Some(id) then protocols else g.members[id].protocols, choices[i].name)
  }

  predicate ProtocolsOk(protocols: seq<Protocol>) {
    && 0 < |protocols| <= MAX_PROTOCOLS
    && forall i, j :: 0 <= i < j < |protocols| ==> protocols[i].name != protocols[j].name
  }

  // -------------------------------------------------------------- rebalancing

  /** A group after a step that may fail half-way, as the source leaves it. */
  datatype Moved = Moved(group: Group, error: Option<GroupError>)

  ghost function EnsureLeader(g: Group): Group
    requires g.members != map[]
  {
    if g.leader in g.members then g else g.(leader := Least(g.members.Keys))
  }

  function Cleared(m: Member): Member {
    m.(assignment := None, joinResult := None)
  }

  /** src/coordinator.rs:688-706 */
  ghost function StartRebalance(g: Group, now: nat): Moved {
    if g.rebalance + 1 > U64_MAX then Moved(g, Some(UnknownServerError))
    else
      Moved(g.(rebalance := g.rebalance + 1, phase := Joining, protocolName := None,
               phaseDeadline := now + MaxTimeout(g.members),
               members := map id | id in g.members :: Cleared(g.members[id])), None)
  }

  ghost function Roster(members: map<MemberId, Member>, name: string): seq<JoinMember> {
    var ids := Ordered(members.Keys);
    seq(|ids|, i requires 0 <= i < |ids| => JoinMember(ids[i], MetadataOf(members[ids[i]].protocols, name)))
  }

  ghost function OutcomeFor(g: Group, id: MemberId): JoinOutcome
    requires g.protocolName.Some?
  {
    JoinOutcome(g.generation, g.protocolName.value, g.leader, id,
                if id == g.leader then Roster(g.members, g.protocolName.value) else [])
  }

  ghost function Form(g: Group, name: string, now: nat): Group {
    var formed := g.(generation := g.generation + 1, phase := AwaitingSync, protocolName := Some(name),
                     phaseDeadline := now + MaxTimeout(g.members));
    formed.(members := map id | id in g.members ::
              g.members[id].(assignment := None, deadline := now + g.members[id].sessionTimeout,
                             joinResult := Some(OutcomeFor(formed, id))))
  }

  /** src/coordinator.rs:708-755 */
  ghost function Finalize(g: Group, now: nat): Moved
    requires g.members != map[]
  {
    var led := EnsureLeader(g);
    match SelectProtocol(led)
    case None => Moved(led, Some(InconsistentGroupProtocol))
    case Some(name) =>
      if led.generation + 1 > I32_MAX then Moved(led, Some(UnknownServerError))
      else Moved(Form(led, name, now), None)
  }

  predicate AllJoined(g: Group) {
    forall id :: id in g.members ==> g.members[id].joinedRebalance == g.rebalance
  }

  function Alive(g: Group, now: nat): set<MemberId> {
    set id | id in g.members && g.members[id].deadline > now
  }

  function Rejoined(g: Group): set<MemberId> {
    set id | id in g.members && g.members[id].joinedRebalance == g.rebalance
  }

  /** A slot after advancing: its state, an error that stopped it, and whether anything changed. */
  datatype Advanced = Advanced(state: Option<Group>, error: Option<GroupError>, changed: bool)

  /** Expired members are gone, and a group that was past joining starts over. */
  ghost function DropExpired(g: Group, now: nat): Advanced {
    if Alive(g, now) == g.members.Keys then Advanced(Some(g), None, false)
    else
      var left := g.(members := Kept(g.members, Alive(g, now)));
      if left.members == map[] then Advanced(None, None, true)
      else
        var led := EnsureLeader(left);
        if led.phase == Joining then Advanced(Some(led), None, true)
        else
          var moved := StartRebalance(led, now);
          Advanced(Some(moved.group), moved.error, true)
  }

  /** What a due deadline or a complete join does to the phase. */
  ghost function AdvancePhase(g: Group, now: nat, changed: bool): Advanced
    requires g.members != map[]
  {
    match g.phase
    case Joining =>
      var due := now >= g.phaseDeadline;
      var left := if due then g.(members := Kept(g.members, Rejoined(g))) else g;
      if left.members == map[] then Advanced(None, None, true)
      else
        var led := if due then EnsureLeader(left) else left;
        if AllJoined(led) then
          var moved := Finalize(led, now);
          Advanced(Some(moved.group), moved.error, true)
        else Advanced(Some(led), None, changed || due)
    case AwaitingSync =>
      if now >= g.phaseDeadline then
        var moved := StartRebalance(g, now);
        Advanced(Some(moved.group), moved.error, true)
      else Advanced(Some(g), None, changed)
    case Stable => Advanced(Some(g), None, changed)
  }

  /** src/coordinator.rs:622-680 */
  ghost function Advance(state: Option<Group>, now: nat): Advanced
    requires state.Some? ==> state.value.members != map[]
  {
    if state.None? then Advanced(None, None, false)
    else
      var dropped := DropExpired(state.value, now);
      if dropped.state.None? || dropped.error.Some? then dropped
      else AdvancePhase(dropped.state.value, now, dropped.changed)
  }

  // -------------------------------------------------------------- requests

  /** A slot after a request, and the answer. */
  datatype Served<+T> = Served(state: Option<Group>, reply: Reply<T>)

  function NewMember(protocols: seq<Protocol>, session: nat, rebalance: nat, now: nat, joined: nat): Member {
    Member(protocols, None, session, rebalance, now + session, joined, None)
  }

  /** The critical section of a join once the group is advanced (src/coordinator.rs:195-275). */
  ghost function Join(state: Option<Group>, now: nat, member: Option<MemberId>, protocols: seq<Protocol>, session: nat,
                      rebalance: nat, newId: MemberId): Served<(MemberId, nat)>
  {
    match state
    case None =>
      if member.Some? then Served(None, Failed(UnknownMemberId))
      else
        Served(Some(Group(0, 1, Joining, now + rebalance, None, newId,
                          map[newId := NewMember(protocols, session, rebalance, now, 1)])),
               Done((newId, 1)))
    case Some(g) =>
      if member.Some? && member.value !in g.members then Served(state, Failed(UnknownMemberId))
      else if !Compatible(g, member, protocols) then Served(state, Failed(InconsistentGroupProtocol))
      else if member.None? && |g.members| >= MAX_GROUP_MEMBERS then Served(state, Failed(GroupMaxSizeReached))
      else
        var moved := if g.phase == Joining then Moved(g, None) else StartRebalance(g, now);
        if moved.error.Some? then Served(Some(moved.group), Failed(moved.error.value))
        else
          var id := if member.Some? then member.value else newId;
          var joining := moved.group;
          var members := joining.members[id := NewMember(protocols, session, rebalance, now, joining.rebalance)];
          Served(Some(joining.(members := members, phaseDeadline := now + MaxTimeout(members))), Done((id, joining.rebalance)))
  }

  /** The wait loop of a join (src/coordinator.rs:289-319): no value means wait. */
  function AwaitJoin(state: Option<Group>, id: MemberId, target: nat): Reply<Option<JoinOutcome>> {
    if state.None? then Failed(UnknownMemberId)
    else if state.value.rebalance != target then Failed(RebalanceInProgress)
    else if id !in state.value.members then Failed(UnknownMemberId)
    else Done(state.value.members[id].joinResult)
  }

  /** src/coordinator.rs:605-620 */
  function Active(state: Option<Group>, generation: int, id: MemberId): Reply<Group> {
    if state.None? then Failed(UnknownMemberId)
    else if id !in state.value.members then Failed(UnknownMemberId)
    else if state.value.generation != generation then Failed(IllegalGeneration)
    else Done(state.value)
  }

  function Listed(assignments: seq<SyncAssignment>): map<MemberId, string> {
    if assignments == [] then map[]
    else Listed(assignments[..|assignments| - 1])[assignments[|assignments| - 1].id := assignments[|assignments| - 1].assignment]
  }

  /** src/coordinator.rs:803-822: one assignment for every member, and no other. */
  function Exact(g: Group, assignments: seq<SyncAssignment>): Option<map<MemberId, string>> {
    var installed := Listed(assignments);
    if |assignments| != |g.members| || |installed| != |assignments| || !(installed.Keys <= g.members.Keys) then None
    else Some(installed)
  }

  function Install(g: Group, installed: map<MemberId, string>, now: nat): Group {
    g.(phase := Stable, members := map id | id in g.members ::
         if id in installed then
           g.members[id].(assignment := Some(installed[id]), deadline := now + g.members[id].sessionTimeout)
         else g.members[id])
  }

  function Touch(g: Group, id: MemberId, now: nat): Group
    requires id in g.members
  {
    g.(members := g.members[id := g.members[id].(deadline := now + g.members[id].sessionTimeout)])
  }

  /** What a first pass of sync submits: the group afterwards, or an error. */
  function Submit(g: Group, now: nat, id: MemberId, assignments: seq<SyncAssignment>): Reply<Group>
    requires id in g.members
  {
    match g.phase
    case Joining => Failed(RebalanceInProgress)
    case AwaitingSync =>
      if id == g.leader then
        match Exact(g, assignments)
        case None => Failed(InvalidRequest)
        case Some(installed) => Done(Touch(Install(g, installed, now), id, now))
      else if assignments != [] then Failed(InvalidRequest)
      else Done(Touch(g, id, now))
    case Stable =>
      if assignments == [] then Done(Touch(g, id, now))
      else if id != g.leader then Failed(InvalidRequest)
      else
        match Exact(g, assignments)
        case None => Failed(InvalidRequest)
        case Some(proposed) =>
          if forall other :: other in proposed ==> g.members[other].assignment == Some(proposed[other])
          then Done(Touch(g, id, now))
          else Failed(InvalidRequest)
  }

  /** One pass of the sync loop (src/coordinator.rs:356-412); no value means wait. */
  function Sync(state: Option<Group>, now: nat, generation: int, id: MemberId, assignments: seq<SyncAssignment>,
                submitted: bool): Served<Option<string>>
  {
    match Active(state, generation, id)
    case Failed(e) => Served(state, Failed(e))
    case Done(g) =>
      if g.phase == Joining then Served(state, Failed(RebalanceInProgress))
      else
        match (if submitted then Done(g) else Submit(g, now, id, assignments))
        case Failed(e) => Served(state, Failed(e))
        case Done(after) =>
          Served(Some(after),
                 if after.phase != Stable then Done(None)
                 else if after.members[id].assignment.None? then Failed(RebalanceInProgress)
                 else Done(after.members[id].assignment))
  }

  /** src/coordinator.rs:435-449 */
  function Heartbeat(state: Option<Group>, now: nat, generation: int, id: MemberId): Served<()> {
    match Active(state, generation, id)
    case Failed(e) => Served(state, Failed(e))
    case Done(g) =>
      var after := Touch(g, id, now);
      Served(Some(after),
             if g.phase != Stable || g.members[id].assignment.None? then Failed(RebalanceInProgress) else Done(()))
  }

  /** Whether a commit may go to the store (src/coordinator.rs:532-559); the state is only read. */
  function CommitGate(state: Option<Group>, generation: int, id: MemberId): Reply<()> {
    match Active(state, generation, id)
    case Failed(e) => Failed(e)
    case Done(g) => if g.phase != Stable || g.members[id].assignment.None? then Failed(RebalanceInProgress) else Done(())
  }

  /** src/coordinator.rs:469-501 */
  ghost function Leave(state: Option<Group>, now: nat, id: MemberId): Served<()> {
    if state.None? || id !in state.value.members then Served(state, Failed(UnknownMemberId))
    else
      var g := state.value;
      var left := g.(members := Kept(g.members, g.members.Keys - {id}));
      if left.members == map[] then Served(None, Done(()))
      else
        var led := if g.leader == id then left.(leader := Least(left.members.Keys)) else left;
        var moved :=
          if led.phase == Joining then (if AllJoined(led) then Finalize(led, now) else Moved(led, None))
          else StartRebalance(led, now);
        Served(Some(moved.group), if moved.error.Some? then Failed(moved.error.value) else Done(()))
  }
}
