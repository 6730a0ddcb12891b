/**
 * Offset commits of one group as a whole: the slot's gate composed with the compare-and-swap chain of
 * the stored offsets. A task that gives up or is cancelled releases the lock, but an update it has
 * sent may still reach the store at any later time.
 */
module GroupCommits {
  import opened LogTypes
  import GroupRuns
  import GroupOffsets

  /**
   * The slot and the store. A session is the time a let-through commit holds the lock; sessions are
   * numbered in order, and the updates of session p are those of committer p of the store. The rest
   * are history variables: which sessions landed, in order, where in the chain of manifests each
   * unfinished update was loaded, and what each session was asked to commit.
   */
  datatype State = State(
    world: GroupRuns.World,
    store: GroupOffsets.State,
    landed: seq<nat>,
    loadedAt: map<nat, nat>,
    requests: map<nat, seq<GroupOffsets.Entry>>)

  datatype Action =
    | Section(section: GroupRuns.Action)
    | Load(commits: seq<GroupOffsets.Entry>)
    | Land(p: nat, next: GroupOffsets.OffsetManifest)
    | Lose(p: nat)

  /** The session that holds the lock. */
  function Session(s: State): nat {
    if s.world.admitted == [] then 0 else |s.world.admitted| - 1
  }

  /** Only the holder of the lock loads; what it sent may land, or be lost, whoever holds the lock then. */
  ghost predicate Enabled(s: State, a: Action) {
    match a
    case Section(section) => GroupRuns.Enabled(s.world, section)
    case Load(commits) =>
      && s.world.holder.Some?
      && GroupOffsets.Enabled(s.store, GroupOffsets.Load(Session(s), commits))
      && (Session(s) in s.requests ==> s.requests[Session(s)] == commits)
    case Land(p, next) => GroupOffsets.Enabled(s.store, GroupOffsets.Swap(p, next))
    case Lose(p) => s.store.history != [] && GroupOffsets.ProcOf(s.store, p).Committing?
  }

  /** The slot's group is never stored without members (see GroupRuns.StepKeeps). */
  predicate Populated(s: State) {
    s.world.state.Some? ==> s.world.state.value.members != map[]
  }

  ghost function Step(s: State, a: Action): State
    requires Populated(s) && Enabled(s, a)
  {
    match a
    case Section(section) => s.(world := GroupRuns.Step(s.world, section))
    case Load(commits) =>
      var p := Session(s);
      s.(store := GroupOffsets.Step(s.store, GroupOffsets.Load(p, commits)),
         loadedAt := s.loadedAt[p := if s.store.history == [] then 0 else |s.store.history| - 1],
         requests := s.requests[p := commits])
    case Land(p, next) =>
      s.(store := GroupOffsets.Step(s.store, GroupOffsets.Swap(p, next)), landed := s.landed + [p])
    case Lose(p) => s.(store := GroupOffsets.Step(s.store, GroupOffsets.Lose(p)))
  }

  // -------------------------------------------------------------- the invariant

  /** An update under way belongs to a session, and everything that had landed before it was loaded is older. */
  predicate UnderWay(s: State, p: nat) {
    GroupOffsets.ProcOf(s.store, p).Committing? ==>
      && p < |s.world.admitted|
      && p in s.requests && s.requests[p] == GroupOffsets.ProcOf(s.store, p).commits
      && p in s.loadedAt && s.loadedAt[p] < |s.store.history|
      && s.store.history[s.loadedAt[p]] == GroupOffsets.ProcOf(s.store, p).basis
      && forall i :: 0 <= i < |s.landed| && i < s.loadedAt[p] ==> s.landed[i] < p
  }

  predicate LandedOk(s: State, i: nat)
    requires i < |s.landed| == |s.store.applied|
  {
    && s.landed[i] < |s.world.admitted|
    && s.landed[i] in s.requests && s.requests[s.landed[i]] == s.store.applied[i]
    && GroupOffsets.ProcOf(s.store, s.landed[i]).Finished?
  }

  ghost predicate Chained(s: State) {
    && |s.landed| == |s.store.applied|
    && (forall i :: 0 <= i < |s.landed| ==> LandedOk(s, i))
    && (forall i, j :: 0 <= i < j < |s.landed| ==> s.landed[i] < s.landed[j])
    && (forall p :: p in s.store.procs ==> UnderWay(s, p))
  }

  ghost predicate Inv(s: State) {
    GroupRuns.Inv(s.world) && GroupOffsets.Inv(s.store) && Chained(s)
  }

  lemma SectionStep(s: State, a: Action)
    requires Inv(s) && Enabled(s, a) && a.Section?
    ensures Populated(s) && Inv(Step(s, a))
  {
    hide GroupRuns.Inv, GroupOffsets.Inv, GroupRuns.Step;
    GroupRuns.StepKeeps(s.world, a.section);
    GroupRuns.AdmittedGrows(s.world, a.section);
    var t := Step(s, a);
    forall i | 0 <= i < |t.landed| ensures LandedOk(t, i) {
      assert LandedOk(s, i);
    }
    forall p | p in t.store.procs ensures UnderWay(t, p) {
      assert UnderWay(s, p);
    }
  }

  lemma HolderAdmitted(w: GroupRuns.World)
    requires GroupRuns.Inv(w) && w.holder.Some?
    ensures w.admitted != [] && w.state.Some? && w.holder.value == w.admitted[|w.admitted| - 1]
    ensures GroupRuns.StampIsCurrent(w, w.holder.value)
  {
  }

  lemma LoadStep(s: State, a: Action)
    requires Inv(s) && Enabled(s, a) && a.Load? && Populated(s)
    ensures Inv(Step(s, a))
  {
    hide GroupRuns.Inv, GroupOffsets.Inv;
    HolderAdmitted(s.world);
    GroupOffsets.StepKeeps(s.store, GroupOffsets.Load(Session(s), a.commits));
    ChainSizes(s.store);
    var t := Step(s, a);
    forall i | 0 <= i < |t.landed| ensures LandedOk(t, i) {
      assert LandedOk(s, i);
    }
    forall p | p in t.store.procs ensures UnderWay(t, p) {
      if p != Session(s) {
        assert UnderWay(s, p);
      } else {
        forall i | 0 <= i < |s.landed| ensures s.landed[i] < p {
          assert LandedOk(s, i);
        }
      }
    }
  }

  lemma ChainSizes(s: GroupOffsets.State)
    requires GroupOffsets.Inv(s)
    ensures s.history != [] && |s.applied| == |s.history| - 1
  {
  }

  /** Versions compare content, yet an update lands only over the very manifest it loaded. */
  lemma LandsOnLoaded(s: GroupOffsets.State, at: nat, p: nat, next: GroupOffsets.OffsetManifest)
    requires GroupOffsets.Inv(s) && GroupOffsets.Enabled(s, GroupOffsets.Swap(p, next))
    requires at < |s.history| && s.history[at] == GroupOffsets.ProcOf(s, p).basis
    ensures at == |s.history| - 1
  {
  }

  lemma LandStep(s: State, a: Action)
    requires Inv(s) && Enabled(s, a) && a.Land? && Populated(s)
    ensures Inv(Step(s, a))
    ensures forall i :: 0 <= i < |s.landed| ==> s.landed[i] < a.p
  {
    hide GroupRuns.Inv, GroupOffsets.Inv, GroupOffsets.Follows;
    GroupOffsets.StepKeeps(s.store, GroupOffsets.Swap(a.p, a.next));
    ChainSizes(s.store);
    assert UnderWay(s, a.p);
    LandsOnLoaded(s.store, s.loadedAt[a.p], a.p, a.next);
    var t := Step(s, a);
    forall i | 0 <= i < |t.landed| ensures LandedOk(t, i) {
      assert i < |s.landed| ==> LandedOk(s, i);
    }
    forall p | p in t.store.procs ensures UnderWay(t, p) {
      assert p in s.store.procs ==> UnderWay(s, p);
    }
  }

  lemma LoseStep(s: State, a: Action)
    requires Inv(s) && Enabled(s, a) && a.Lose? && Populated(s)
    ensures Inv(Step(s, a))
  {
    hide GroupRuns.Inv, GroupOffsets.Inv;
    GroupOffsets.StepKeeps(s.store, GroupOffsets.Lose(a.p));
    var t := Step(s, a);
    forall i | 0 <= i < |t.landed| ensures LandedOk(t, i) {
      assert LandedOk(s, i);
    }
    forall p | p in t.store.procs ensures UnderWay(t, p) {
      assert p in s.store.procs ==> UnderWay(s, p);
    }
  }

  lemma StepKeeps(s: State, a: Action)
    requires Inv(s) && Enabled(s, a)
    ensures Populated(s) && Inv(Step(s, a))
  {
    hide Inv, Enabled, GroupRuns.Inv, GroupOffsets.Inv;
    assert GroupRuns.Inv(s.world) by {
      Parts(s);
    }
    GroupRuns.HasMembers(s.world);
    match a
    case Section(_) => SectionStep(s, a);
    case Load(_) => LoadStep(s, a);
    case Land(_, _) => LandStep(s, a);
    case Lose(_) => LoseStep(s, a);
  }

  lemma Parts(s: State)
    requires Inv(s)
    ensures GroupRuns.Inv(s.world) && GroupOffsets.Inv(s.store) && Chained(s)
  {
  }

  // -------------------------------------------------------------- runs

  /** A slot without a group, and any valid stored offsets. */
  ghost predicate Init(s: State) {
    && s.world == GroupRuns.Start
    && |s.store.history| == 1 && GroupOffsets.ManifestOk(s.store.history[0])
    && s.store.procs == map[] && s.store.applied == []
    && s.landed == [] && s.loadedAt == map[] && s.requests == map[]
  }

  ghost predicate Run(states: seq<State>, actions: seq<Action>) {
    && |states| == |actions| + 1
    && Init(states[0])
    && forall i :: 0 <= i < |actions| ==>
      Populated(states[i]) && Enabled(states[i], actions[i]) && states[i + 1] == Step(states[i], actions[i])
  }

  lemma {:induction false} EveryState(states: seq<State>, actions: seq<Action>, i: nat)
    requires Run(states, actions) && i < |states|
    ensures Inv(states[i])
    ensures states[i].store.history != [] && states[i].store.history[0] == states[0].store.history[0]
  {
    hide Step, Enabled, Chained;
    if i > 0 {
      EveryState(states, actions, i - 1);
      StepKeeps(states[i - 1], actions[i - 1]);
      FirstStays(states[i - 1], actions[i - 1]);
    } else {
      assert Chained(states[0]) by {
        NothingChained(states[0]);
      }
    }
  }

  lemma NothingChained(s: State)
    requires Init(s)
    ensures Chained(s)
  {
  }

  lemma FirstStays(s: State, a: Action)
    requires Populated(s) && Enabled(s, a) && s.store.history != []
    ensures Step(s, a).store.history != [] && Step(s, a).store.history[0] == s.store.history[0]
  {
    hide GroupRuns.Step, GroupOffsets.Follows;
  }

  /**
   * Commits land in the order in which they were let through, each at most once, and so in the order
   * of generations across all lives of the group, even when tasks are cancelled with their updates
   * in flight: a late update never lands over a newer one.
   */
  lemma LandsInOrder(states: seq<State>, actions: seq<Action>, n: nat, i: nat, j: nat)
    requires Run(states, actions) && n < |states| && i < j < |states[n].landed|
    ensures var s := states[n];
      && s.landed[i] < s.landed[j] < |s.world.admitted|
      && GroupRuns.NotAfter(s.world.admitted[s.landed[i]], s.world.admitted[s.landed[j]])
  {
    hide Step, Enabled, GroupOffsets.Inv;
    EveryState(states, actions, n);
    var s := states[n];
    assert LandedOk(s, i) && LandedOk(s, j);
    AdmittedOrder(s.world, s.landed[i], s.landed[j]);
  }

  lemma AdmittedOrder(w: GroupRuns.World, i: nat, j: nat)
    requires GroupRuns.Inv(w) && i < j < |w.admitted|
    ensures GroupRuns.NotAfter(w.admitted[i], w.admitted[j])
  {
  }

  /**
   * What lands while its task still waits carries the life and generation that are current when it
   * lands; what lands later was let through under an earlier pair, and nothing let through after it
   * has landed.
   */
  lemma LandsCurrent(states: seq<State>, actions: seq<Action>, n: nat)
    requires Run(states, actions) && n < |actions| && actions[n].Land?
    ensures var s, p := states[n], actions[n].p;
      && p < |s.world.admitted|
      && (forall i :: 0 <= i < |s.landed| ==> s.landed[i] < p)
      && (s.world.holder.Some? && p == Session(s) ==> GroupRuns.StampIsCurrent(s.world, s.world.admitted[p]))
  {
    hide Step, GroupRuns.Inv, GroupOffsets.Inv, GroupOffsets.Follows;
    EveryState(states, actions, n);
    var s := states[n];
    assert Enabled(s, actions[n]);
    assert UnderWay(s, actions[n].p);
    LandStep(s, actions[n]);
    if s.world.holder.Some? {
      HolderAdmitted(s.world);
    }
  }

  /** The requests of the sessions that landed, in order. */
  function Landed(s: State): seq<seq<GroupOffsets.Entry>> {
    seq(|s.landed|, i requires 0 <= i < |s.landed| => if s.landed[i] in s.requests then s.requests[s.landed[i]] else [])
  }

  /** The stored offsets are the requests of the commits that landed, applied in the order they were let through. */
  lemma StoredInOrder(states: seq<State>, actions: seq<Action>, n: nat)
    requires Run(states, actions) && n < |states|
    ensures states[n].store.history != [] && states[0].store.history != []
    ensures GroupOffsets.ToMap(GroupOffsets.Newest(states[n].store).offsets)
      == GroupOffsets.Fold(GroupOffsets.ToMap(states[0].store.history[0].offsets), Landed(states[n]))
  {
    hide Step, Enabled, GroupRuns.Inv, GroupOffsets.ManifestOk, GroupOffsets.ToMap, GroupOffsets.Fold;
    EveryState(states, actions, n);
    var s := states[n];
    forall i | 0 <= i < |s.landed| ensures Landed(s)[i] == s.store.applied[i] {
      assert LandedOk(s, i);
    }
    assert Landed(s) == s.store.applied;
  }
}
