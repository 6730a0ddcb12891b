/** The main results: what holds in every state of every run of the protocol. */
module Runs {
  import opened LogTypes
  import opened ObjectStores
  import opened Manifests
  import opened Idempotence
  import opened Protocol
  import opened RootChain
  import IndexPages
  import ProducerWindow
  import Restriction
  import Maintenance
  import Retention
  import Committing
  import Selections
  import Fetching
  import Appending
  import Collection

  /** A new partition, or one from before producer state: any sound manifest without producers. */
  ghost predicate Init(s: State) {
    && |s.history| == 1
    && ManifestSound(s.ever, s.history[0]) && ProducersOf(s.history[0]) == None
    && s.reach == [ManifestKeys(s.ever, s.history[0])]
    && s.present == s.ever.Keys
    && s.birth.Keys == s.ever.Keys && (forall k :: k in s.birth ==> s.birth[k] == 0)
    && s.procs == map[]
    && s.ledger == Ledger(Log(s.ever, s.history[0]), [0], [|Log(s.ever, s.history[0])|], [], [0], [])
  }

  /** Any interleaving of actions of any number of processes. */
  ghost predicate Behavior(states: seq<State>, actions: seq<Action>) {
    && |states| == |actions| + 1
    && Init(states[0])
    && forall i :: 0 <= i < |actions| ==> Enabled(states[i], actions[i]) && states[i + 1] == Apply(states[i], actions[i])
  }

  lemma InitInv(s: State)
    requires Init(s)
    ensures Inv(s)
  {
    InitSafe(s);
    InitWindows(s);
    InitOnce(s);
  }

  lemma InitSafe(s: State)
    requires Init(s)
    ensures Safe(s)
  {
    hide ManifestSound;
    forall k | k in s.reach[0] ensures k in s.present {
      KeysPresent(s.ever, s.history[0], k);
    }
  }

  lemma InitWindows(s: State)
    requires Init(s)
    ensures Windows(s)
  {
    hide ManifestSound, IndexPages.Run, IndexPages.EndOffset, Window;
    var m := s.history[0];
    LogRun(s.ever, m);
    FirstWindow(s, m, Log(s.ever, m));
  }

  lemma FirstWindow(s: State, m: Manifest, log: seq<Segment>)
    requires s.history == [m] && LogIn(s.ever, m) == log && s.ledger.total == log
    requires s.ledger.starts == [0] && s.ledger.ends == [|log|]
    requires IndexPages.EndOffset(log, StartOffset(m)) == NextOffset(m)
    ensures Window(s, 0) && LogIn(s.ever, m) == log
  {
    hide LogIn, IndexPages.EndOffset;
    assert log[0..|log|] == log && log[..|log|] == log && log[..0] == [];
    NoSegments(StartOffset(m));
  }

  lemma InitOnce(s: State)
    requires Init(s)
    ensures Once(s)
  {
    hide ManifestSound;
    LogRun(s.ever, s.history[0]);
    NoProducers(s.ever, s.history[0]);
  }

  lemma NoProducers(ever: map<Key, Object>, m: Manifest)
    requires ManifestSound(ever, m) && ProducersOf(m) == None
    ensures ManifestStates(ever, m) == map[]
  {
    if m.Indexed? {
      Committing.NoStates(ever, m.root.nextOffset);
    }
  }

  /** The empty partition is a starting state. */
  lemma EmptyInit()
    ensures Init(State(map[], {}, map[], [Indexed(EmptyRoot)], [{}], map[], Ledger([], [0], [0], [], [0], [])))
  {
    var m := Indexed(EmptyRoot);
    Committing.NoStates(map[], 0);
    Committing.NoDirectoryKeys(map[], 0);
    assert ManifestSound(map[], m) && Log(map[], m) == [] && ManifestKeys(map[], m) == {};
  }

  lemma {:induction false} EveryState(states: seq<State>, actions: seq<Action>, i: nat)
    requires Behavior(states, actions) && i < |states|
    ensures Inv(states[i])
  {
    hide Inv, Init, Enabled;
    if i == 0 {
      InitInv(states[0]);
    } else {
      EveryState(states, actions, i - 1);
      Step(states[i - 1], actions[i - 1]);
    }
  }

  // -------------------------------------------------------------- collection never harms the current root

  /** Whatever the current root reaches is present: read against the store as it is, the root is sound. */
  lemma CurrentRootReadable(states: seq<State>, actions: seq<Action>, i: nat)
    requires Behavior(states, actions) && i < |states|
    ensures var s := states[i];
      && s.history != []
      && KeysIn(s.ever, Current(s)) <= s.present
      && ManifestSound(Store(s), Current(s))
      && LogIn(Store(s), Current(s)) == LogIn(s.ever, Current(s))
  {
    EveryState(states, actions, i);
    Readable(states[i]);
  }

  lemma Readable(s: State)
    requires Safe(s)
    ensures KeysIn(s.ever, Current(s)) <= s.present
    ensures ManifestSound(Store(s), Current(s))
    ensures LogIn(Store(s), Current(s)) == LogIn(s.ever, Current(s))
  {
    hide ManifestSound;
    var n := |s.history| - 1;
    assert Linked(s.ever, s.history[n], s.reach[n]);
    Restriction.ManifestWithin(s.ever, Store(s), Current(s));
  }

  // -------------------------------------------------------------- growth along a run

  lemma GrowsStep(s: State, a: Action)
    requires Inv(s) && Enabled(s, a)
    ensures Grows(s, Apply(s, a))
  {
    hide Inv, Enabled;
    SameSizes(s);
    GrowsApply(s, a);
  }

  lemma GrowsApply(s: State, a: Action)
    requires Enabled(s, a) && |s.reach| == |s.history| && s.birth.Keys == s.ever.Keys
    ensures Grows(s, Apply(s, a))
  {
    hide ManifestSound, KeysIn, Honest, Decided, Committing.Continued, Maintenance.Trimmed, LogIn, Extended,
      Committing.DecisionIn, Acks, After;
    if Local(a) {
      LocalFrame(s, a);
    }
  }

  lemma {:induction false} GrowsRun(states: seq<State>, actions: seq<Action>, i: nat, j: nat)
    requires Behavior(states, actions) && i <= j < |states|
    ensures Grows(states[i], states[j])
    decreases j
  {
    hide Inv, Init, Enabled;
    EveryState(states, actions, i);
    if i < j {
      GrowsRun(states, actions, i, j - 1);
      EveryState(states, actions, j - 1);
      GrowsStep(states[j - 1], actions[j - 1]);
    } else {
      SameSizes(states[i]);
    }
  }

  lemma SameSizes(s: State)
    requires Inv(s)
    ensures |s.reach| == |s.history| > 0 && s.birth.Keys == s.ever.Keys
  {
  }

  // -------------------------------------------------------------- missing objects

  /** The comparison after a missing object never reports an integrity error. */
  lemma NeverFails(states: seq<State>, actions: seq<Action>, i: nat, p: nat)
    requires Behavior(states, actions) && i < |states|
    ensures !ProcOf(states[i], p).Failed?
  {
    EveryState(states, actions, i);
    var s := states[i];
    if p in s.procs {
      assert ProcOk(s, s.procs[p]);
    }
  }

  /** When a referenced object is missing, its root is superseded and its version never comes back. */
  lemma MissingMeansSuperseded(states: seq<State>, actions: seq<Action>, i: nat, j: nat)
    requires Behavior(states, actions) && i < |actions| && i <= j < |states| && actions[i].Miss?
    ensures states[j].history != []
    ensures HasRoot(ProcOf(states[i], actions[i].p))
    ensures Current(states[j]) != ProcOf(states[i], actions[i].p).basis
  {
    hide Windows, Once, KeysIn, ManifestSound, Init, Linked;
    EveryState(states, actions, i);
    EveryState(states, actions, j);
    GrowsRun(states, actions, i, j);
    var s, t, q := states[i], states[j], ProcOf(states[i], actions[i].p);
    assert Enabled(s, actions[i]);
    assert ProcOk(s, q);
    MissedMeansStale(s, q, actions[i].k);
    Superseded(t, q.basis, q.at);
  }

  /** What a collector deletes is never again reachable from a current root. */
  lemma DeletedForGood(states: seq<State>, actions: seq<Action>, i: nat, j: nat)
    requires Behavior(states, actions) && i < |actions| && i <= j < |states| && actions[i].Delete?
    ensures states[j].history != [] && actions[i].k !in KeysIn(states[j].ever, Current(states[j]))
  {
    hide Windows, Once, KeysIn, Init, Apply, Safe, Grows;
    EveryState(states, actions, i);
    EveryState(states, actions, j);
    GrowsRun(states, actions, i, j);
    StaysUnreached(states[i], states[j], actions[i]);
  }

  lemma StaysUnreached(s: State, t: State, a: Action)
    requires Safe(s) && Safe(t) && Grows(s, t) && a.Delete? && Enabled(s, a)
    ensures t.history != [] && a.k !in KeysIn(t.ever, Current(t))
  {
    hide KeysIn, ManifestSound, Linked, Introduces;
    var q := ProcOf(s, a.p);
    DoomedFacts(s, a);
    NeverReturns(t, a.k, q.at, |t.reach| - 1);
    assert Linked(t.ever, t.history[|t.history| - 1], t.reach[|t.reach| - 1]);
    LinkedKeys(t.ever, Current(t), t.reach[|t.reach| - 1]);
  }

  /**
   * A trace that completes, from reads made at any times while other collectors deleted, has found
   * exactly what its published root reaches, so what is deleted after it is exactly the inventory
   * that the root does not reach.
   */
  lemma TracesExactly(states: seq<State>, actions: seq<Action>, i: nat)
    requires Behavior(states, actions) && i < |actions| && actions[i].EndTrace?
    ensures var s, t, a := states[i], states[i + 1], actions[i];
      && var q := ProcOf(s, a.p);
      && q.Tracing? && q.basis in s.history && ManifestSound(s.ever, q.basis)
      && a.trace.segments == Log(s.ever, q.basis) && a.trace.keys == ManifestKeys(s.ever, q.basis)
      && ProcOf(t, a.p) == Deleting(q.at, q.inventory - ManifestKeys(s.ever, q.basis))
  {
    hide Windows, Once, KeysIn, Init, ManifestSound, ManifestKeys, Log, Maintenance.Traced;
    EveryState(states, actions, i);
    var s, a, q := states[i], actions[i], ProcOf(states[i], actions[i].p);
    assert Enabled(s, a);
    assert ProcOk(s, q);
    assert Linked(s.ever, s.history[q.at], s.reach[q.at]);
    Maintenance.TracedEver(q.got, s.ever, q.basis, a.trace.segments, a.trace.keys);
  }

  /**
   * A fetch that completes, however much of its root was collected while it read, returns the
   * declared run of segments of the log of that one published root.
   */
  lemma FetchedFromOneRoot(states: seq<State>, actions: seq<Action>, i: nat)
    requires Behavior(states, actions) && i < |actions| && actions[i].EndFetch?
    ensures var s, a := states[i], actions[i];
      && ProcOf(s, a.p).Reading?
      && var basis := ProcOf(s, a.p).basis;
      && basis in s.history && ManifestSound(s.ever, basis)
      && Fetching.Answers(Log(s.ever, basis), StartOffset(basis), NextOffset(basis), a.offset, a.budget, a.allow,
                          Ok(a.answer))
  {
    hide Windows, Once, KeysIn, Init, ManifestSound, Fetching.FetchIn, Fetching.Answers;
    EveryState(states, actions, i);
    var s, a, q := states[i], actions[i], ProcOf(states[i], actions[i].p);
    assert Enabled(s, a);
    assert ProcOk(s, q);
    assert Linked(s.ever, s.history[q.at], s.reach[q.at]);
    Fetching.FetchMeans(q.got, s.ever, q.basis, a.offset, a.budget, a.allow);
  }

  /**
   * Whatever part of the store a fetch or a decision gets to read, no read looks corrupt: it fails
   * only on an offset outside the log, on a refused request, or on a missing object, and that only
   * under a root that is superseded.
   */
  lemma OnlyMissing(states: seq<State>, actions: seq<Action>, i: nat, p: nat, part: map<Key, Object>, offset: int,
                    budget: nat, allow: bool, batches: seq<Batch>)
    requires Behavior(states, actions) && i < |states| && HasRoot(ProcOf(states[i], p))
    requires Extends(part, states[i].ever)
    ensures var s, basis := states[i], ProcOf(states[i], p).basis;
      && s.history != [] && ManifestSound(s.ever, basis)
      && var fetched := Fetching.FetchIn(part, basis, offset, budget, allow);
      && var decided := Committing.DecisionIn(part, basis, batches);
      && (fetched.Err? ==> fetched.error in {OffsetOutOfRange, NotFound})
      && (decided == Committing.Decision(s.ever, basis, batches) || decided == Err(NotFound))
      && (part == Store(s) && Current(s) == basis ==>
            && (fetched.Err? ==> fetched.error == OffsetOutOfRange)
            && decided == Committing.Decision(s.ever, basis, batches))
  {
    hide Windows, Once, KeysIn, Init, ManifestSound, Fetching.FetchIn, Fetching.Answers, Committing.DecisionIn,
      Committing.Decision, Enabled;
    EveryState(states, actions, i);
    var s, q := states[i], ProcOf(states[i], p);
    assert ProcOk(s, q);
    assert Linked(s.ever, s.history[q.at], s.reach[q.at]);
    Fetching.FetchMeans(part, s.ever, q.basis, offset, budget, allow);
    Committing.DecisionMeans(part, s.ever, q.basis, batches);
    Readable(s);
  }

  /** If a root of some moment is not sound in what is left of the store, one of its objects is missing. */
  lemma SomethingMissing(s: State, m: Manifest)
    requires ManifestSound(s.ever, m) && !ManifestSound(Store(s), m)
    ensures exists k :: k in KeysIn(s.ever, m) && k !in s.present
  {
    hide ManifestSound, ManifestKeys;
    if forall k :: k in KeysIn(s.ever, m) ==> k in s.present {
      forall k | k in ManifestKeys(s.ever, m) ensures k in Store(s) {
        KeysPresent(s.ever, m, k);
      }
      Restriction.ManifestWithin(s.ever, Store(s), m);
    }
  }

  /** A loaded root that is not sound in what is left has a missing object to be met, and is superseded. */
  lemma UnsoundMeansMiss(states: seq<State>, actions: seq<Action>, i: nat, p: nat)
    requires Behavior(states, actions) && i < |states| && HasRoot(ProcOf(states[i], p))
    ensures var s, basis := states[i], ProcOf(states[i], p).basis;
      && s.history != [] && ManifestSound(s.ever, basis)
      && (!ManifestSound(Store(s), basis) ==> Current(s) != basis && exists k :: Enabled(s, Miss(p, k)))
  {
    hide Windows, Once, KeysIn, Init, ManifestSound;
    EveryState(states, actions, i);
    var s, q := states[i], ProcOf(states[i], p);
    assert ProcOk(s, q);
    assert Linked(s.ever, s.history[q.at], s.reach[q.at]);
    Readable(s);
    if !ManifestSound(Store(s), q.basis) {
      SomethingMissing(s, q.basis);
      var k :| k in KeysIn(s.ever, q.basis) && k !in s.present;
      assert Enabled(s, Miss(p, k));
    }
  }

  /**
   * An append run against the store of any state of any run, from the root its process loaded: it
   * fails only on a refused request, on a full revision counter, or on a missing object, and then the
   * miss is one the protocol knows and the root is superseded. Against the current root nothing is
   * ever missing.
   */
  method AppendAt(ghost states: seq<State>, ghost actions: seq<Action>, ghost i: nat, ghost p: nat, store: ObjectStore,
                  m: Manifest, batches: seq<Batch>, now: nat)
    returns (r: Result<(ProducerWindow.AppendResult, Option<Root>)>)
    requires Behavior(states, actions) && i < |states|
    requires HasRoot(ProcOf(states[i], p)) && ProcOf(states[i], p).basis == m
    requires store.Valid() && store.objects == Store(states[i]) && store.ever == states[i].ever
    requires batches != [] && AllAdmissible(batches)
    modifies store
    ensures states[i].history != [] && ManifestSound(states[i].ever, m)
    ensures var s := states[i];
      var decided := Committing.Decision(s.ever, m, batches);
      && (r.Err? ==>
            || (decided == Err(r.error) && Refusal(r.error))
            || (r.error == RevisionOverflow && decided.Ok? && Revision(m) + |decided.value.additions| > U64_MAX)
            || (r.error == NotFound && Current(s) != m && exists k :: Enabled(s, Miss(p, k))))
      && (r.Ok? && decided.Ok? && decided.value.additions != [] ==>
            && r.value.1.Some?
            && Committing.Continued(s.ever, m, store.ever, r.value.1.value, decided.value, batches, now))
  {
    hide ManifestSound, Committing.Decision, Committing.DecisionIn, Committing.Continued, Behavior, Enabled, Store;
    UnsoundMeansMiss(states, actions, i, p);
    LoadableRoot(store.ever, m);
    r := Committing.PrepareAppend(store, m, batches, now);
  }

  lemma LoadableRoot(objects: map<Key, Object>, m: Manifest)
    requires ManifestSound(objects, m)
    ensures Committing.Loadable(m)
  {
  }

  /** So with a maintenance pass up to its swap: trace, cut and rebuild. */
  method MaintainAt(ghost states: seq<State>, ghost actions: seq<Action>, ghost i: nat, ghost p: nat, store: ObjectStore,
                    inventory: set<Key>, m: Manifest, options: Maintenance.Options, now: nat)
    returns (r: Result<Collection.Pass>)
    requires Behavior(states, actions) && i < |states|
    requires HasRoot(ProcOf(states[i], p)) && ProcOf(states[i], p).basis == m
    requires store.Valid() && store.objects == Store(states[i]) && store.ever == states[i].ever
    modifies store
    ensures states[i].history != [] && ManifestSound(states[i].ever, m)
    ensures var s := states[i];
      && (r.Err? ==>
            || r.error in {MaintenanceBudget, InvalidMaintenance}
            || (r.error == RevisionOverflow && Revision(m) >= U64_MAX)
            || (r.error == NotFound && Current(s) != m && exists k :: Enabled(s, Miss(p, k))))
      && (r.Ok? ==> Maintenance.Trimmed(s.ever, m, store.ever, r.value.root, r.value.expired))
  {
    hide ManifestSound, Maintenance.Trimmed, Behavior, Enabled, Store, Retention.IsCut, Maintenance.Carries,
      Collection.PlannedLive, ManifestKeys, Log;
    UnsoundMeansMiss(states, actions, i, p);
    r := Collection.PreparePass(store, inventory, m, options, now);
  }

  // -------------------------------------------------------------- the chain of roots

  /** Along a run revisions never fall, a new root raises them, and neither log offset moves back. */
  lemma OffsetsRise(states: seq<State>, actions: seq<Action>, i: nat, j: nat)
    requires Behavior(states, actions) && i <= j < |states|
    ensures states[i].history != [] && states[j].history != []
    ensures var m, n := Current(states[i]), Current(states[j]);
      && StartOffset(m) <= StartOffset(n) && NextOffset(m) <= NextOffset(n) && Revision(m) <= Revision(n)
      && (Revision(m) == Revision(n) <==> |states[i].history| == |states[j].history|)
  {
    hide Once, ManifestSound, Init, Linked, Window, Enabled, IndexPages.Run;
    EveryState(states, actions, i);
    EveryState(states, actions, j);
    GrowsRun(states, actions, i, j);
    var t, a, b := states[j], |states[i].history| - 1, |states[j].history| - 1;
    assert t.history[a] == Current(states[i]);
    assert NotBefore(t, a, b);
  }

  /** Every published root holds one window of a single gapless log; the newest one ends where the log does. */
  lemma OneLog(states: seq<State>, actions: seq<Action>, i: nat, n: nat)
    requires Behavior(states, actions) && i < |states| && n < |states[i].history|
    ensures var s := states[i];
      && |s.ledger.starts| == |s.ledger.ends| == |s.history|
      && IndexPages.Run(s.ledger.total, Origin(s))
      && Window(s, n)
      && (n == |s.history| - 1 ==> LogIn(s.ever, s.history[n]) == s.ledger.total[s.ledger.starts[n]..])
  {
    hide Inv, Init, Enabled, Window, IndexPages.Run;
    EveryState(states, actions, i);
    WindowOf(states[i], n);
  }

  lemma WindowOf(s: State, n: nat)
    requires Inv(s) && n < |s.history|
    ensures |s.ledger.starts| == |s.ledger.ends| == |s.history|
    ensures IndexPages.Run(s.ledger.total, Origin(s)) && Window(s, n)
    ensures n == |s.history| - 1 ==> LogIn(s.ever, s.history[n]) == s.ledger.total[s.ledger.starts[n]..]
  {
    hide Once, Safe, NotBefore, IndexPages.Run, IndexPages.EndOffset, LogIn;
    assert Window(s, n);
    assert s.ledger.total[..|s.ledger.total|] == s.ledger.total;
  }

  /** Maintenance keeps the next offset, the producers and the ghost log; an append keeps the start offset. */
  lemma CommitsKeep(states: seq<State>, actions: seq<Action>, i: nat)
    requires Behavior(states, actions) && i < |actions|
    ensures states[i].history != [] && states[i + 1].history != []
    ensures var s, t := states[i], states[i + 1];
      && (actions[i].CommitMaintenance? ==>
            && NextOffset(Current(t)) == NextOffset(Current(s))
            && StatesIn(t.ever, Current(t)) == StatesIn(s.ever, Current(s))
            && t.ledger.total == s.ledger.total && t.ledger.entries == s.ledger.entries)
      && (actions[i].CommitAppend? ==> StartOffset(Current(t)) == StartOffset(Current(s)))
  {
    hide Inv;
    EveryState(states, actions, i);
    assert Enabled(states[i], actions[i]);
    CommitKeeps(states[i], actions[i]);
  }

  lemma CommitKeeps(s: State, a: Action)
    requires Inv(s) && Enabled(s, a)
    ensures var t := Apply(s, a);
      && s.history != [] && t.history != []
      && (a.CommitMaintenance? ==>
            && NextOffset(Current(t)) == NextOffset(Current(s))
            && StatesIn(t.ever, Current(t)) == StatesIn(s.ever, Current(s))
            && t.ledger.total == s.ledger.total && t.ledger.entries == s.ledger.entries)
      && (a.CommitAppend? ==> StartOffset(Current(t)) == StartOffset(Current(s)))
  {
    hide Inv, ManifestSound, Moves, LogIn, StatesIn, KeysIn, After, Acks, Maintenance.Trimmed, Committing.Continued,
      Committing.DecisionIn;
    Started(s);
    var q := ProcOf(s, a.p);
    if a.CommitMaintenance? {
      TrimMoves(s, Widest(s, q.created), q.basis, q.created, a.root, a.cut);
    } else if a.CommitAppend? {
      AppendStart(Widest(s, q.created), q.basis, a.root, Committing.DecisionIn(q.got, q.basis, a.batches).value, a.batches,
                  a.now);
    }
  }

  /**
   * A published pass expired exactly the retention cut of the log that was current at the swap, kept
   * the rest, and left nothing to expire for the same limits and clock.
   */
  lemma RetainsExactly(states: seq<State>, actions: seq<Action>, i: nat)
    requires Behavior(states, actions) && i < |actions| && actions[i].CommitMaintenance?
    ensures states[i].history != [] && states[i + 1].history != []
    ensures var s, t, a := states[i], states[i + 1], actions[i];
      && var log, kept := LogIn(s.ever, Current(s)), LogIn(t.ever, Current(t));
      && Current(t).Indexed?
      && Maintenance.Expires(Current(s), log, a.cut, a.pass.options, a.pass.now, Current(t).root.adoptedAt)
      && Retention.IsCut(log, a.cut, Maintenance.LimitsOf(Current(s), a.pass.options, a.pass.now))
      && kept == log[a.cut..]
      && Retention.IsCut(kept, 0, Maintenance.LimitsOf(Current(t), a.pass.options, a.pass.now))
  {
    hide Windows, Once, Init, ManifestSound, Enabled, Retention.IsCut, LogIn;
    EveryState(states, actions, i);
    assert Enabled(states[i], actions[i]);
    PassExact(states[i], actions[i]);
    PassExpires(states[i], actions[i]);
  }

  lemma PassExpires(s: State, a: Action)
    requires Inv(s) && Enabled(s, a) && a.CommitMaintenance?
    ensures Apply(s, a).history != [] && Current(Apply(s, a)) == Indexed(a.root)
    ensures Maintenance.Expires(Current(s), LogIn(s.ever, Current(s)), a.cut, a.pass.options, a.pass.now, a.root.adoptedAt)
  {
    hide Windows, Once, ManifestSound, LogIn, KeysIn, Maintenance.Trimmed, Maintenance.Traced, Retention.IsCut, Births, Alive,
      Linked, Retention.CutAt;
    var q := ProcOf(s, a.p);
    assert ProcOk(s, q);
    TracedReach(s, q, a.pass.trace);
    Retention.CutMeaning(a.pass.trace.segments, a.cut, Maintenance.LimitsOf(q.basis, a.pass.options, a.pass.now));
  }

  /** The time of adoption, once set, never changes. */
  lemma {:induction false} AdoptionStays(states: seq<State>, actions: seq<Action>, i: nat, j: nat)
    requires Behavior(states, actions) && i <= j < |states|
    ensures states[i].history != [] && states[j].history != []
    ensures var m, n := Current(states[i]), Current(states[j]);
      m.Indexed? && m.root.adoptedAt.Some? ==> n.Indexed? && n.root.adoptedAt == m.root.adoptedAt
    decreases j
  {
    hide Inv, Init, Enabled, Apply;
    EveryState(states, actions, i);
    Started(states[i]);
    if i < j {
      AdoptionStays(states, actions, i, j - 1);
      EveryState(states, actions, j);
      Started(states[j]);
      AdoptionKeeps(states[j - 1], actions[j - 1]);
    }
  }

  lemma AdoptionKeeps(s: State, a: Action)
    requires Enabled(s, a)
    ensures var t := Apply(s, a);
      && t.history != []
      && (Current(s).Indexed? && Current(s).root.adoptedAt.Some? ==>
            Current(t).Indexed? && Current(t).root.adoptedAt == Current(s).root.adoptedAt)
  {
    hide ManifestSound, KeysIn, Honest, Decided, Maintenance.Trimmed, Maintenance.Traced, LogIn, Acks, After,
      Committing.DecisionIn, Fetching.FetchIn, Retention.IsCut, Committing.Spans, RootSound, Committing.NewSegments, Extended;
  }

  lemma PassExact(s: State, a: Action)
    requires Inv(s) && Enabled(s, a) && a.CommitMaintenance?
    ensures var t, log, limits := Apply(s, a), LogIn(s.ever, Current(s)),
                                  Maintenance.LimitsOf(Current(s), a.pass.options, a.pass.now);
      && t.history != [] && Retention.IsCut(log, a.cut, limits) && LogIn(t.ever, Current(t)) == log[a.cut..]
      && Retention.IsCut(log[a.cut..], 0, Maintenance.LimitsOf(Current(t), a.pass.options, a.pass.now))
  {
    hide Windows, Once, ManifestSound, LogIn, Moves, StatesIn, KeysIn, Maintenance.Trimmed, Maintenance.Traced,
      Retention.IsCut, Births, Alive, Linked;
    var q := ProcOf(s, a.p);
    assert ProcOk(s, q);
    TracedReach(s, q, a.pass.trace);
    CutLog(s, a);
    var limits := Maintenance.LimitsOf(q.basis, a.pass.options, a.pass.now);
    Retention.SecondPassKeepsAll(a.pass.trace.segments, a.cut, limits);
  }

  lemma CutLog(s: State, a: Action)
    requires Enabled(s, a) && a.CommitMaintenance?
    ensures a.cut <= |LogIn(s.ever, Current(s))| && LogIn(s.ever, Indexed(a.root)) == LogIn(s.ever, Current(s))[a.cut..]
  {
    hide ManifestSound, Maintenance.Trimmed, Maintenance.Traced, Retention.IsCut, Honest, IndexPages.EndOffset;
    var q := ProcOf(s, a.p);
    TrimMoves(s, Widest(s, q.created), q.basis, q.created, a.root, a.cut);
    var log := Log(s.ever, q.basis);
    assert log[a.cut..] + [] == log[a.cut..];
  }

  lemma AppendStart(view: View, basis: Manifest, root: Root, d: Draft, batches: seq<Batch>, now: nat)
    requires ManifestSound(view.before, basis)
    requires Committing.Continued(view.before, basis, view.after, root, d, batches, now)
    ensures root.startOffset == StartOffset(basis)
  {
  }

  // -------------------------------------------------------------- exactly once

  /**
   * In every state: each acknowledged batch is in the log at the offsets it was acknowledged with;
   * the k-th batch ever logged for a producer epoch starts at the sum of the counts before it,
   * modulo 2^31; and the logged batches are the committed segments, one for one and in order.
   */
  lemma ExactlyOnce(states: seq<State>, actions: seq<Action>, i: nat, producer: int, epoch: int, k: nat)
    requires Behavior(states, actions) && i < |states| && producer >= 0
    requires k < |EpochLog(states[i].ledger.entries, producer, epoch)|
    ensures var l := states[i].ledger;
      && AllLogged(l.entries, l.acked)
      && l.ends != [] && Matching(l.total, l.ends[0], l.entries)
      && var batches := EpochLog(l.entries, producer, epoch);
      && batches[k].sequence == ProducerWindow.Records(batches[..k]) % ProducerWindow.SEQUENCES
  {
    hide Windows, Safe, AllLogged, Matching, Init, EpochLog, Enabled;
    EveryState(states, actions, i);
    FaithfulNow(states[i]);
    var batches := EpochLog(states[i].ledger.entries, producer, epoch);
    assert Chained(batches);
    ChainedAt(batches, k);
  }

  /** No run logs a batch of a producer epoch twice: a sequence number recurs only 2^31 records later. */
  lemma NeverTwice(states: seq<State>, actions: seq<Action>, i: nat, producer: int, epoch: int, j: nat, k: nat)
    requires Behavior(states, actions) && i < |states| && producer >= 0
    requires var batches := EpochLog(states[i].ledger.entries, producer, epoch);
      j < k < |batches| && batches[j].sequence == batches[k].sequence
    ensures var batches := EpochLog(states[i].ledger.entries, producer, epoch);
      ProducerWindow.Records(batches[j..k]) >= ProducerWindow.SEQUENCES
  {
    hide Safe, AllLogged, Init, EpochLog, Enabled, Window, NotBefore, Matching, FaithfulAt, IndexPages.Run;
    EveryState(states, actions, i);
    FaithfulNow(states[i]);
    var batches := EpochLog(states[i].ledger.entries, producer, epoch);
    assert Chained(batches);
    CountsPositive(states[i], producer, epoch);
    NoDuplicates(batches, j, k);
  }

  /**
   * Two acknowledgements of one sequence number of a producer epoch name the same batch with the
   * same content at the same offsets, unless the sequence numbers wrapped around in between.
   */
  lemma OneAnswer(states: seq<State>, actions: seq<Action>, i: nat, x: Ack, y: Ack) returns (j: nat, k: nat)
    requires Behavior(states, actions) && i < |states|
    requires x in states[i].ledger.acked && y in states[i].ledger.acked
    requires x.batch.producer == y.batch.producer >= 0 && x.batch.epoch == y.batch.epoch
    requires x.batch.sequence == y.batch.sequence
    ensures var batches := EpochLog(states[i].ledger.entries, x.batch.producer, x.batch.epoch);
      && j < |batches| && k < |batches|
      && batches[j] == BatchIdentity(x.batch.sequence, x.batch.count, x.result.baseOffset, x.batch.fingerprint)
      && batches[k] == BatchIdentity(y.batch.sequence, y.batch.count, y.result.baseOffset, y.batch.fingerprint)
      && (j == k ==> x.result == y.result)
      && (j < k ==> ProducerWindow.Records(batches[j..k]) >= ProducerWindow.SEQUENCES)
      && (k < j ==> ProducerWindow.Records(batches[k..j]) >= ProducerWindow.SEQUENCES)
  {
    hide Safe, Init, EpochLog, Enabled, Windows, Faithful, Matching, FaithfulAt, ProducerWindow.Records;
    EveryState(states, actions, i);
    var l, producer, epoch := states[i].ledger, x.batch.producer, x.batch.epoch;
    j := AckPlace(l.entries, l.acked, x);
    k := AckPlace(l.entries, l.acked, y);
    if j < k {
      NeverTwice(states, actions, i, producer, epoch, j, k);
    } else if k < j {
      NeverTwice(states, actions, i, producer, epoch, k, j);
    }
  }

  lemma EntriesGrow(s: State, a: Action)
    requires Enabled(s, a)
    ensures s.ledger.entries <= Apply(s, a).ledger.entries
  {
    hide ManifestSound, KeysIn, Honest, Decided, Committing.Continued, Maintenance.Trimmed, Maintenance.Traced, LogIn,
      Committing.DecisionIn, Acks, After, Fetching.FetchIn, Retention.IsCut, Maintenance.Carries, Committing.Spans;
  }

  lemma {:induction false} EntriesKept(states: seq<State>, actions: seq<Action>, i: nat, j: nat)
    requires Behavior(states, actions) && i <= j < |states|
    ensures states[i].ledger.entries <= states[j].ledger.entries
    decreases j
  {
    hide Init, Enabled, Apply;
    if i < j {
      EntriesKept(states, actions, i, j - 1);
      EntriesGrow(states[j - 1], actions[j - 1]);
    }
  }

  lemma {:induction false} AcksAt(batches: seq<Batch>, results: seq<ProducerWindow.AppendResult>, n: nat)
    requires n < |batches| == |results|
    ensures Ack(batches[n], results[n]) in Acks(batches, results)
    decreases n
  {
    if n > 0 {
      AcksAt(batches[1..], results[1..], n - 1);
    }
  }

  /** The batches and the reply of a request that was answered, with or without a swap. */
  ghost predicate Replied(a: Action, batches: seq<Batch>, reply: ProducerWindow.AppendResult) {
    (a.CommitAppend? || a.AnswerRetry?) && batches == a.batches && reply == a.reply
  }

  /** The acknowledgements that an answered request adds. */
  lemma RepliedAcks(s: State, a: Action) returns (results: seq<ProducerWindow.AppendResult>)
    requires Inv(s) && Enabled(s, a) && (a.CommitAppend? || a.AnswerRetry?)
    ensures a.batches != [] && |results| == |a.batches| && Committing.Spans(results, a.reply)
    ensures forall ack :: ack in Acks(a.batches, results) ==> ack in Apply(s, a).ledger.acked
  {
    hide Windows, Once, ManifestSound, KeysIn, Births, Alive, Linked, Honest, Committing.Continued, LogIn, After, Acks,
      Committing.DecisionIn;
    var q := ProcOf(s, a.p);
    assert ProcOk(s, q);
    Started(s);
    results := Committing.DecisionIn(q.got, q.basis, a.batches).value.results;
    DecidedAsWhole(s, q, a.batches);
    Committing.ResultPerBatch(StatesIn(s.ever, q.basis), Appending.OpenDraft(NextOffset(q.basis)), a.batches);
  }

  /**
   * Every reply names the log: from the step it is given, in every later state, it begins at the
   * logged offset of the request's first batch and ends at that of its last.
   */
  lemma RepliesLogged(states: seq<State>, actions: seq<Action>, i: nat, j: nat, batches: seq<Batch>,
                      reply: ProducerWindow.AppendResult)
    requires Behavior(states, actions) && i < |actions| && i < j < |states| && Replied(actions[i], batches, reply)
    ensures batches != []
    ensures var entries, first, last := states[j].ledger.entries, batches[0], batches[|batches| - 1];
      && LoggedAs(entries, first, ProducerWindow.AppendResult(reply.baseOffset, reply.baseOffset + first.count - 1))
      && LoggedAs(entries, last, ProducerWindow.AppendResult(reply.lastOffset - last.count + 1, reply.lastOffset))
  {
    hide Windows, Safe, Init, Enabled, Apply, Matching, FaithfulAt, Acks;
    EveryState(states, actions, i);
    EveryState(states, actions, i + 1);
    var results := RepliedAcks(states[i], actions[i]);
    EntriesKept(states, actions, i + 1, j);
    FirstLogged(states[i + 1].ledger.entries, states[j].ledger.entries, states[i + 1].ledger.acked, batches, results, 0);
    FirstLogged(states[i + 1].ledger.entries, states[j].ledger.entries, states[i + 1].ledger.acked, batches, results,
                |batches| - 1);
  }

  lemma FirstLogged(entries: seq<Entry>, later: seq<Entry>, acked: seq<Ack>, batches: seq<Batch>,
                    results: seq<ProducerWindow.AppendResult>, n: nat)
    requires AllLogged(entries, acked) && entries <= later && n < |batches| == |results|
    requires forall ack :: ack in Acks(batches, results) ==> ack in acked
    ensures LoggedAs(later, batches[n], results[n])
  {
    hide Acks;
    AcksAt(batches, results, n);
  }

  lemma AckPlace(entries: seq<Entry>, acks: seq<Ack>, x: Ack) returns (j: nat)
    requires AllLogged(entries, acks) && x in acks
    ensures var batches := EpochLog(entries, x.batch.producer, x.batch.epoch);
      && j < |batches| && x.result.lastOffset == x.result.baseOffset + x.batch.count - 1
      && batches[j] == BatchIdentity(x.batch.sequence, x.batch.count, x.result.baseOffset, x.batch.fingerprint)
  {
    hide EpochLog;
    var identity := BatchIdentity(x.batch.sequence, x.batch.count, x.result.baseOffset, x.batch.fingerprint);
    EpochLogHas(entries, x.batch.producer, x.batch.epoch, identity);
    j :| 0 <= j < |EpochLog(entries, x.batch.producer, x.batch.epoch)|
      && EpochLog(entries, x.batch.producer, x.batch.epoch)[j] == identity;
  }

  /** Logged batches are committed segments, which are never empty. */
  lemma CountsPositive(s: State, producer: int, epoch: int)
    requires Windows(s) && Once(s)
    ensures forall n :: 0 <= n < |EpochLog(s.ledger.entries, producer, epoch)| ==>
      EpochLog(s.ledger.entries, producer, epoch)[n].count > 0
  {
    hide EpochLog, AllLogged, Window, NotBefore, FaithfulAt, IndexPages.Run;
    var l := s.ledger;
    var batches := EpochLog(l.entries, producer, epoch);
    forall n | 0 <= n < |batches| ensures batches[n].count > 0 {
      InEpochLog(l.entries, producer, epoch, batches[n]);
      var m :| 0 <= m < |l.entries| && l.entries[m] == Entry(producer, epoch, batches[n]);
      Selections.RunElement(l.total, Origin(s), l.ends[0] + m);
    }
  }
}
