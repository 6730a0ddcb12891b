/**
 * Appenders, readers and collectors over one object store and one compare-and-swap root.
 *
 * Every atomic store operation is one action, and actions of any number of processes interleave
 * freely; a crash or a lost reply is an action too. The fields `birth`, `reach` and `ledger` are
 * history variables: no process reads them.
 */
module Protocol {
  import opened LogTypes
  import opened ObjectStores
  import opened Manifests
  import opened Idempotence
  import Committing
  import Maintenance
  import Retention
  import Fetching
  import Restriction
  import ProducerWindow

  // -------------------------------------------------------------- states

  datatype Proc =
    | Idle
    | Reading(basis: Manifest, at: nat, got: map<Key, Object>)
    | Appending(basis: Manifest, at: nat, got: map<Key, Object>, created: set<Key>)
    | Listing(inventory: set<Key>)
    | Planning(basis: Manifest, at: nat, inventory: set<Key>, got: map<Key, Object>, created: set<Key>)
    | Tracing(basis: Manifest, at: nat, inventory: set<Key>, got: map<Key, Object>)
    | Deleting(at: nat, doomed: set<Key>)
    | Stale(basis: Manifest, at: nat)
    | Failed

  datatype Ack = Ack(batch: Batch, result: ProducerWindow.AppendResult)

  /** Every segment ever committed and each root's window of it; every batch ever logged, and every reply. */
  datatype Ledger = Ledger(
    total: seq<Segment>,
    starts: seq<nat>,
    ends: seq<nat>,
    entries: seq<Entry>,
    counts: seq<nat>,
    acked: seq<Ack>)

  /**
   * `ever` holds every object ever created (objects are immutable), `present` the keys not yet
   * deleted, `history` the published manifests; `birth` is the number of manifests published when
   * an object was created, and `reach` the keys each published manifest reaches.
   */
  datatype State = State(
    ever: map<Key, Object>,
    present: set<Key>,
    birth: map<Key, nat>,
    history: seq<Manifest>,
    reach: seq<set<Key>>,
    procs: map<nat, Proc>,
    ledger: Ledger)

  function ProcOf(s: State, p: nat): Proc {
    if p in s.procs then s.procs[p] else Idle
  }

  function Current(s: State): Manifest
    requires s.history != []
  {
    s.history[|s.history| - 1]
  }

  /** The objects a read can find. */
  function Store(s: State): map<Key, Object> {
    map k | k in s.present && k in s.ever :: s.ever[k]
  }

  ghost function KeysIn(objects: map<Key, Object>, m: Manifest): set<Key> {
    if ManifestSound(objects, m) then ManifestKeys(objects, m) else {}
  }

  ghost function LogIn(objects: map<Key, Object>, m: Manifest): seq<Segment> {
    if ManifestSound(objects, m) then Log(objects, m) else []
  }

  ghost function StatesIn(objects: map<Key, Object>, m: Manifest): Directory {
    if ManifestSound(objects, m) then ManifestStates(objects, m) else map[]
  }

  // -------------------------------------------------------------- actions

  /** What there was of the immutable objects when an operation began, and by its end. */
  datatype View = View(before: map<Key, Object>, after: map<Key, Object>)

  /** What a maintenance pass worked from: its trace of the root it loaded, its limits and its clock reading. */
  datatype Pass = Pass(trace: Maintenance.Trace, options: Maintenance.Options, now: nat)

  datatype Action =
    | BeginFetch(p: nat)
    | BeginAppend(p: nat)
    | BeginList(p: nat)
    | ListKey(p: nat, k: Key)
    | EndList(p: nat)
    | Read(p: nat, k: Key)
    | Miss(p: nat, k: Key)
    | Verdict(p: nat)
    | Put(p: nat, k: Key, body: Object)
    | CommitAppend(p: nat, root: Root, batches: seq<Batch>, now: nat, reply: ProducerWindow.AppendResult)
    | AnswerRetry(p: nat, batches: seq<Batch>, reply: ProducerWindow.AppendResult)
    | EndFetch(p: nat, offset: int, budget: nat, allow: bool, answer: Fetching.Fetched)
    | CommitMaintenance(p: nat, root: Root, cut: nat, pass: Pass)
    | EndTrace(p: nat, trace: Maintenance.Trace)
    | Delete(p: nat, k: Key)
    | Crash(p: nat)

  predicate HasRoot(q: Proc) {
    q.Reading? || q.Appending? || q.Planning? || q.Tracing?
  }

  /** The objects an attempt has put and may read again. */
  function OwnKeys(q: Proc): set<Key> {
    if q.Appending? || q.Planning? then q.created else {}
  }

  /** The widest view a process can have had: all there is, less what it created itself, and then with it. */
  function Widest(s: State, created: set<Key>): View {
    View(map k | k in s.ever && k !in created :: s.ever[k], s.ever)
  }

  /** The view is of objects that exist, and it added only what the process itself created. */
  ghost predicate Honest(s: State, view: View, basis: Manifest, created: set<Key>) {
    && ManifestSound(view.before, basis)
    && Extends(view.before, view.after) && Extends(view.after, s.ever)
    && Created(view.before, view.after) <= created
  }

  /** The request is decided from what the process has read (see Committing.PrepareAppend). */
  ghost predicate Decided(got: map<Key, Object>, basis: Manifest, batches: seq<Batch>) {
    && batches != [] && AllAdmissible(batches)
    && Committing.DecisionIn(got, basis, batches).Ok?
  }

  ghost predicate Enabled(s: State, a: Action) {
    && s.history != []
    && var q := ProcOf(s, a.p);
    match a
    case BeginFetch(_) => q.Idle?
    case BeginAppend(_) => q.Idle?
    case BeginList(_) => q.Idle?
    case ListKey(_, k) => q.Listing? && k in s.present
    case EndList(_) => q.Listing?
    case Read(_, k) => HasRoot(q) && k in s.present
    case Miss(_, k) => HasRoot(q) && (k in KeysIn(s.ever, q.basis) || k in OwnKeys(q)) && k !in s.present
    case Verdict(_) => q.Stale?
    case Put(_, k, _) => (q.Appending? || q.Planning?) && k !in s.ever
    case CommitAppend(_, root, batches, now, reply) =>
      && q.Appending? && Current(s) == q.basis
      && Decided(q.got, q.basis, batches)
      && var view, d := Widest(s, q.created), Committing.DecisionIn(q.got, q.basis, batches).value;
      && Honest(s, view, q.basis, q.created)
      && d.additions != [] && Committing.Spans(d.results, reply)
      && Committing.Continued(view.before, q.basis, view.after, root, d, batches, now)
    case AnswerRetry(_, batches, reply) =>
      && q.Appending? && Decided(q.got, q.basis, batches)
      && Committing.DecisionIn(q.got, q.basis, batches).value.additions == []
      && Committing.Spans(Committing.DecisionIn(q.got, q.basis, batches).value.results, reply)
    case EndFetch(_, offset, budget, allow, answer) =>
      && q.Reading?
      && Fetching.FetchIn(q.got, q.basis, offset, budget, allow) == Ok(answer)
    case CommitMaintenance(_, root, cut, pass) =>
      && q.Planning? && Current(s) == q.basis
      && Maintenance.Traced(q.got, q.basis, pass.trace.segments, pass.trace.keys)
      && Retention.IsCut(pass.trace.segments, cut, Maintenance.LimitsOf(q.basis, pass.options, pass.now))
      && var view := Widest(s, q.created);
      && Honest(s, view, q.basis, q.created)
      && Maintenance.Trimmed(view.before, q.basis, view.after, root, cut)
      && Maintenance.Carries(q.basis, root, cut, pass.now)
    case EndTrace(_, trace) => q.Tracing? && Maintenance.Traced(q.got, q.basis, trace.segments, trace.keys)
    case Delete(_, k) => q.Deleting? && k in q.doomed
    case Crash(_) => !q.Failed?
  }

  function Acks(batches: seq<Batch>, results: seq<ProducerWindow.AppendResult>): seq<Ack> {
    if batches == [] || results == [] then [] else [Ack(batches[0], results[0])] + Acks(batches[1..], results[1..])
  }

  function After(segments: seq<Segment>, n: nat): seq<Segment> {
    if n <= |segments| then segments[n..] else []
  }

  /** One more window: the log kept from `cut` on, then `extra`. */
  function Extended(l: Ledger, cut: nat, extra: seq<Segment>, added: seq<Entry>, acks: seq<Ack>): Ledger
    requires l.starts != []
  {
    Ledger(l.total + extra,
           l.starts + [l.starts[|l.starts| - 1] + cut],
           l.ends + [|l.total| + |extra|],
           l.entries + added,
           l.counts + [|l.entries| + |added|],
           l.acked + acks)
  }

  function With(s: State, p: nat, q: Proc): State {
    s.(procs := s.procs[p := q])
  }

  ghost function Apply(s: State, a: Action): State
    requires Enabled(s, a)
  {
    var q := ProcOf(s, a.p);
    var last := |s.history| - 1;
    match a
    case BeginFetch(p) => With(s, p, Reading(Current(s), last, map[]))
    case BeginAppend(p) => With(s, p, Appending(Current(s), last, map[], {}))
    case BeginList(p) => With(s, p, Listing({}))
    case ListKey(p, k) => With(s, p, Listing(q.inventory + {k}))
    case EndList(p) => With(s, p, Planning(Current(s), last, q.inventory, map[], {}))
    case Read(p, k) => With(s, p, if k in s.ever then q.(got := q.got[k := s.ever[k]]) else q)
    case Miss(p, _) => With(s, p, Stale(q.basis, q.at))
    case Verdict(p) => With(s, p, if Current(s) == q.basis then Failed else Idle)
    case Put(p, k, body) =>
      With(s.(ever := s.ever[k := body], present := s.present + {k}, birth := s.birth[k := |s.history|]), p,
           q.(created := q.created + {k}))
    case CommitAppend(p, root, batches, _, _) =>
      var d := Committing.DecisionIn(q.got, q.basis, batches).value;
      Publish(s, p, root, Idle, 0, After(LogIn(s.ever, Indexed(root)), |LogIn(s.ever, q.basis)|), d.additions,
              Acks(batches, d.results))
    case AnswerRetry(p, batches, _) =>
      var d := Committing.DecisionIn(q.got, q.basis, batches).value;
      With(s.(ledger := s.ledger.(acked := s.ledger.acked + Acks(batches, d.results))), p, Idle)
    case EndFetch(p, _, _, _, _) => With(s, p, Idle)
    case CommitMaintenance(p, root, cut, _) =>
      Publish(s, p, root, Tracing(Indexed(root), |s.history|, q.inventory, map[]), cut, [], [], [])
    case EndTrace(p, trace) => With(s, p, Deleting(q.at, q.inventory - trace.keys))
    case Delete(p, k) => With(s.(present := s.present - {k}), p, q.(doomed := q.doomed - {k}))
    case Crash(p) => With(s, p, Idle)
  }

  ghost function Publish(s: State, p: nat, root: Root, q: Proc, cut: nat, extra: seq<Segment>, added: seq<Entry>,
                         acks: seq<Ack>): State
  {
    With(s.(history := s.history + [Indexed(root)],
            reach := s.reach + [KeysIn(s.ever, Indexed(root))],
            ledger := if s.ledger.starts == [] then s.ledger else Extended(s.ledger, cut, extra, added, acks)), p, q)
  }

  // -------------------------------------------------------------- the invariant

  /** Every published manifest is sound, and revisions strictly rise. */
  ghost predicate Chain(s: State) {
    && s.history != [] && |s.reach| == |s.history|
    && (forall i :: 0 <= i < |s.history| ==> Linked(s.ever, s.history[i], s.reach[i]))
    && (forall i, j :: 0 <= i < j < |s.history| ==> Revision(s.history[i]) < Revision(s.history[j]))
  }

  ghost predicate Linked(ever: map<Key, Object>, m: Manifest, keys: set<Key>) {
    ManifestSound(ever, m) && keys == ManifestKeys(ever, m)
  }

  /** A key new in manifest i was created while manifest i - 1 was current. */
  ghost predicate Births(s: State) {
    && s.history != [] && |s.reach| == |s.history|
    && s.birth.Keys == s.ever.Keys && s.present <= s.ever.Keys
    && (forall k :: k in s.birth ==> s.birth[k] <= |s.history|)
    && (forall k :: k in s.birth && s.birth[k] == |s.history| ==> k in s.present)
    && (forall i :: 0 < i < |s.reach| ==> Introduces(s, i))
    && (forall k :: k in s.reach[0] ==> k in s.birth && s.birth[k] == 0)
  }

  ghost predicate Introduces(s: State, i: nat)
    requires 0 < i < |s.reach|
  {
    forall k :: k in s.reach[i] && k !in s.reach[i - 1] ==> k in s.birth && s.birth[k] == i
  }

  /** Everything the current root reaches is present. */
  ghost predicate Alive(s: State) {
    s.reach != [] && s.reach[|s.reach| - 1] <= s.present
  }

  predicate At(s: State, m: Manifest, at: nat) {
    at < |s.history| && s.history[at] == m
  }

  predicate BornBy(s: State, keys: set<Key>, limit: nat) {
    forall k :: k in keys ==> k in s.birth && s.birth[k] <= limit
  }

  predicate BornAfter(s: State, keys: set<Key>, limit: nat) {
    forall k :: k in keys ==> k in s.birth && s.birth[k] > limit
  }

  /** What each process may rely on. */
  ghost predicate ProcOk(s: State, q: Proc) {
    match q
    case Idle => true
    case Reading(basis, at, got) => At(s, basis, at) && Extends(got, s.ever)
    case Appending(basis, at, got, created) => At(s, basis, at) && Extends(got, s.ever) && BornAfter(s, created, at)
    case Listing(inventory) => BornBy(s, inventory, |s.history|)
    case Planning(basis, at, inventory, got, created) =>
      At(s, basis, at) && Extends(got, s.ever) && BornAfter(s, created, at) && BornBy(s, inventory, at + 1)
    case Tracing(basis, at, inventory, got) => At(s, basis, at) && Extends(got, s.ever) && BornBy(s, inventory, at)
    case Deleting(at, doomed) => at < |s.reach| && BornBy(s, doomed, at) && doomed !! s.reach[at]
    case Stale(basis, at) => At(s, basis, at) && at + 1 < |s.history|
    case Failed => false
  }

  ghost predicate Procs(s: State) {
    forall p :: p in s.procs ==> ProcOk(s, s.procs[p])
  }

  ghost predicate Safe(s: State) {
    Chain(s) && Births(s) && Alive(s) && Procs(s)
  }

  // -------------------------------------------------------------- the collection argument

  /** A key that predates manifest i and is not reached by it is never reached again. */
  lemma {:induction false} NeverReturns(s: State, k: Key, i: nat, j: nat)
    requires Births(s) && i <= j < |s.reach| && k in s.birth && s.birth[k] <= i && k !in s.reach[i]
    ensures k !in s.reach[j]
    decreases j
  {
    if i < j {
      NeverReturns(s, k, i, j - 1);
      assert Introduces(s, j);
    }
  }

  /** Two manifests with one content are one manifest: nothing was published in between. */
  lemma NoRepeat(s: State, m: Manifest, at: nat)
    requires Chain(s) && At(s, m, at) && Current(s) == m
    ensures at == |s.history| - 1
  {
    hide Linked;
  }

  /**
   * Neither a key the current root reaches nor an object put under it can be missing, so a missing
   * one proves that the attempt's root is superseded.
   */
  lemma MissedMeansStale(s: State, q: Proc, k: Key)
    requires Chain(s) && Births(s) && Alive(s) && HasRoot(q) && ProcOk(s, q)
    requires (k in KeysIn(s.ever, q.basis) || k in OwnKeys(q)) && k !in s.present
    ensures q.at + 1 < |s.history|
  {
    assert Linked(s.ever, s.history[q.at], s.reach[q.at]);
  }

  // -------------------------------------------------------------- stability

  /** The durable part of the state only grows. */
  ghost predicate Grows(s: State, t: State) {
    && Extends(s.ever, t.ever)
    && (forall k :: k in s.birth ==> k in t.birth && t.birth[k] == s.birth[k])
    && s.history <= t.history && s.reach <= t.reach && |t.reach| == |t.history|
  }

  lemma ProcStable(s: State, t: State, q: Proc)
    requires ProcOk(s, q) && Grows(s, t) && |s.reach| == |s.history|
    ensures ProcOk(t, q)
  {
  }

  lemma ProcsExcept(s: State, t: State, p: nat)
    requires Procs(s) && Grows(s, t) && |s.reach| == |s.history|
    requires t.procs.Keys <= s.procs.Keys + {p} && p in t.procs
    requires forall o :: o in t.procs && o != p ==> o in s.procs && t.procs[o] == s.procs[o]
    requires ProcOk(t, t.procs[p])
    ensures Procs(t)
  {
    hide ProcOk, Grows;
    forall o | o in t.procs ensures ProcOk(t, t.procs[o]) {
      if o != p {
        assert ProcOk(s, s.procs[o]);
        ProcStable(s, t, s.procs[o]);
      }
    }
  }

  // -------------------------------------------------------------- steps that only move a process

  predicate Local(a: Action) {
    !(a.Put? || a.CommitAppend? || a.CommitMaintenance? || a.Delete? || a.AnswerRetry?)
  }

  lemma LocalProc(s: State, a: Action)
    requires Safe(s) && Enabled(s, a) && Local(a)
    ensures ProcOk(Apply(s, a), Apply(s, a).procs[a.p])
  {
    hide Linked, KeysIn, ManifestSound, Honest, Decided, Committing.Continued, Maintenance.Trimmed, Maintenance.Traced,
      Births, Chain, Alive, Fetching.FetchIn, Committing.DecisionIn;
    var q := ProcOf(s, a.p);
    assert ProcOk(s, q);
    SomeRoot(s);
    match a
    case Miss(_, k) => MissedMeansStale(s, q, k);
    case Verdict(_) => VerdictOk(s, q);
    case EndTrace(_, trace) => DoomedOk(s, q, trace);
    case _ =>
  }

  lemma SomeRoot(s: State)
    requires Safe(s)
    ensures s.history != [] && |s.reach| == |s.history|
    ensures forall k :: k in s.present ==> k in s.birth
    ensures forall k :: k in s.birth ==> s.birth[k] <= |s.history|
  {
  }

  /** The comparison after a missing object always finds another root. */
  lemma VerdictOk(s: State, q: Proc)
    requires Safe(s) && q.Stale? && ProcOk(s, q)
    ensures Current(s) != q.basis
  {
    hide Linked;
    Superseded(s, q.basis, q.at);
  }

  lemma Superseded(s: State, m: Manifest, at: nat)
    requires Chain(s) && At(s, m, at) && at + 1 < |s.history|
    ensures Current(s) != m
  {
    hide Linked;
    assert Revision(s.history[at]) < Revision(s.history[|s.history| - 1]);
  }

  /** What a complete trace of an old or new root did not find, that root does not reach. */
  lemma DoomedOk(s: State, q: Proc, trace: Maintenance.Trace)
    requires Safe(s) && q.Tracing? && ProcOk(s, q)
    requires Maintenance.Traced(q.got, q.basis, trace.segments, trace.keys)
    ensures ProcOk(s, Deleting(q.at, q.inventory - trace.keys))
  {
    hide Linked, KeysIn, Maintenance.Traced;
    TracedReach(s, q, trace);
  }

  /** Objects are immutable, so a trace made of reads at any times finds exactly what its root reaches. */
  lemma TracedReach(s: State, q: Proc, trace: Maintenance.Trace)
    requires Chain(s) && HasRoot(q) && ProcOk(s, q)
    requires Maintenance.Traced(q.got, q.basis, trace.segments, trace.keys)
    ensures q.at < |s.reach| && trace.keys == s.reach[q.at] == KeysIn(s.ever, q.basis)
    ensures trace.segments == LogIn(s.ever, q.basis)
  {
    hide Maintenance.Traced, ManifestSound;
    assert Linked(s.ever, s.history[q.at], s.reach[q.at]);
    Maintenance.TracedEver(q.got, s.ever, q.basis, trace.segments, trace.keys);
  }

  lemma LinkedKeys(ever: map<Key, Object>, m: Manifest, keys: set<Key>)
    requires Linked(ever, m, keys)
    ensures keys == KeysIn(ever, m)
  {
  }

  lemma SameDurable(s: State, t: State)
    requires Chain(s) && t.ever == s.ever && t.history == s.history && t.reach == s.reach
    ensures Chain(t)
  {
    hide Linked;
  }

  lemma LocalStep(s: State, a: Action)
    requires Safe(s) && Enabled(s, a) && Local(a)
    ensures Safe(Apply(s, a))
  {
    hide Enabled, ProcOk, Linked;
    LocalProc(s, a);
    LocalFrame(s, a);
    var t := Apply(s, a);
    SameDurable(s, t);
    SameBirths(s, t);
    ProcsExcept(s, t, a.p);
  }

  lemma LocalFrame(s: State, a: Action)
    requires Enabled(s, a) && Local(a)
    ensures var t := Apply(s, a);
      t == s.(procs := s.procs[a.p := t.procs[a.p]])
  {
    hide KeysIn, ManifestSound, Honest, Decided, Committing.Continued, Maintenance.Trimmed, Maintenance.Traced,
      Fetching.FetchIn, Committing.DecisionIn;
  }

  // -------------------------------------------------------------- creating and deleting

  lemma ChainLater(s: State, t: State)
    requires Chain(s) && Extends(s.ever, t.ever) && t.history == s.history && t.reach == s.reach
    ensures Chain(t)
  {
    hide ManifestSound;
    forall i | 0 <= i < |t.history| ensures Linked(t.ever, t.history[i], t.reach[i]) {
      assert Linked(s.ever, s.history[i], s.reach[i]);
      ManifestFrame(s.ever, t.ever, s.history[i]);
    }
  }

  lemma Dated(s: State)
    requires Births(s)
    ensures s.birth.Keys == s.ever.Keys
  {
  }

  lemma PutStep(s: State, a: Action)
    requires Safe(s) && Enabled(s, a) && a.Put?
    ensures Safe(Apply(s, a))
  {
    hide Linked, Chain, Births, Alive, ProcOk;
    var t := Apply(s, a);
    var q := ProcOf(s, a.p);
    assert ProcOk(s, q);
    SomeRoot(s);
    Dated(s);
    ChainLater(s, t);
    PutBirths(s, t, a.k);
    PutProc(s, t, q, a.k);
    ProcsExcept(s, t, a.p);
  }

  lemma PutProc(s: State, t: State, q: Proc, k: Key)
    requires (q.Appending? || q.Planning?) && ProcOk(s, q) && k !in s.birth
    requires t.birth == s.birth[k := |s.history|] && t.history == s.history && t.reach == s.reach
    requires Extends(s.ever, t.ever)
    ensures ProcOk(t, q.(created := q.created + {k}))
  {
  }

  lemma PutBirths(s: State, t: State, k: Key)
    requires Births(s) && Alive(s) && k !in s.ever && k in t.ever
    requires t.ever.Keys == s.ever.Keys + {k} && t.present == s.present + {k} && t.birth == s.birth[k := |s.history|]
    requires t.history == s.history && t.reach == s.reach
    ensures Births(t) && Alive(t)
  {
    forall i | 0 < i < |t.reach| ensures Introduces(t, i) {
      assert Introduces(s, i);
    }
  }

  lemma DoomedFacts(s: State, a: Action)
    requires Safe(s) && a.Delete? && Enabled(s, a)
    ensures var q := ProcOf(s, a.p);
      q.Deleting? && q.at < |s.reach| && a.k in s.birth && s.birth[a.k] <= q.at && a.k !in s.reach[q.at]
  {
    hide Chain, Births, Alive;
    assert ProcOk(s, ProcOf(s, a.p));
  }

  /** A deletion never touches what the current root reaches, nor anything a later root may still reach. */
  lemma DeleteStep(s: State, a: Action)
    requires Safe(s) && Enabled(s, a) && a.Delete?
    ensures Safe(Apply(s, a))
    ensures forall j :: ProcOf(s, a.p).at <= j < |s.reach| ==> a.k !in s.reach[j]
  {
    hide Linked, Chain, Births, Alive, ProcOk;
    var t := Apply(s, a);
    var q := ProcOf(s, a.p);
    SomeRoot(s);
    DoomedFacts(s, a);
    ChainLater(s, t);
    forall j | q.at <= j < |s.reach| ensures a.k !in s.reach[j] {
      NeverReturns(s, a.k, q.at, j);
    }
    DeleteBirths(s, t, a.k, q.at);
    assert ProcOk(s, q);
    StillDoomed(s, t, q, a.k);
    ProcsExcept(s, t, a.p);
  }

  lemma StillDoomed(s: State, t: State, q: Proc, k: Key)
    requires q.Deleting? && ProcOk(s, q) && t.birth == s.birth && t.reach == s.reach
    ensures ProcOk(t, q.(doomed := q.doomed - {k}))
  {
  }

  lemma DeleteBirths(s: State, t: State, k: Key, at: nat)
    requires Births(s) && Alive(s) && k in s.birth && s.birth[k] <= at < |s.reach|
    requires k !in s.reach[|s.reach| - 1]
    requires t == s.(present := s.present - {k}, procs := t.procs)
    ensures Births(t) && Alive(t)
  {
    forall i | 0 < i < |t.reach| ensures Introduces(t, i) {
      assert Introduces(s, i);
    }
  }

  lemma SameBirths(s: State, t: State)
    requires Births(s) && Alive(s) && t.present == s.present && t.birth == s.birth
    requires t.ever == s.ever && t.history == s.history && t.reach == s.reach
    ensures Births(t) && Alive(t)
  {
    forall i | 0 < i < |t.reach| ensures Introduces(t, i) {
      assert Introduces(s, i);
    }
  }

  lemma AnswerStep(s: State, a: Action)
    requires Safe(s) && Enabled(s, a) && a.AnswerRetry?
    ensures Safe(Apply(s, a))
  {
    hide Linked, Chain, Births, Alive, Committing.DecisionIn;
    var t := Apply(s, a);
    SomeRoot(s);
    ChainLater(s, t);
    SameBirths(s, t);
    ProcsExcept(s, t, a.p);
  }

  // -------------------------------------------------------------- publishing

  /** What both kinds of swap guarantee about the new root. */
  ghost predicate Succeeds(s: State, basis: Manifest, created: set<Key>, root: Root) {
    && ManifestSound(s.ever, basis) && ManifestSound(s.ever, Indexed(root))
    && ManifestKeys(s.ever, Indexed(root)) <= ManifestKeys(s.ever, basis) + created
    && Revision(basis) < root.revision
  }

  lemma {:induction false} BornBefore(s: State, at: nat, k: Key)
    requires Births(s) && at < |s.reach| && k in s.reach[at]
    ensures k in s.birth && s.birth[k] <= at
  {
    if at > 0 {
      assert Introduces(s, at);
      if k in s.reach[at - 1] {
        BornBefore(s, at - 1, k);
      }
    }
  }

  /** What an attempt has put is not part of the root it loaded. */
  lemma BasisInWidest(s: State, q: Proc)
    requires Chain(s) && Births(s) && (q.Appending? || q.Planning?) && ProcOk(s, q)
    ensures var view := Widest(s, q.created);
      && Honest(s, view, q.basis, q.created) && ManifestSound(s.ever, q.basis)
      && Log(view.before, q.basis) == Log(s.ever, q.basis)
      && ManifestKeys(view.before, q.basis) == ManifestKeys(s.ever, q.basis)
      && ManifestStates(view.before, q.basis) == ManifestStates(s.ever, q.basis)
  {
    hide ManifestSound, Introduces;
    var before := Widest(s, q.created).before;
    assert Linked(s.ever, s.history[q.at], s.reach[q.at]);
    forall k | k in ManifestKeys(s.ever, q.basis) ensures k in before {
      BornBefore(s, q.at, k);
    }
    Restriction.ManifestWithin(s.ever, before, q.basis);
  }

  /**
   * What an append offers over the objects of any moments while it ran (see Committing.PrepareAppend),
   * it offers over the widest view: which other objects came or went meanwhile makes no difference.
   */
  lemma OfferStands(s: State, q: Proc, view: View, root: Root, d: Draft, batches: seq<Batch>, now: nat)
    requires Chain(s) && Births(s) && q.Appending? && ProcOk(s, q) && Honest(s, view, q.basis, q.created)
    requires Committing.Continued(view.before, q.basis, view.after, root, d, batches, now)
    ensures var widest := Widest(s, q.created);
      && Honest(s, widest, q.basis, q.created)
      && Committing.Continued(widest.before, q.basis, widest.after, root, d, batches, now)
  {
    hide ManifestSound, RootSound, ManifestKeys, ManifestStates, Log, ProcOk, Births, Chain;
    BasisInWidest(s, q);
    ManifestFrame(view.before, s.ever, q.basis);
    RootIsSound(view.after, root);
    ManifestFrame(view.after, s.ever, Indexed(root));
    SoundIsRoot(s.ever, root);
  }

  /** So with what a maintenance pass offers (see Maintenance.PlanMaintenance). */
  lemma PassStands(s: State, q: Proc, view: View, root: Root, cut: nat)
    requires Chain(s) && Births(s) && q.Planning? && ProcOk(s, q) && Honest(s, view, q.basis, q.created)
    requires Maintenance.Trimmed(view.before, q.basis, view.after, root, cut)
    ensures var widest := Widest(s, q.created);
      && Honest(s, widest, q.basis, q.created)
      && Maintenance.Trimmed(widest.before, q.basis, widest.after, root, cut)
  {
    hide ManifestSound, RootSound, ManifestKeys, ManifestStates, Log, ProcOk, Births, Chain;
    BasisInWidest(s, q);
    ManifestFrame(view.before, s.ever, q.basis);
    RootIsSound(view.after, root);
    ManifestFrame(view.after, s.ever, Indexed(root));
    SoundIsRoot(s.ever, root);
  }

  lemma SoundIsRoot(objects: map<Key, Object>, root: Root)
    requires ManifestSound(objects, Indexed(root))
    ensures RootSound(objects, root)
  {
  }

  lemma AppendSucceeds(s: State, view: View, basis: Manifest, created: set<Key>, root: Root, batches: seq<Batch>, d: Draft,
                       now: nat)
    requires Honest(s, view, basis, created) && d.additions != []
    requires Committing.Continued(view.before, basis, view.after, root, d, batches, now)
    ensures Succeeds(s, basis, created, root)
  {
    hide ManifestSound;
    ManifestFrame(view.before, s.ever, basis);
    RootIsSound(view.after, root);
    ManifestFrame(view.after, s.ever, Indexed(root));
  }

  lemma RootIsSound(objects: map<Key, Object>, root: Root)
    requires RootSound(objects, root)
    ensures ManifestSound(objects, Indexed(root))
  {
  }

  lemma TrimSucceeds(s: State, view: View, basis: Manifest, created: set<Key>, root: Root, cut: nat)
    requires Honest(s, view, basis, created) && Maintenance.Trimmed(view.before, basis, view.after, root, cut)
    ensures Succeeds(s, basis, created, root)
  {
    hide ManifestSound;
    ManifestFrame(view.before, s.ever, basis);
    RootIsSound(view.after, root);
    ManifestFrame(view.after, s.ever, Indexed(root));
  }

  /** A swap that succeeded was made against the newest manifest, so its new keys were born under it. */
  lemma PublishStep(s: State, p: nat, root: Root, next: Proc, t: State)
    requires Safe(s) && (ProcOf(s, p).Appending? || ProcOf(s, p).Planning?)
    requires Current(s) == ProcOf(s, p).basis && Succeeds(s, ProcOf(s, p).basis, ProcOf(s, p).created, root)
    requires t == s.(history := s.history + [Indexed(root)], reach := s.reach + [KeysIn(s.ever, Indexed(root))],
                     procs := s.procs[p := next], ledger := t.ledger)
    requires next == Idle ||
      (ProcOf(s, p).Planning? && next == Tracing(Indexed(root), |s.history|, ProcOf(s, p).inventory, map[]))
    ensures Safe(t)
  {
    hide Linked, Chain, ManifestSound, KeysIn;
    var q := ProcOf(s, p);
    assert ProcOk(s, q);
    SomeRoot(s);
    NoRepeat(s, q.basis, q.at);
    NewestKeys(s, q, root);
    PublishChain(s, root, t);
    PublishBirths(s, q.created, KeysIn(s.ever, Indexed(root)), t);
    assert ProcOk(t, next);
    ProcsExcept(s, t, p);
  }

  lemma NewestKeys(s: State, q: Proc, root: Root)
    requires Chain(s) && (q.Appending? || q.Planning?) && Current(s) == q.basis
    requires Succeeds(s, q.basis, q.created, root)
    ensures KeysIn(s.ever, Indexed(root)) <= s.reach[|s.reach| - 1] + q.created
  {
    hide ManifestSound;
    assert Linked(s.ever, s.history[|s.history| - 1], s.reach[|s.reach| - 1]);
  }

  lemma PublishChain(s: State, root: Root, t: State)
    requires Chain(s) && ManifestSound(s.ever, Indexed(root)) && Revision(Current(s)) < root.revision
    requires t.ever == s.ever && t.history == s.history + [Indexed(root)]
    requires t.reach == s.reach + [KeysIn(s.ever, Indexed(root))]
    ensures Chain(t)
  {
    hide ManifestSound;
    forall i | 0 <= i < |t.history| ensures Linked(t.ever, t.history[i], t.reach[i]) {
      if i < |s.history| {
        assert Linked(s.ever, s.history[i], s.reach[i]);
      }
    }
    forall i, j | 0 <= i < j < |t.history| ensures Revision(t.history[i]) < Revision(t.history[j]) {
      if j == |s.history| && i < j - 1 {
        assert Revision(s.history[i]) < Revision(s.history[j - 1]);
      }
    }
  }

  lemma PublishBirths(s: State, created: set<Key>, keys: set<Key>, t: State)
    requires Births(s) && Alive(s) && BornAfter(s, created, |s.history| - 1)
    requires keys <= s.reach[|s.reach| - 1] + created
    requires t.ever == s.ever && t.present == s.present && t.birth == s.birth
    requires |t.history| == |s.history| + 1 && t.reach == s.reach + [keys]
    ensures Births(t) && Alive(t)
  {
    forall i | 0 < i < |t.reach| ensures Introduces(t, i) {
      if i < |s.reach| {
        assert Introduces(s, i);
      }
    }
  }

  lemma CommitStep(s: State, a: Action)
    requires Safe(s) && Enabled(s, a) && (a.CommitAppend? || a.CommitMaintenance?)
    ensures Safe(Apply(s, a))
  {
    hide Safe, Committing.Continued, Maintenance.Trimmed, Maintenance.Traced, Committing.DecisionIn, Succeeds, LogIn,
      KeysIn, Extended, Acks, ManifestSound;
    var q := ProcOf(s, a.p);
    match a
    case CommitAppend(p, root, batches, now, _) =>
      AppendSucceeds(s, Widest(s, q.created), q.basis, q.created, root, batches,
                     Committing.DecisionIn(q.got, q.basis, batches).value, now);
      PublishStep(s, p, root, Idle, Apply(s, a));
    case CommitMaintenance(p, root, cut, _) =>
      TrimSucceeds(s, Widest(s, q.created), q.basis, q.created, root, cut);
      PublishStep(s, p, root, Tracing(Indexed(root), |s.history|, q.inventory, map[]), Apply(s, a));
  }

  lemma SafeStep(s: State, a: Action)
    requires Safe(s) && Enabled(s, a)
    ensures Safe(Apply(s, a))
  {
    hide Safe, Enabled;
    match a
    case Put(_, _, _) => PutStep(s, a);
    case CommitAppend(_, _, _, _, _) => CommitStep(s, a);
    case CommitMaintenance(_, _, _, _) => CommitStep(s, a);
    case Delete(_, _) => DeleteStep(s, a);
    case AnswerRetry(_, _, _) => AnswerStep(s, a);
    case _ => LocalStep(s, a);
  }
}
