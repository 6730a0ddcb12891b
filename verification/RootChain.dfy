/** What the published roots mean over a whole run: one ghost log, rising offsets, and exactly-once appends. */
module RootChain {
  import opened LogTypes
  import opened ObjectStores
  import opened Manifests
  import opened Idempotence
  import opened Protocol
  import Appending
  import Committing
  import Maintenance
  import opened IndexPages
  import ProducerWindow

  function Origin(s: State): int
    requires s.history != []
  {
    StartOffset(s.history[0])
  }

  // -------------------------------------------------------------- one log

  /** Root i holds one window of the ghost log, at the offsets the log gives it. */
  ghost predicate Window(s: State, i: nat)
    requires i < |s.history| && i < |s.ledger.starts| && i < |s.ledger.ends|
  {
    var l := s.ledger;
    && l.starts[i] <= l.ends[i] <= |l.total|
    && LogIn(s.ever, s.history[i]) == l.total[l.starts[i]..l.ends[i]]
    && StartOffset(s.history[i]) == EndOffset(l.total[..l.starts[i]], Origin(s))
    && NextOffset(s.history[i]) == EndOffset(l.total[..l.ends[i]], Origin(s))
  }

  /** Neither end of the log ever moves back. */
  predicate NotBefore(s: State, i: nat, j: nat)
    requires i < |s.history| && j < |s.history| == |s.ledger.starts| == |s.ledger.ends|
  {
    && s.ledger.starts[i] <= s.ledger.starts[j] && s.ledger.ends[i] <= s.ledger.ends[j]
    && StartOffset(s.history[i]) <= StartOffset(s.history[j])
    && NextOffset(s.history[i]) <= NextOffset(s.history[j])
  }

  ghost predicate Windows(s: State) {
    var l, n := s.ledger, |s.history|;
    && n > 0 && |l.starts| == |l.ends| == n
    && (forall i :: 0 <= i < n ==> Window(s, i))
    && (forall i, j :: 0 <= i <= j < n ==> NotBefore(s, i, j))
    && l.ends[n - 1] == |l.total|
    && Run(l.total, Origin(s))
  }

  lemma WindowsFrame(s: State, t: State)
    requires Chain(s) && Windows(s) && Extends(s.ever, t.ever) && t.history == s.history
    requires t.ledger == s.ledger.(acked := t.ledger.acked)
    ensures Windows(t)
  {
    hide ManifestSound, Run, EndOffset;
    forall i | 0 <= i < |t.history| ensures Window(t, i) {
      assert Window(s, i) && Linked(s.ever, s.history[i], s.reach[i]);
      ManifestFrame(s.ever, t.ever, s.history[i]);
    }
    forall i, j | 0 <= i <= j < |t.history| ensures NotBefore(t, i, j) {
      assert NotBefore(s, i, j);
    }
  }

  /** The relation of a new root to the newest one: some batches cut from the front, some added at the end. */
  ghost predicate Moves(ever: map<Key, Object>, m: Manifest, root: Root, cut: nat, extra: seq<Segment>) {
    && ManifestSound(ever, m) && ManifestSound(ever, Indexed(root))
    && cut <= |Log(ever, m)|
    && Log(ever, Indexed(root)) == Log(ever, m)[cut..] + extra
    && root.startOffset == EndOffset(Log(ever, m)[..cut], StartOffset(m))
    && StartOffset(m) <= root.startOffset
    && NextOffset(m) <= root.nextOffset
    && Run(extra, NextOffset(m)) && EndOffset(extra, NextOffset(m)) == root.nextOffset
  }

  lemma Slices(total: seq<Segment>, extra: seq<Segment>, a: nat, b: nat, cut: nat)
    requires a <= b == |total| && a + cut <= b
    ensures total[a..b][cut..] + extra == (total + extra)[a + cut..b + |extra|]
    ensures (total + extra)[..a + cut] == total[..a] + total[a..b][..cut]
    ensures (total + extra)[..b + |extra|] == total + extra
    ensures total[..b] == total
  {
  }

  lemma SlicesKept(total: seq<Segment>, extra: seq<Segment>, a: nat, b: nat)
    requires a <= b <= |total|
    ensures (total + extra)[a..b] == total[a..b] && (total + extra)[..a] == total[..a] && (total + extra)[..b] == total[..b]
  {
  }

  lemma WindowsPublish(s: State, t: State, root: Root, cut: nat, extra: seq<Segment>, added: seq<Entry>, acks: seq<Ack>)
    requires Windows(s) && Moves(s.ever, Current(s), root, cut, extra)
    requires t.ever == s.ever && t.history == s.history + [Indexed(root)]
    requires t.ledger == Extended(s.ledger, cut, extra, added, acks)
    ensures Windows(t)
  {
    hide ManifestSound, Run, EndOffset, Moves;
    var n := |s.history|;
    var l := s.ledger;
    forall i | 0 <= i < n ensures Window(t, i) {
      assert Window(s, i);
      SlicesKept(l.total, extra, l.starts[i], l.ends[i]);
    }
    NewWindow(s, t, root, cut, extra, added, acks);
    forall i, j | 0 <= i <= j < n + 1 ensures NotBefore(t, i, j) {
      assert i < n ==> NotBefore(s, i, n - 1);
      assert j < n ==> NotBefore(s, i, j);
      MovesUp(s, root, cut, extra);
    }
  }

  lemma MovesUp(s: State, root: Root, cut: nat, extra: seq<Segment>)
    requires s.history != [] && Moves(s.ever, Current(s), root, cut, extra)
    ensures StartOffset(Current(s)) <= root.startOffset && NextOffset(Current(s)) <= root.nextOffset
  {
  }

  lemma NewWindow(s: State, t: State, root: Root, cut: nat, extra: seq<Segment>, added: seq<Entry>, acks: seq<Ack>)
    requires Windows(s) && Moves(s.ever, Current(s), root, cut, extra)
    requires t.ever == s.ever && t.history == s.history + [Indexed(root)]
    requires t.ledger == Extended(s.ledger, cut, extra, added, acks)
    ensures Window(t, |s.history|) && Run(t.ledger.total, Origin(t))
  {
    hide ManifestSound, Run, EndOffset, NotBefore;
    var l, n := s.ledger, |s.history|;
    assert Window(s, n - 1);
    var a, b := l.starts[n - 1], l.ends[n - 1];
    var origin := Origin(s);
    assert LogIn(s.ever, Current(s)) == l.total[a..b];
    Slices(l.total, extra, a, b, cut);
    RunAppend(l.total, extra, origin);
    RunAppend(l.total[..a], l.total[a..b][..cut], origin);
  }

  lemma AppendMoves(s: State, view: View, basis: Manifest, created: set<Key>, root: Root, batches: seq<Batch>, d: Draft,
                    now: nat)
    requires Honest(s, view, basis, created) && Committing.Continued(view.before, basis, view.after, root, d, batches, now)
    ensures Moves(s.ever, basis, root, 0, After(LogIn(s.ever, Indexed(root)), |LogIn(s.ever, basis)|))
    ensures Committing.NewSegments(After(LogIn(s.ever, Indexed(root)), |LogIn(s.ever, basis)|), d.additions, batches, now)
    ensures StatesIn(s.ever, Indexed(root)) == StatesIn(s.ever, basis) + d.states
  {
    hide ManifestSound, Run, EndOffset, RootSound, Committing.NewSegments, Log, ManifestStates;
    ManifestFrame(view.before, s.ever, basis);
    RootIsSound(view.after, root);
    ManifestFrame(view.after, s.ever, Indexed(root));
    LogRun(s.ever, basis);
    LogRun(s.ever, Indexed(root));
    SuffixRun(Log(s.ever, basis), Log(s.ever, Indexed(root)), StartOffset(basis));
  }

  lemma SuffixRun(a: seq<Segment>, b: seq<Segment>, start: int)
    requires a <= b && Run(b, start)
    ensures var extra := b[|a|..];
      && b == a[0..] + extra && EndOffset(a[..0], start) == start
      && Run(extra, EndOffset(a, start)) && EndOffset(extra, EndOffset(a, start)) == EndOffset(b, start)
      && EndOffset(a, start) <= EndOffset(b, start)
  {
    hide Run, EndOffset;
    var extra := b[|a|..];
    assert b == a + extra && a[0..] == a && a[..0] == [];
    RunAppend(a, extra, start);
    RunRises(extra, EndOffset(a, start));
    NoSegments(start);
  }

  lemma NoSegments(start: int)
    ensures EndOffset([], start) == start && Run([], start)
  {
  }

  lemma TrimMoves(s: State, view: View, basis: Manifest, created: set<Key>, root: Root, cut: nat)
    requires Honest(s, view, basis, created) && Maintenance.Trimmed(view.before, basis, view.after, root, cut)
    ensures Moves(s.ever, basis, root, cut, [])
    ensures StatesIn(s.ever, Indexed(root)) == StatesIn(s.ever, basis) && root.nextOffset == NextOffset(basis)
  {
    hide ManifestSound, Run, EndOffset, RootSound, Log, ManifestStates, ManifestKeys;
    ManifestFrame(view.before, s.ever, basis);
    RootIsSound(view.after, root);
    ManifestFrame(view.after, s.ever, Indexed(root));
    assert Log(s.ever, basis)[cut..] + [] == Log(s.ever, basis)[cut..];
    NoSegments(NextOffset(basis));
  }

  // -------------------------------------------------------------- exactly once

  /** The producers of root i are faithful to the batches logged when it was published. */
  ghost predicate FaithfulAt(s: State, i: nat)
    requires i < |s.history| && i < |s.ledger.counts|
  {
    && s.ledger.counts[i] <= |s.ledger.entries|
    && Faithful(StatesIn(s.ever, s.history[i]), NextOffset(s.history[i]), s.ledger.entries[..s.ledger.counts[i]])
  }

  predicate AllLogged(entries: seq<Entry>, acks: seq<Ack>) {
    forall i :: 0 <= i < |acks| ==> LoggedAs(entries, acks[i].batch, acks[i].result)
  }

  /** Logged batches and committed segments are the same thing, in the same order. */
  predicate Matching(total: seq<Segment>, first: nat, entries: seq<Entry>) {
    && |total| == first + |entries|
    && forall i :: 0 <= i < |entries| ==>
      total[first + i].baseOffset == entries[i].batch.baseOffset && total[first + i].recordCount == entries[i].batch.count
  }

  ghost predicate Once(s: State) {
    var l, n := s.ledger, |s.history|;
    && n > 0 && |l.counts| == n && l.ends != []
    && (forall i :: 0 <= i < n ==> FaithfulAt(s, i))
    && l.counts[n - 1] == |l.entries|
    && AllLogged(l.entries, l.acked)
    && Matching(l.total, l.ends[0], l.entries)
  }

  lemma OnceFrame(s: State, t: State)
    requires Chain(s) && Once(s) && Extends(s.ever, t.ever) && t.history == s.history
    requires t.ledger == s.ledger.(acked := t.ledger.acked) && AllLogged(t.ledger.entries, t.ledger.acked)
    ensures Once(t)
  {
    hide ManifestSound, Faithful, LoggedAs;
    forall i | 0 <= i < |t.history| ensures FaithfulAt(t, i) {
      assert FaithfulAt(s, i) && Linked(s.ever, s.history[i], s.reach[i]);
      ManifestFrame(s.ever, t.ever, s.history[i]);
    }
  }

  lemma LoggedLater(entries: seq<Entry>, more: seq<Entry>, acks: seq<Ack>)
    requires AllLogged(entries, acks)
    ensures AllLogged(entries + more, acks)
  {
    forall i | 0 <= i < |acks| ensures LoggedAs(entries + more, acks[i].batch, acks[i].result) {
      assert LoggedAs(entries, acks[i].batch, acks[i].result);
    }
  }

  lemma LoggedBoth(entries: seq<Entry>, a: seq<Ack>, b: seq<Ack>)
    requires AllLogged(entries, a) && AllLogged(entries, b)
    ensures AllLogged(entries, a + b)
  {
    hide LoggedAs;
  }

  lemma {:induction false} AcksLogged(entries: seq<Entry>, batches: seq<Batch>, results: seq<ProducerWindow.AppendResult>)
    requires |results| == |batches|
    requires forall i :: 0 <= i < |batches| ==> LoggedAs(entries, batches[i], results[i])
    ensures AllLogged(entries, Acks(batches, results))
    decreases |batches|
  {
    hide LoggedAs;
    if batches != [] {
      AcksLogged(entries, batches[1..], results[1..]);
    }
  }

  /** A decided request extends the log faithfully, and every reply points at a logged batch. */
  lemma DecisionFaithful(known: Directory, nextOffset: int, entries: seq<Entry>, batches: seq<Batch>)
    requires Faithful(known, nextOffset, entries) && AllAdmissible(batches)
    ensures var r := DecideAll(known, Appending.OpenDraft(nextOffset), batches);
      r.Ok? ==>
        && Faithful(known + r.value.states, r.value.nextOffset, entries + r.value.additions)
        && AllLogged(entries + r.value.additions, Acks(batches, r.value.results))
  {
    hide Faithful, DecideAll, LoggedAs;
    var d := Appending.OpenDraft(nextOffset);
    assert known + d.states == known && entries + d.additions == entries;
    DecideAllCorrect(known, entries, d, batches);
    var r := DecideAll(known, d, batches);
    if r.Ok? {
      AcksLogged(entries + r.value.additions, batches, r.value.results);
    }
  }

  lemma OncePublish(s: State, t: State, root: Root, cut: nat, extra: seq<Segment>, added: seq<Entry>, acks: seq<Ack>)
    requires Once(s) && |s.ledger.starts| > 0 && s.ledger.ends[|s.ledger.ends| - 1] == |s.ledger.total|
    requires t.ever == s.ever && t.history == s.history + [Indexed(root)]
    requires t.ledger == Extended(s.ledger, cut, extra, added, acks)
    requires Faithful(StatesIn(s.ever, Indexed(root)), root.nextOffset, s.ledger.entries + added)
    requires AllLogged(s.ledger.entries + added, acks)
    requires Matching(extra, 0, added)
    ensures Once(t)
  {
    hide Faithful, LoggedAs, StatesIn;
    var l, n := s.ledger, |s.history|;
    forall i | 0 <= i < n + 1 ensures FaithfulAt(t, i) {
      if i < n {
        assert FaithfulAt(s, i);
        assert (l.entries + added)[..l.counts[i]] == l.entries[..l.counts[i]];
      } else {
        assert (l.entries + added)[..|l.entries| + |added|] == l.entries + added;
      }
    }
    LoggedLater(l.entries, added, l.acked);
    LoggedBoth(l.entries + added, l.acked, acks);
  }

  lemma FaithfulNow(s: State)
    requires Once(s)
    ensures Faithful(StatesIn(s.ever, Current(s)), NextOffset(Current(s)), s.ledger.entries)
  {
    hide Faithful;
    var n := |s.history|;
    assert FaithfulAt(s, n - 1);
    assert s.ledger.entries[..|s.ledger.entries|] == s.ledger.entries;
  }

  lemma NewMatching(extra: seq<Segment>, added: seq<Entry>, batches: seq<Batch>, now: nat)
    requires Committing.NewSegments(extra, added, batches, now)
    ensures Matching(extra, 0, added)
  {
  }

  // -------------------------------------------------------------- every step

  ghost predicate Inv(s: State) {
    Safe(s) && Windows(s) && Once(s)
  }

  lemma AppendLedger(s: State, a: Action)
    requires Inv(s) && Enabled(s, a) && a.CommitAppend?
    ensures Windows(Apply(s, a)) && Once(Apply(s, a))
  {
    hide Windows, Once, Births, Alive, Linked, ManifestSound, Moves, Faithful, Matching, Committing.Continued, DecideAll,
      LogIn, StatesIn, Extended, After, Committing.NewSegments, AllLogged, Acks, KeysIn, Committing.DecisionIn;
    var t, q := Apply(s, a), ProcOf(s, a.p);
    assert ProcOk(s, q);
    DecidedAsWhole(s, q, a.batches);
    var d := Committing.DecisionIn(q.got, q.basis, a.batches).value;
    var extra := After(LogIn(s.ever, Indexed(a.root)), |LogIn(s.ever, q.basis)|);
    var acks := Acks(a.batches, d.results);
    Started(s);
    AppendMoves(s, Widest(s, q.created), q.basis, q.created, a.root, a.batches, d, a.now);
    WindowsPublish(s, t, a.root, 0, extra, d.additions, acks);
    FaithfulNow(s);
    DecisionFaithful(StatesIn(s.ever, q.basis), NextOffset(q.basis), s.ledger.entries, a.batches);
    NewMatching(extra, d.additions, a.batches, a.now);
    EndsAt(Widest(s, q.created), q.basis, a.root, d, a.batches, a.now);
    OncePublish(s, t, a.root, 0, extra, d.additions, acks);
  }

  /** A decision that was reached is the decision on the whole manifest, however much of it was collected. */
  lemma DecidedAsWhole(s: State, q: Proc, batches: seq<Batch>)
    requires Chain(s) && q.Appending? && ProcOk(s, q) && Decided(q.got, q.basis, batches)
    ensures Committing.DecisionIn(q.got, q.basis, batches)
      == DecideAll(StatesIn(s.ever, q.basis), Appending.OpenDraft(NextOffset(q.basis)), batches)
  {
    hide ManifestSound, DecideAll, Committing.DecisionIn;
    assert Linked(s.ever, s.history[q.at], s.reach[q.at]);
    Committing.DecisionMeans(q.got, s.ever, q.basis, batches);
  }

  lemma EndsAt(view: View, basis: Manifest, root: Root, d: Draft, batches: seq<Batch>, now: nat)
    requires ManifestSound(view.before, basis)
    requires Committing.Continued(view.before, basis, view.after, root, d, batches, now)
    ensures root.nextOffset == d.nextOffset
  {
  }

  lemma Started(s: State)
    requires Inv(s)
    ensures s.history != [] && s.ledger.starts != []
    ensures |s.ledger.ends| > 0 && s.ledger.ends[|s.ledger.ends| - 1] == |s.ledger.total|
    ensures Chain(s)
  {
  }

  lemma TrimLedger(s: State, a: Action)
    requires Inv(s) && Enabled(s, a) && a.CommitMaintenance?
    ensures Windows(Apply(s, a)) && Once(Apply(s, a))
  {
    hide Windows, Once, Safe, ManifestSound, Moves, Faithful, Maintenance.Trimmed, LogIn, StatesIn, Extended, KeysIn;
    var t, q := Apply(s, a), ProcOf(s, a.p);
    Started(s);
    TrimMoves(s, Widest(s, q.created), q.basis, q.created, a.root, a.cut);
    WindowsPublish(s, t, a.root, a.cut, [], [], []);
    FaithfulNow(s);
    assert s.ledger.entries + [] == s.ledger.entries;
    OncePublish(s, t, a.root, a.cut, [], [], []);
  }

  lemma AnswerLedger(s: State, a: Action)
    requires Inv(s) && Enabled(s, a) && a.AnswerRetry?
    ensures Windows(Apply(s, a)) && Once(Apply(s, a))
  {
    hide Windows, Once, ManifestSound, Committing.DecisionIn, LogIn, StatesIn, AllLogged, Acks, Births, Alive, Linked;
    var t, q := Apply(s, a), ProcOf(s, a.p);
    assert ProcOk(s, q);
    AnswerLogged(s, q.got, q.basis, q.at, a.batches);
    var d := Committing.DecisionIn(q.got, q.basis, a.batches).value;
    KnownAcks(s);
    LoggedBoth(s.ledger.entries, s.ledger.acked, Acks(a.batches, d.results));
    WindowsFrame(s, t);
    OnceFrame(s, t);
  }

  /**
   * A retry answered from an old root, of which collection may have left any part, is answered with
   * the offsets of the log.
   */
  lemma AnswerLogged(s: State, got: map<Key, Object>, basis: Manifest, at: nat, batches: seq<Batch>)
    requires Chain(s) && Once(s) && At(s, basis, at) && Extends(got, s.ever) && AllAdmissible(batches)
    requires Committing.DecisionIn(got, basis, batches).Ok?
    requires Committing.DecisionIn(got, basis, batches).value.additions == []
    ensures AllLogged(s.ledger.entries, Acks(batches, Committing.DecisionIn(got, basis, batches).value.results))
  {
    hide ManifestSound, Faithful, AllLogged, Acks, DecideAll, Matching, LoggedAs, Committing.DecisionIn;
    assert FaithfulAt(s, at) && Linked(s.ever, s.history[at], s.reach[at]);
    var n := s.ledger.counts[at];
    var entries := s.ledger.entries[..n];
    Committing.DecisionMeans(got, s.ever, basis, batches);
    DecisionFaithful(StatesIn(s.ever, basis), NextOffset(basis), entries, batches);
    var d := Committing.DecisionIn(got, basis, batches).value;
    assert entries + d.additions == entries;
    LoggedLater(entries, s.ledger.entries[n..], Acks(batches, d.results));
    assert entries + s.ledger.entries[n..] == s.ledger.entries;
  }

  lemma OtherLedger(s: State, a: Action)
    requires Inv(s) && Enabled(s, a) && !a.CommitAppend? && !a.CommitMaintenance? && !a.AnswerRetry?
    ensures Windows(Apply(s, a)) && Once(Apply(s, a))
  {
    hide Windows, Once, Births, Alive, Chain, Procs, ManifestSound, KeysIn;
    if Local(a) {
      LocalFrame(s, a);
    }
    var t := Apply(s, a);
    assert AllLogged(s.ledger.entries, s.ledger.acked) by {
      KnownAcks(s);
    }
    WindowsFrame(s, t);
    OnceFrame(s, t);
  }

  lemma KnownAcks(s: State)
    requires Once(s)
    ensures AllLogged(s.ledger.entries, s.ledger.acked)
  {
  }

  /** The invariant survives every action of every process. */
  lemma Step(s: State, a: Action)
    requires Inv(s) && Enabled(s, a)
    ensures Inv(Apply(s, a))
  {
    hide Safe, Windows, Once, Enabled;
    SafeStep(s, a);
    match a
    case CommitAppend(_, _, _, _, _) => AppendLedger(s, a);
    case CommitMaintenance(_, _, _, _) => TrimLedger(s, a);
    case AnswerRetry(_, _, _) => AnswerLedger(s, a);
    case _ => OtherLedger(s, a);
  }
}
