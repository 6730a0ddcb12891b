/** Durable group offsets: the manifest's entry list as a map, and commits by compare-and-swap. */
module GroupOffsets {
  import opened LogTypes
  import FiniteSets

  const MAX_GROUP_OFFSETS: nat := 10_000
  const MAX_TOPIC_PARTITIONS: int := 1024
  const MAX_COMPONENT_BYTES: nat := 249
  const MAX_COMMIT_METADATA_BYTES: nat := 4096

  datatype TopicPartition = TopicPartition(topic: string, partition: int)
  datatype Committed = Committed(offset: int, metadata: Option<string>)
  datatype Entry = Entry(key: TopicPartition, value: Committed)
  datatype OffsetManifest = OffsetManifest(revision: nat, offsets: seq<Entry>)

  type Offsets = map<TopicPartition, Committed>

  datatype OffsetError = InvalidManifest | OffsetLimit | RevisionExhausted
  datatype Outcome<+T> = Good(value: T) | Bad(error: OffsetError)

  // -------------------------------------------------------------- valid entries

  ghost predicate TokenChar(c: char) {
    'a' <= c <= 'z' || 'A' <= c <= 'Z' || '0' <= c <= '9' || c in "._-"
  }

  ghost predicate Component(s: string) {
    0 < |s| <= MAX_COMPONENT_BYTES && s != "." && s != ".." && forall i :: 0 <= i < |s| ==> TokenChar(s[i])
  }

  /** src/group.rs:472-513; characters stand for bytes, and the i64 range of offsets is part of their type. */
  ghost predicate EntryOk(e: Entry) {
    && Component(e.key.topic)
    && 0 <= e.key.partition < MAX_TOPIC_PARTITIONS
    && 0 <= e.value.offset <= I64_MAX
    && (e.value.metadata.Some? ==> |e.value.metadata.value| <= MAX_COMMIT_METADATA_BYTES)
  }

  /** src/group.rs:472-513: a name of letters, digits, dots, underscores and dashes, but not one or two dots alone. */
  method CheckComponent(s: string) returns (ok: bool)
    ensures ok == Component(s)
  {
    if s == [] || |s| > MAX_COMPONENT_BYTES || s == "." || s == ".." {
      return false;
    }
    for i := 0 to |s|
      invariant forall j :: 0 <= j < i ==> TokenChar(s[j])
    {
      var c := s[i];
      if !('a' <= c <= 'z') && !('A' <= c <= 'Z') && !('0' <= c <= '9') && c != '.' && c != '_' && c != '-' {
        return false;
      }
    }
    ok := true;
  }

  method CheckEntry(e: Entry) returns (ok: bool)
    ensures ok == EntryOk(e)
  {
    ok := CheckComponent(e.key.topic);
    if !ok || e.key.partition < 0 || e.key.partition >= MAX_TOPIC_PARTITIONS || e.value.offset < 0 || e.value.offset > I64_MAX {
      return false;
    }
    ok := e.value.metadata.None? || |e.value.metadata.value| <= MAX_COMMIT_METADATA_BYTES;
  }

  // -------------------------------------------------------------- key order

  predicate TextLe(a: string, b: string) {
    a == [] || (b != [] && (a[0] < b[0] || (a[0] == b[0] && TextLe(a[1..], b[1..]))))
  }

  predicate KeyLe(a: TopicPartition, b: TopicPartition) {
    if a.topic == b.topic then a.partition <= b.partition else TextLe(a.topic, b.topic)
  }

  lemma {:induction false} TextTotal(a: string, b: string)
    ensures TextLe(a, b) || TextLe(b, a)
    ensures TextLe(a, b) && TextLe(b, a) ==> a == b
  {
    if a != [] && b != [] && a[0] == b[0] {
      TextTotal(a[1..], b[1..]);
      assert a == [a[0]] + a[1..] && b == [b[0]] + b[1..];
    }
  }

  lemma {:induction false} TextTransitive(a: string, b: string, c: string)
    requires TextLe(a, b) && TextLe(b, c)
    ensures TextLe(a, c)
  {
    if a != [] && a[0] == b[0] && b[0] == c[0] {
      TextTransitive(a[1..], b[1..], c[1..]);
    }
  }

  lemma KeyOrder(a: TopicPartition, b: TopicPartition)
    ensures KeyLe(a, b) || KeyLe(b, a)
    ensures KeyLe(a, b) && KeyLe(b, a) ==> a == b
  {
    TextTotal(a.topic, b.topic);
  }

  lemma KeyTransitive(a: TopicPartition, b: TopicPartition, c: TopicPartition)
    requires KeyLe(a, b) && KeyLe(b, c)
    ensures KeyLe(a, c)
  {
    if a.topic != b.topic && b.topic != c.topic {
      TextTransitive(a.topic, b.topic, c.topic);
      TextTotal(a.topic, b.topic);
    }
  }

  lemma KeysTotallyOrdered()
    ensures FiniteSets.TotalOrder(KeyLe)
  {
    forall a, b ensures KeyLe(a, b) || KeyLe(b, a) {
      KeyOrder(a, b);
    }
    forall a, b, c | KeyLe(a, b) && KeyLe(b, c) ensures KeyLe(a, c) {
      KeyTransitive(a, b, c);
    }
  }

  lemma LeastKeyExists(keys: set<TopicPartition>)
    requires |keys| > 0
    ensures exists k :: k in keys && forall other :: other in keys ==> KeyLe(k, other)
  {
    KeysTotallyOrdered();
    var k := FiniteSets.LeastOf(keys, KeyLe);
  }

  // -------------------------------------------------------------- entry list and map

  function ToMap(entries: seq<Entry>): Offsets {
    if entries == [] then map[]
    else ToMap(entries[..|entries| - 1])[entries[|entries| - 1].key := entries[|entries| - 1].value]
  }

  predicate DistinctKeys(entries: seq<Entry>) {
    forall i, j :: 0 <= i < j < |entries| ==> entries[i].key != entries[j].key
  }

  predicate InKeyOrder(entries: seq<Entry>) {
    forall i, j :: 0 <= i < j < |entries| ==> KeyLe(entries[i].key, entries[j].key)
  }

  ghost predicate ManifestOk(m: OffsetManifest) {
    DistinctKeys(m.offsets) && forall i :: 0 <= i < |m.offsets| ==> EntryOk(m.offsets[i])
  }

  ghost function ToEntries(offsets: Offsets): (entries: seq<Entry>)
    ensures |entries| == |offsets|
    decreases |offsets|
  {
    if |offsets| == 0 then []
    else
      LeastKeyExists(offsets.Keys);
      var k :| k in offsets && forall other :: other in offsets ==> KeyLe(k, other);
      assert offsets == (offsets - {k})[k := offsets[k]];
      [Entry(k, offsets[k])] + ToEntries(offsets - {k})
  }

  lemma {:induction false} ToMapIs(entries: seq<Entry>, k: TopicPartition)
    requires DistinctKeys(entries)
    ensures k in ToMap(entries) <==> exists i :: 0 <= i < |entries| && entries[i].key == k
    ensures forall i :: 0 <= i < |entries| && entries[i].key == k ==> k in ToMap(entries) && ToMap(entries)[k] == entries[i].value
  {
    if entries != [] {
      var n := |entries| - 1;
      var front := entries[..n];
      assert forall i :: 0 <= i < n ==> front[i] == entries[i];
      ToMapIs(front, k);
      if k in ToMap(front) {
        var i :| 0 <= i < n && front[i].key == k;
        assert entries[i].key == k;
      }
    }
  }

  /** The entries are exactly the pairs of the map. */
  ghost predicate Lists(entries: seq<Entry>, offsets: Offsets) {
    forall e :: e in entries <==> e.key in offsets && offsets[e.key] == e.value
  }

  lemma ConsEntries(first: Entry, tail: seq<Entry>, offsets: Offsets)
    requires first.key !in offsets && Lists(tail, offsets) && DistinctKeys(tail) && InKeyOrder(tail)
    requires forall k :: k in offsets ==> KeyLe(first.key, k)
    ensures var es := [first] + tail;
      DistinctKeys(es) && InKeyOrder(es) && Lists(es, offsets[first.key := first.value])
  {
    hide KeyLe;
    var es := [first] + tail;
    forall i, j | 0 <= i < j < |es| ensures es[i].key != es[j].key && KeyLe(es[i].key, es[j].key) {
      assert es[j] == tail[j - 1] && tail[j - 1] in tail;
      assert i > 0 ==> es[i] == tail[i - 1];
    }
  }

  /** The entries written are exactly the map's, each once and in key order. */
  lemma {:induction false} EntriesOf(offsets: Offsets)
    ensures var es := ToEntries(offsets); DistinctKeys(es) && InKeyOrder(es) && Lists(es, offsets)
    decreases |offsets|
  {
    hide Lists, DistinctKeys, InKeyOrder, KeyLe;
    if |offsets| > 0 {
      var es := ToEntries(offsets);
      var k := es[0].key;
      var rest := offsets - {k};
      assert es == [Entry(k, offsets[k])] + ToEntries(rest);
      assert offsets == rest[k := offsets[k]];
      EntriesOf(rest);
      ConsEntries(Entry(k, offsets[k]), ToEntries(rest), rest);
    } else {
      NoEntries(offsets);
    }
  }

  lemma NoEntries(offsets: Offsets)
    requires |offsets| == 0
    ensures DistinctKeys([]) && InKeyOrder([]) && Lists([], offsets)
  {
  }

  lemma ToMapLists(entries: seq<Entry>)
    requires DistinctKeys(entries)
    ensures Lists(entries, ToMap(entries))
  {
    hide ToMap;
    forall e ensures e in entries <==> e.key in ToMap(entries) && ToMap(entries)[e.key] == e.value {
      ToMapIs(entries, e.key);
    }
  }

  lemma SameLists(entries: seq<Entry>, a: Offsets, b: Offsets)
    requires Lists(entries, a) && Lists(entries, b)
    ensures a == b
  {
    forall k ensures k in a <==> k in b
      ensures k in a && k in b ==> a[k] == b[k]
    {
      if k in a {
        assert Entry(k, a[k]) in entries;
      }
      if k in b {
        assert Entry(k, b[k]) in entries;
      }
    }
  }

  /** Writing a map as entries and reading it back gives the map. */
  lemma MapRoundTrip(offsets: Offsets)
    ensures ToMap(ToEntries(offsets)) == offsets
  {
    hide ToEntries, ToMap, Lists, DistinctKeys, InKeyOrder;
    EntriesOf(offsets);
    ToMapLists(ToEntries(offsets));
    SameLists(ToEntries(offsets), ToMap(ToEntries(offsets)), offsets);
  }

  /** An ordered entry list is the only one for its map. */
  lemma {:induction false} OrderedUnique(a: seq<Entry>, b: seq<Entry>)
    requires DistinctKeys(a) && InKeyOrder(a) && DistinctKeys(b) && InKeyOrder(b)
    requires forall e :: e in a <==> e in b
    ensures a == b
    decreases |a|
  {
    assert b != [] ==> b[0] in b;
    if a != [] {
      assert a[0] in b;
      assert b[0] in a;
      KeyOrder(a[0].key, b[0].key);
      var i :| 0 <= i < |b| && b[i] == a[0];
      var j :| 0 <= j < |a| && a[j] == b[0];
      assert a[0] == b[0];
      forall e | e in a[1..] ensures e in b[1..] {
        var n :| 1 <= n < |a| && a[n] == e;
        assert a[n] in a && e != a[0];
        var m :| 0 <= m < |b| && b[m] == e;
        assert b[1..][m - 1] == e;
      }
      forall e | e in b[1..] ensures e in a[1..] {
        var n :| 1 <= n < |b| && b[n] == e;
        assert b[n] in b && e != b[0];
        var m :| 0 <= m < |a| && a[m] == e;
        assert a[1..][m - 1] == e;
      }
      OrderedUnique(a[1..], b[1..]);
    }
  }

  /** Reading ordered entries and writing them again gives the same entries. */
  lemma ListRoundTrip(entries: seq<Entry>)
    requires DistinctKeys(entries) && InKeyOrder(entries)
    ensures ToEntries(ToMap(entries)) == entries
  {
    hide ToEntries, ToMap, DistinctKeys, InKeyOrder;
    EntriesOf(ToMap(entries));
    ToMapLists(entries);
    OrderedUnique(ToEntries(ToMap(entries)), entries);
  }

  /** src/group.rs:306-333: the map of a valid manifest, or an error for an invalid or repeated entry. */
  method OffsetMap(m: OffsetManifest) returns (r: Outcome<Offsets>)
    ensures r.Good? <==> ManifestOk(m)
    ensures r.Good? ==> r.value == ToMap(m.offsets)
    ensures r.Bad? ==> r.error == InvalidManifest
  {
    var offsets: Offsets := map[];
    var i := 0;
    while i < |m.offsets|
      invariant 0 <= i <= |m.offsets|
      invariant DistinctKeys(m.offsets[..i]) && forall k :: 0 <= k < i ==> EntryOk(m.offsets[k])
      invariant offsets == ToMap(m.offsets[..i])
    {
      var entry := m.offsets[i];
      ghost var front := m.offsets[..i];
      assert m.offsets[..i + 1][..i] == front;
      ToMapIs(front, entry.key);
      var valid := CheckEntry(entry);
      if !valid {
        return Bad(InvalidManifest);
      }
      if entry.key in offsets {
        return Bad(InvalidManifest);
      }
      offsets := offsets[entry.key := entry.value];
      i := i + 1;
    }
    assert m.offsets[..|m.offsets|] == m.offsets;
    r := Good(offsets);
  }

  // -------------------------------------------------------------- one commit

  ghost predicate RequestOk(commits: seq<Entry>) {
    |commits| <= MAX_GROUP_OFFSETS && DistinctKeys(commits) && forall i :: 0 <= i < |commits| ==> EntryOk(commits[i])
  }

  /** Every commit of a request, applied in order. */
  function Applied(offsets: Offsets, commits: seq<Entry>): Offsets {
    if commits == [] then offsets
    else Applied(offsets, commits[..|commits| - 1])[commits[|commits| - 1].key := commits[|commits| - 1].value]
  }

  /** A request sets exactly its own keys. */
  lemma {:induction false} AppliedIs(offsets: Offsets, commits: seq<Entry>, k: TopicPartition)
    requires DistinctKeys(commits)
    ensures forall i :: 0 <= i < |commits| && commits[i].key == k ==>
      k in Applied(offsets, commits) && Applied(offsets, commits)[k] == commits[i].value
    ensures (forall i :: 0 <= i < |commits| ==> commits[i].key != k) ==>
      (k in Applied(offsets, commits) <==> k in offsets)
      && (k in offsets ==> Applied(offsets, commits)[k] == offsets[k])
  {
    if commits != [] {
      var n := |commits| - 1;
      var front := commits[..n];
      assert forall i :: 0 <= i < n ==> front[i] == commits[i];
      AppliedIs(offsets, front, k);
    }
  }

  /** What a commit writes over the manifest it loaded (src/group.rs:115-146). */
  ghost predicate Follows(m: OffsetManifest, commits: seq<Entry>, next: OffsetManifest) {
    && next.revision == m.revision + 1 <= U64_MAX
    && next.offsets == ToEntries(Applied(ToMap(m.offsets), commits))
    && |next.offsets| <= MAX_GROUP_OFFSETS
  }

  /** The entries of a map, in key order. */
  method EntriesInOrder(offsets: Offsets) returns (entries: seq<Entry>)
    ensures entries == ToEntries(offsets)
  {
    hide ToEntries, KeyLe;
    entries := [];
    var rest := offsets;
    NoneLeft(offsets);
    while |rest| > 0
      invariant entries + ToEntries(rest) == ToEntries(offsets)
      decreases |rest|
    {
      LeastKeyExists(rest.Keys);
      var k :| k in rest && forall other :: other in rest ==> KeyLe(k, other);
      FirstEntry(rest, k);
      entries := entries + [Entry(k, rest[k])];
      rest := rest - {k};
      NoneLeft(rest);
    }
  }

  lemma NoneLeft(offsets: Offsets)
    ensures |offsets| == 0 ==> ToEntries(offsets) == []
  {
  }

  lemma FirstEntry(offsets: Offsets, k: TopicPartition)
    requires k in offsets && forall other :: other in offsets ==> KeyLe(k, other)
    ensures ToEntries(offsets) == [Entry(k, offsets[k])] + ToEntries(offsets - {k})
  {
    assert offsets == (offsets - {k})[k := offsets[k]];
    KeyOrder(k, ToEntries(offsets)[0].key);
  }

  /** The body of one attempt (src/group.rs:111-146): read the map, insert every commit, write the entries. */
  method CommitOver(m: OffsetManifest, commits: seq<Entry>) returns (r: Outcome<OffsetManifest>)
    ensures r.Good? ==> ManifestOk(m) && Follows(m, commits, r.value)
    ensures r.Bad? <==>
      !ManifestOk(m) || |Applied(ToMap(m.offsets), commits)| > MAX_GROUP_OFFSETS || m.revision + 1 > U64_MAX
    ensures r.Bad? ==>
      r.error == (if !ManifestOk(m) then InvalidManifest
                  else if |Applied(ToMap(m.offsets), commits)| > MAX_GROUP_OFFSETS then OffsetLimit
                  else RevisionExhausted)
  {
    hide ManifestOk, ToMap;
    var read := OffsetMap(m);
    if read.Bad? {
      return Bad(read.error);
    }
    var offsets := read.value;
    var i := 0;
    while i < |commits|
      invariant 0 <= i <= |commits|
      invariant offsets == Applied(ToMap(m.offsets), commits[..i])
    {
      assert commits[..i + 1][..i] == commits[..i];
      offsets := offsets[commits[i].key := commits[i].value];
      i := i + 1;
    }
    assert commits[..|commits|] == commits;
    if |offsets| > MAX_GROUP_OFFSETS {
      return Bad(OffsetLimit);
    }
    if m.revision + 1 > U64_MAX {
      return Bad(RevisionExhausted);
    }
    var entries := EntriesInOrder(offsets);
    r := Good(OffsetManifest(m.revision + 1, entries));
  }

  /** The new manifest is valid, and its map is the old one with the request applied. */
  lemma FollowsMeans(m: OffsetManifest, commits: seq<Entry>, next: OffsetManifest)
    requires ManifestOk(m) && RequestOk(commits) && Follows(m, commits, next)
    ensures ManifestOk(next) && InKeyOrder(next.offsets)
    ensures ToMap(next.offsets) == Applied(ToMap(m.offsets), commits)
  {
    hide ToEntries, ToMap, EntryOk;
    var after := Applied(ToMap(m.offsets), commits);
    EntriesOf(after);
    MapRoundTrip(after);
    forall i | 0 <= i < |next.offsets| ensures EntryOk(next.offsets[i]) {
      var e := next.offsets[i];
      assert e in next.offsets;
      AppliedIs(ToMap(m.offsets), commits, e.key);
      ToMapIs(m.offsets, e.key);
      if n :| 0 <= n < |commits| && commits[n].key == e.key {
        assert e == commits[n];
      } else {
        var n :| 0 <= n < |m.offsets| && m.offsets[n].key == e.key;
        assert e == m.offsets[n];
      }
    }
  }

  // -------------------------------------------------------------- runs of concurrent committers

  datatype Proc = Idle | Committing(basis: OffsetManifest, commits: seq<Entry>) | Finished

  /** Published manifests, oldest first, the committers, and (for the proof) the requests in swap order. */
  datatype State = State(history: seq<OffsetManifest>, procs: map<nat, Proc>, applied: seq<seq<Entry>>)

  datatype Action =
    | Load(p: nat, commits: seq<Entry>)
    | Swap(p: nat, next: OffsetManifest)
    | Lose(p: nat)

  function ProcOf(s: State, p: nat): Proc {
    if p in s.procs then s.procs[p] else Idle
  }

  function Newest(s: State): OffsetManifest
    requires s.history != []
  {
    s.history[|s.history| - 1]
  }

  /** The swap compares versions, which are functions of the stored content. */
  ghost predicate Enabled(s: State, a: Action) {
    && s.history != []
    && match a
       case Load(p, commits) => ProcOf(s, p).Idle? && RequestOk(commits) && commits != []
       case Swap(p, next) =>
         && ProcOf(s, p).Committing?
         && Newest(s) == ProcOf(s, p).basis
         && Follows(ProcOf(s, p).basis, ProcOf(s, p).commits, next)
       case Lose(p) => true
  }

  ghost function Step(s: State, a: Action): State
    requires Enabled(s, a)
  {
    match a
    case Load(p, commits) => s.(procs := s.procs[p := Committing(Newest(s), commits)])
    case Swap(p, next) =>
      State(s.history + [next], s.procs[p := Finished], s.applied + [ProcOf(s, p).commits])
    case Lose(p) => s.(procs := s.procs[p := Idle])
  }

  /** Requests applied one after another. */
  function Fold(offsets: Offsets, requests: seq<seq<Entry>>): Offsets {
    if requests == [] then offsets else Applied(Fold(offsets, requests[..|requests| - 1]), requests[|requests| - 1])
  }

  ghost predicate Inv(s: State) {
    && s.history != [] && |s.applied| == |s.history| - 1
    && (forall i :: 0 <= i < |s.history| ==> ManifestOk(s.history[i]))
    && (forall i, j :: 0 <= i < j < |s.history| ==> s.history[i].revision < s.history[j].revision)
    && (forall i :: 0 <= i < |s.applied| ==> RequestOk(s.applied[i]))
    && (forall p :: p in s.procs && s.procs[p].Committing? ==>
          s.procs[p].basis in s.history && RequestOk(s.procs[p].commits))
    && ToMap(Newest(s).offsets) == Fold(ToMap(s.history[0].offsets), s.applied)
  }

  lemma StepKeeps(s: State, a: Action)
    requires Inv(s) && Enabled(s, a)
    ensures Inv(Step(s, a))
  {
    hide ManifestOk, RequestOk, Follows, ToMap, ToEntries;
    match a
    case Swap(p, next) =>
      var q := ProcOf(s, p);
      FollowsMeans(q.basis, q.commits, next);
      Rises(q.basis, q.commits, next);
      var t := Step(s, a);
      assert t.applied[..|s.applied|] == s.applied;
      forall i, j | 0 <= i < j < |t.history| ensures t.history[i].revision < t.history[j].revision {
        assert j == |s.history| && i < j - 1 ==> s.history[i].revision < s.history[j - 1].revision;
      }
    case _ =>
  }

  lemma Rises(m: OffsetManifest, commits: seq<Entry>, next: OffsetManifest)
    requires Follows(m, commits, next)
    ensures m.revision < next.revision
  {
  }

  ghost predicate Run(states: seq<State>, actions: seq<Action>) {
    && |states| == |actions| + 1
    && states[0].history != [] && |states[0].history| == 1 && ManifestOk(states[0].history[0])
    && states[0].procs == map[] && states[0].applied == []
    && forall i :: 0 <= i < |actions| ==> Enabled(states[i], actions[i]) && states[i + 1] == Step(states[i], actions[i])
  }

  lemma {:induction false} EveryState(states: seq<State>, actions: seq<Action>, i: nat)
    requires Run(states, actions) && i < |states|
    ensures Inv(states[i])
  {
    hide ManifestOk, ToMap, Follows, Step, Enabled;
    if i > 0 {
      EveryState(states, actions, i - 1);
      StepKeeps(states[i - 1], actions[i - 1]);
    }
  }

  /** Commits linearize: the stored map is every successful request applied in the order of their swaps. */
  lemma Linearizes(states: seq<State>, actions: seq<Action>, i: nat)
    requires Run(states, actions) && i < |states|
    ensures states[i].history != [] && states[0].history != []
    ensures ToMap(Newest(states[i]).offsets) == Fold(ToMap(states[0].history[0].offsets), states[i].applied)
  {
    EveryState(states, actions, i);
    FirstKept(states, actions, i);
  }

  lemma {:induction false} FirstKept(states: seq<State>, actions: seq<Action>, i: nat)
    requires Run(states, actions) && i < |states|
    ensures states[i].history != [] && states[i].history[0] == states[0].history[0]
  {
    hide ManifestOk, Follows;
    if i > 0 {
      FirstKept(states, actions, i - 1);
      assert Enabled(states[i - 1], actions[i - 1]);
    }
  }

  /** A key nobody sets again keeps the value of its last commit: updates of other keys are never lost. */
  lemma {:induction false} LastWriter(offsets: Offsets, requests: seq<seq<Entry>>, i: nat, n: nat)
    requires i < |requests| && n < |requests[i]|
    requires forall r :: 0 <= r < |requests| ==> DistinctKeys(requests[r])
    requires forall r, c :: i < r < |requests| && 0 <= c < |requests[r]| ==> requests[r][c].key != requests[i][n].key
    ensures var k := requests[i][n].key; k in Fold(offsets, requests) && Fold(offsets, requests)[k] == requests[i][n].value
    decreases |requests|
  {
    hide DistinctKeys;
    var last := |requests| - 1;
    var k := requests[i][n].key;
    var front := requests[..last];
    AppliedIs(Fold(offsets, front), requests[last], k);
    if i < last {
      assert forall r :: 0 <= r < last ==> front[r] == requests[r];
      LastWriter(offsets, front, i, n);
    }
  }

  /** A swap that succeeds was made against the newest manifest, even though versions are compared by content. */
  lemma NoLostUpdate(states: seq<State>, actions: seq<Action>, i: nat, n: nat)
    requires Run(states, actions) && i < |actions| && actions[i].Swap?
    requires ProcOf(states[i], actions[i].p).Committing? && n < |states[i].history|
    requires states[i].history[n] == ProcOf(states[i], actions[i].p).basis
    ensures n == |states[i].history| - 1
  {
    hide ManifestOk, Follows, ToMap;
    EveryState(states, actions, i);
    assert Enabled(states[i], actions[i]);
  }
}
