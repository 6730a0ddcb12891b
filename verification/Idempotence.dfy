/** How a request is decided on the producer map, and why the log stays exactly-once per producer epoch. */
module Idempotence {
  import opened LogTypes
  import opened ProducerWindow

  /** One batch of a request and its encoded length; a negative producer means no producer identity. */
  datatype Batch = Batch(producer: int, epoch: int, sequence: int, count: nat, fingerprint: string, byteLength: nat)

  /** One batch of the log, in commit order. */
  datatype Entry = Entry(producer: int, epoch: int, batch: BatchIdentity)

  type Directory = map<int, ProducerState>

  /** The private snapshot of a request: touched states, next offset, new batches and results. */
  datatype Draft = Draft(states: Directory, nextOffset: int, additions: seq<Entry>, results: seq<AppendResult>)

  /** What a request may contain once its records have been validated. */
  predicate Admissible(b: Batch) {
    && 0 < b.count <= MAX_BATCH_RECORDS
    && 0 < b.byteLength <= MAX_BATCH_BYTES
    && b.producer <= I64_MAX
    && (b.producer >= 0 ==> b.epoch >= 0)
  }

  predicate AllAdmissible(batches: seq<Batch>) {
    forall i :: 0 <= i < |batches| ==> Admissible(batches[i])
  }

  // -------------------------------------------------------------- deciding a request

  function StateFor(directory: Directory, states: Directory, b: Batch): ProducerState {
    if b.producer in states then states[b.producer]
    else if b.producer in directory then directory[b.producer]
    else ProducerState(b.producer, b.epoch, [])
  }

  function DecideOne(directory: Directory, d: Draft, b: Batch): Result<Draft> {
    var (result, states) :=
      if b.producer >= 0 then
        var (r, st) := Accept(StateFor(directory, d.states, b), b.epoch, b.sequence, b.count, b.fingerprint, d.nextOffset);
        (r, d.states[b.producer := st])
      else if d.nextOffset + b.count > I64_MAX then (Err(OffsetOverflow), d.states)
      else (Ok(AppendResult(d.nextOffset, d.nextOffset + b.count - 1)), d.states);
    match result
    case Err(e) => Err(e)
    case Ok(r) =>
      if r.baseOffset == d.nextOffset then
        var identity := BatchIdentity(b.sequence, b.count, r.baseOffset, b.fingerprint);
        Ok(Draft(states, r.lastOffset + 1, d.additions + [Entry(b.producer, b.epoch, identity)], d.results + [r]))
      else
        Ok(Draft(states, d.nextOffset, d.additions, d.results + [r]))
  }

  function DecideAll(directory: Directory, d: Draft, batches: seq<Batch>): Result<Draft>
    decreases |batches|
  {
    if batches == [] then Ok(d)
    else
      var next :- DecideOne(directory, d, batches[0]);
      DecideAll(directory, next, batches[1..])
  }

  /** The state a batch is decided against: touched in the request, stored, or new. */
  predicate Against(directory: Directory, d: Draft, b: Batch, st: ProducerState) {
    if b.producer in d.states then st == d.states[b.producer]
    else if b.producer in directory then st == directory[b.producer]
    else st.id == b.producer && st.epoch == b.epoch && st.batches == []
  }

  /**
   * One batch of a request: without a producer it is new if the offsets allow it; with one it is what
   * its producer's state makes of it. A new batch is logged at the next offsets, a retry changes
   * nothing but the results.
   */
  lemma DecideOneMeaning(directory: Directory, d: Draft, b: Batch)
    requires 0 < b.count
    requires b.producer >= 0 ==> Usable(StateFor(directory, d.states, b), d.nextOffset) && b.count <= MAX_BATCH_RECORDS
    ensures var r := DecideOne(directory, d, b);
      && (b.producer < 0 && d.nextOffset + b.count > I64_MAX ==> r == Err(OffsetOverflow))
      && (b.producer < 0 && d.nextOffset + b.count <= I64_MAX ==> r.Ok? && r.value.states == d.states)
      && (b.producer >= 0 ==>
            exists st :: Against(directory, d, b, st)
              && var (decided, after) := Accept(st, b.epoch, b.sequence, b.count, b.fingerprint, d.nextOffset);
              && (decided.Err? ==> r == Err(decided.error))
              && (decided.Ok? ==>
                    && r.Ok? && r.value.states == d.states[b.producer := after]
                    && r.value.results == d.results + [decided.value]))
      && (r.Ok? ==>
            || (r.value.nextOffset == d.nextOffset + b.count
                && r.value.results == d.results + [AppendResult(d.nextOffset, d.nextOffset + b.count - 1)]
                && r.value.additions == d.additions
                     + [Entry(b.producer, b.epoch, BatchIdentity(b.sequence, b.count, d.nextOffset, b.fingerprint))])
            || (b.producer >= 0 && r.value.nextOffset == d.nextOffset && r.value.additions == d.additions))
  {
    hide Accept, Usable, IsNew, IsRetry;
    if b.producer >= 0 {
      var st := StateFor(directory, d.states, b);
      assert Against(directory, d, b, st);
      AcceptMeaning(st, b.epoch, b.sequence, b.count, b.fingerprint, d.nextOffset);
    }
  }

  /** A request is decided batch by batch, up to the first that is refused. */
  lemma {:induction false} DecideAllMeaning(directory: Directory, d: Draft, batches: seq<Batch>) returns (drafts: seq<Draft>)
    ensures drafts != [] && drafts[0] == d && |drafts| <= |batches| + 1
    ensures forall i :: 0 <= i < |drafts| - 1 ==> DecideOne(directory, drafts[i], batches[i]) == Ok(drafts[i + 1])
    ensures match DecideAll(directory, d, batches)
      case Ok(last) => |drafts| == |batches| + 1 && drafts[|batches|] == last
      case Err(e) => |drafts| <= |batches| && DecideOne(directory, drafts[|drafts| - 1], batches[|drafts| - 1]) == Err(e)
    decreases |batches|
  {
    hide DecideOne;
    drafts := [d];
    if batches != [] && DecideOne(directory, d, batches[0]).Ok? {
      var rest := DecideAllMeaning(directory, DecideOne(directory, d, batches[0]).value, batches[1..]);
      drafts := [d] + rest;
      assert forall i :: 0 < i < |drafts| ==> drafts[i] == rest[i - 1];
    }
  }

  /** The errors a request itself can be refused with. */
  predicate Refusal(e: LogError) {
    e in {InvalidProducerEpoch, OutOfOrderSequence, ConflictingSequence, OffsetOverflow}
  }

  lemma {:induction false} OnlyRefusals(directory: Directory, d: Draft, batches: seq<Batch>)
    ensures DecideAll(directory, d, batches).Err? ==> Refusal(DecideAll(directory, d, batches).error)
    decreases |batches|
  {
    if batches != [] && DecideOne(directory, d, batches[0]).Ok? {
      OnlyRefusals(directory, DecideOne(directory, d, batches[0]).value, batches[1..]);
    }
  }

  // -------------------------------------------------------------- the log of one epoch

  /** The batches one producer logged in one epoch, in log order. */
  function EpochLog(log: seq<Entry>, producer: int, epoch: int): seq<BatchIdentity> {
    if log == [] then []
    else
      var front, last := EpochLog(log[..|log| - 1], producer, epoch), log[|log| - 1];
      if last.producer == producer && last.epoch == epoch then front + [last.batch] else front
  }

  lemma EpochLogSnoc(log: seq<Entry>, e: Entry, producer: int, epoch: int)
    ensures EpochLog(log + [e], producer, epoch) ==
      EpochLog(log, producer, epoch) + (if e.producer == producer && e.epoch == epoch then [e.batch] else [])
  {
    assert (log + [e])[..|log|] == log;
  }

  /** Batch k starts at the number of records before it, modulo 2^31. */
  predicate Chained(batches: seq<BatchIdentity>) {
    forall k :: 0 <= k < |batches| ==> batches[k].sequence == Advance(0, Records(batches[..k]))
  }

  function LastFive(batches: seq<BatchIdentity>): seq<BatchIdentity> {
    if |batches| <= RETRY_BATCHES then batches else batches[|batches| - RETRY_BATCHES..]
  }

  lemma LastFiveSnoc(batches: seq<BatchIdentity>, b: BatchIdentity)
    ensures LastFive(batches + [b]) == Remember(LastFive(batches), b)
  {
  }

  lemma NextOfChain(batches: seq<BatchIdentity>)
    requires Chained(batches)
    ensures NextSequence(LastFive(batches)) == Advance(0, Records(batches))
  {
    hide Advance, Records, Chained;
    if batches == [] {
      NoRecords();
    } else {
      var n := |batches| - 1;
      ChainedAt(batches, n);
      assert LastFive(batches)[|LastFive(batches)| - 1] == batches[n];
      RecordsLast(batches);
      AdvanceTwice(0, Records(batches[..n]), batches[n].count);
    }
  }

  lemma ChainedAt(batches: seq<BatchIdentity>, k: nat)
    requires Chained(batches) && k < |batches|
    ensures batches[k].sequence == Advance(0, Records(batches[..k]))
  {
  }

  lemma NoRecords()
    ensures Advance(0, Records([])) == 0
  {
  }

  lemma RecordsLast(batches: seq<BatchIdentity>)
    requires batches != []
    ensures Records(batches) == Records(batches[..|batches| - 1]) + batches[|batches| - 1].count
  {
  }

  lemma ChainSnoc(batches: seq<BatchIdentity>, b: BatchIdentity)
    requires Chained(batches) && b.sequence == Advance(0, Records(batches))
    ensures Chained(batches + [b])
  {
    var longer := batches + [b];
    forall k | 0 <= k < |longer| ensures longer[k].sequence == Advance(0, Records(longer[..k])) {
      assert longer[..k] == batches[..k];
    }
    assert batches[..|batches|] == batches;
  }

  // -------------------------------------------------------------- the invariant

  /** One producer's durable state is the last five batches of its current epoch. */
  ghost predicate Remembers(st: ProducerState, id: int, nextOffset: int, log: seq<Entry>) {
    && st.id == id
    && StateOk(st, nextOffset)
    && st.batches == LastFive(EpochLog(log, id, st.epoch))
  }

  /** Every logged batch belongs to a known producer, at its current epoch or an older one. */
  predicate Known(directory: Directory, e: Entry) {
    e.producer >= 0 ==> e.producer in directory && e.epoch <= directory[e.producer].epoch
  }

  ghost predicate Faithful(directory: Directory, nextOffset: int, log: seq<Entry>) {
    && 0 <= nextOffset
    && (forall id :: id in directory ==> Remembers(directory[id], id, nextOffset, log))
    && (forall i :: 0 <= i < |log| ==> Known(directory, log[i]))
    && (forall id, epoch :: id >= 0 ==> Chained(EpochLog(log, id, epoch)))
  }

  lemma {:induction false} UnknownEpoch(directory: Directory, log: seq<Entry>, id: int, epoch: int)
    requires id >= 0 && forall i :: 0 <= i < |log| ==> Known(directory, log[i])
    requires id in directory ==> epoch > directory[id].epoch
    ensures EpochLog(log, id, epoch) == []
  {
    if log != [] {
      var front := log[..|log| - 1];
      assert forall i :: 0 <= i < |front| ==> front[i] == log[i];
      UnknownEpoch(directory, front, id, epoch);
      assert Known(directory, log[|log| - 1]);
    }
  }

  /** Logging one new batch of a producer keeps the invariant. */
  lemma LogNewBatch(directory: Directory, nextOffset: int, log: seq<Entry>, b: Batch, st: ProducerState)
    requires Faithful(directory, nextOffset, log) && Admissible(b) && b.producer >= 0
    requires st == StateFor(directory, map[], b) && IsNew(st, b.epoch, b.sequence)
    requires nextOffset + b.count <= I64_MAX
    ensures var identity := BatchIdentity(b.sequence, b.count, nextOffset, b.fingerprint);
      var next := ProducerState(b.producer, b.epoch, Remember(if b.epoch == st.epoch then st.batches else [], identity));
      Faithful(directory[b.producer := next], nextOffset + b.count, log + [Entry(b.producer, b.epoch, identity)])
  {
    hide Records, Advance, EpochLog, Chained, Remember, IsNew, StateFor, LastFive, NextSequence, StateOk, Usable;
    var identity := BatchIdentity(b.sequence, b.count, nextOffset, b.fingerprint);
    var entry := Entry(b.producer, b.epoch, identity);
    var next := ProducerState(b.producer, b.epoch, Remember(if b.epoch == st.epoch then st.batches else [], identity));
    var before := EpochLog(log, b.producer, b.epoch);
    CurrentWindow(directory, nextOffset, log, b, st);
    NewState(st, b, nextOffset);
    LastFiveSnoc(before, identity);
    NextOfChain(before);
    EpochLogSnoc(log, entry, b.producer, b.epoch);
    ChainsAfter(log, entry);
    RemembersAfter(directory, nextOffset, log, next, entry, b.count);
    KnownAfter(directory, log, next, entry);
  }

  lemma ChainsAfter(log: seq<Entry>, e: Entry)
    requires forall id, epoch :: id >= 0 ==> Chained(EpochLog(log, id, epoch))
    requires e.producer >= 0 && e.batch.sequence == Advance(0, Records(EpochLog(log, e.producer, e.epoch)))
    ensures forall id, epoch :: id >= 0 ==> Chained(EpochLog(log + [e], id, epoch))
  {
    hide Records, Advance, EpochLog, Chained;
    ChainSnoc(EpochLog(log, e.producer, e.epoch), e.batch);
    forall id, epoch | id >= 0 ensures Chained(EpochLog(log + [e], id, epoch)) {
      EpochLogSnoc(log, e, id, epoch);
      assert Chained(EpochLog(log, id, epoch));
      assert EpochLog(log, id, epoch) + [] == EpochLog(log, id, epoch);
    }
  }

  lemma RemembersAfter(directory: Directory, nextOffset: int, log: seq<Entry>, next: ProducerState, e: Entry, count: nat)
    requires forall id :: id in directory ==> Remembers(directory[id], id, nextOffset, log)
    requires e.producer == next.id && Remembers(next, next.id, nextOffset + count, log + [e])
    ensures var after := directory[next.id := next];
      forall id :: id in after ==> Remembers(after[id], id, nextOffset + count, log + [e])
  {
    hide Remembers;
    forall id | id in directory && id != next.id
      ensures Remembers(directory[id], id, nextOffset + count, log + [e])
    {
      StillRemembers(directory[id], id, nextOffset, log, e, count);
    }
  }

  lemma StillRemembers(st: ProducerState, id: int, nextOffset: int, log: seq<Entry>, e: Entry, count: nat)
    requires Remembers(st, id, nextOffset, log) && e.producer != id
    ensures Remembers(st, id, nextOffset + count, log + [e])
  {
    hide EpochLog;
    EpochLogSnoc(log, e, id, st.epoch);
    assert EpochLog(log, id, st.epoch) + [] == EpochLog(log, id, st.epoch);
    WindowGrows(st, nextOffset, nextOffset + count);
  }

  lemma KnownAfter(directory: Directory, log: seq<Entry>, next: ProducerState, e: Entry)
    requires forall i :: 0 <= i < |log| ==> Known(directory, log[i])
    requires e.producer == next.id && e.epoch == next.epoch
    requires next.id in directory ==> directory[next.id].epoch <= next.epoch
    ensures forall i :: 0 <= i < |log + [e]| ==> Known(directory[next.id := next], (log + [e])[i])
  {
    var longer := log + [e];
    forall i | 0 <= i < |longer| ensures Known(directory[next.id := next], longer[i]) {
      assert i < |log| ==> Known(directory, log[i]);
    }
  }

  /** The window a new batch extends is the tail of its own epoch's log. */
  lemma CurrentWindow(directory: Directory, nextOffset: int, log: seq<Entry>, b: Batch, st: ProducerState)
    requires Faithful(directory, nextOffset, log) && Admissible(b) && b.producer >= 0
    requires st == StateFor(directory, map[], b) && IsNew(st, b.epoch, b.sequence)
    ensures (if b.epoch == st.epoch then st.batches else []) == LastFive(EpochLog(log, b.producer, b.epoch))
    ensures b.sequence == NextSequence(LastFive(EpochLog(log, b.producer, b.epoch)))
    ensures st.id == b.producer && Usable(st, nextOffset)
    ensures b.producer in directory ==> directory[b.producer].epoch <= b.epoch
    ensures Chained(EpochLog(log, b.producer, b.epoch))
  {
    if b.producer in directory {
      assert Remembers(directory[b.producer], b.producer, nextOffset, log);
    }
    if b.producer !in directory || b.epoch > st.epoch {
      UnknownEpoch(directory, log, b.producer, b.epoch);
    }
  }

  lemma NewState(st: ProducerState, b: Batch, nextOffset: int)
    requires Usable(st, nextOffset) && st.id == b.producer && IsNew(st, b.epoch, b.sequence)
    requires Admissible(b) && b.producer >= 0 && 0 <= nextOffset && nextOffset + b.count <= I64_MAX
    ensures var identity := BatchIdentity(b.sequence, b.count, nextOffset, b.fingerprint);
      StateOk(ProducerState(b.producer, b.epoch, Remember(if b.epoch == st.epoch then st.batches else [], identity)),
              nextOffset + b.count)
  {
    AcceptKeepsStates(st, b.epoch, b.sequence, b.count, b.fingerprint, nextOffset);
    AcceptMeaning(st, b.epoch, b.sequence, b.count, b.fingerprint, nextOffset);
  }

  /** A batch without identity moves the offsets and nothing else. */
  lemma LogAnonymous(directory: Directory, nextOffset: int, log: seq<Entry>, e: Entry, count: nat)
    requires Faithful(directory, nextOffset, log) && e.producer < 0
    ensures Faithful(directory, nextOffset + count, log + [e])
  {
    hide Records, Advance, EpochLog;
    var longer := log + [e];
    forall id, epoch | id >= 0 ensures EpochLog(longer, id, epoch) == EpochLog(log, id, epoch) {
      EpochLogSnoc(log, e, id, epoch);
    }
    forall id | id in directory ensures Remembers(directory[id], id, nextOffset + count, longer) {
      assert Remembers(directory[id], id, nextOffset, log);
      WindowGrows(directory[id], nextOffset, nextOffset + count);
    }
    forall i | 0 <= i < |longer| ensures Known(directory, longer[i]) {
      assert i < |log| ==> Known(directory, log[i]);
    }
  }

  // -------------------------------------------------------------- one request

  /** A draft is faithful to the log it would extend. */
  ghost predicate DraftFaithful(directory: Directory, log: seq<Entry>, d: Draft) {
    Faithful(directory + d.states, d.nextOffset, log + d.additions)
  }

  /** Where an acknowledged batch is in the log. */
  predicate LoggedAs(log: seq<Entry>, b: Batch, r: AppendResult) {
    && r.lastOffset == r.baseOffset + b.count - 1
    && Entry(b.producer, b.epoch, BatchIdentity(b.sequence, b.count, r.baseOffset, b.fingerprint)) in log
  }

  lemma {:induction false} InEpochLog(log: seq<Entry>, producer: int, epoch: int, b: BatchIdentity)
    requires b in EpochLog(log, producer, epoch)
    ensures Entry(producer, epoch, b) in log
  {
    var last := log[|log| - 1];
    if !(last.producer == producer && last.epoch == epoch && last.batch == b) {
      InEpochLog(log[..|log| - 1], producer, epoch, b);
    }
  }

  lemma {:induction false} EpochLogHas(log: seq<Entry>, producer: int, epoch: int, b: BatchIdentity)
    requires Entry(producer, epoch, b) in log
    ensures b in EpochLog(log, producer, epoch)
  {
    var n := |log| - 1;
    if log[n] != Entry(producer, epoch, b) {
      var i :| 0 <= i < |log| && log[i] == Entry(producer, epoch, b);
      assert log[..n][i] == log[i];
      EpochLogHas(log[..n], producer, epoch, b);
    }
  }

  lemma DecideOneCorrect(directory: Directory, log: seq<Entry>, d: Draft, b: Batch)
    requires DraftFaithful(directory, log, d) && Admissible(b)
    ensures var r := DecideOne(directory, d, b);
      r.Ok? ==>
        && DraftFaithful(directory, log, r.value)
        && |r.value.results| == |d.results| + 1
        && r.value.results[..|d.results|] == d.results
        && d.additions <= r.value.additions
        && LoggedAs(log + r.value.additions, b, r.value.results[|d.results|])
        && d.nextOffset <= r.value.nextOffset
  {
    hide Faithful, Accept, IsNew, IsRetry, Usable;
    var known := directory + d.states;
    var all := log + d.additions;
    var r := DecideOne(directory, d, b);
    if r.Ok? && b.producer >= 0 {
      var st := StateFor(directory, d.states, b);
      assert st == StateFor(known, map[], b);
      StateUsable(known, d.nextOffset, all, b);
      AcceptMeaning(st, b.epoch, b.sequence, b.count, b.fingerprint, d.nextOffset);
      if IsNew(st, b.epoch, b.sequence) {
        LogNewBatch(known, d.nextOffset, all, b, st);
        NewDraft(directory, log, d, b, st, r.value);
      } else {
        RetriedDraft(directory, log, d, b, st, r.value);
      }
    } else if r.Ok? {
      var e := r.value.additions[|d.additions|];
      LogAnonymous(known, d.nextOffset, all, e, b.count);
      assert log + r.value.additions == all + [e];
    }
  }

  lemma StateUsable(directory: Directory, nextOffset: int, log: seq<Entry>, b: Batch)
    requires Faithful(directory, nextOffset, log) && Admissible(b) && b.producer >= 0
    ensures Usable(StateFor(directory, map[], b), nextOffset) && StateFor(directory, map[], b).id == b.producer
  {
    if b.producer in directory {
      assert Remembers(directory[b.producer], b.producer, nextOffset, log);
    }
  }

  lemma NewDraft(directory: Directory, log: seq<Entry>, d: Draft, b: Batch, st: ProducerState, after: Draft)
    requires b.producer >= 0 && DecideOne(directory, d, b) == Ok(after) && st == StateFor(directory, d.states, b)
    requires Usable(st, d.nextOffset) && Admissible(b) && IsNew(st, b.epoch, b.sequence) && st.id == b.producer
    requires
      var identity := BatchIdentity(b.sequence, b.count, d.nextOffset, b.fingerprint);
      var next := ProducerState(b.producer, b.epoch, Remember(if b.epoch == st.epoch then st.batches else [], identity));
      Faithful((directory + d.states)[b.producer := next], d.nextOffset + b.count,
               log + d.additions + [Entry(b.producer, b.epoch, identity)])
    ensures DraftFaithful(directory, log, after)
    ensures LoggedAs(log + after.additions, b, after.results[|d.results|])
  {
    hide Faithful;
    AcceptMeaning(st, b.epoch, b.sequence, b.count, b.fingerprint, d.nextOffset);
    var next := Accept(st, b.epoch, b.sequence, b.count, b.fingerprint, d.nextOffset).1;
    assert directory + d.states[b.producer := next] == (directory + d.states)[b.producer := next];
    var e := Entry(b.producer, b.epoch, BatchIdentity(b.sequence, b.count, d.nextOffset, b.fingerprint));
    assert log + (d.additions + [e]) == log + d.additions + [e];
  }

  lemma RetriedDraft(directory: Directory, log: seq<Entry>, d: Draft, b: Batch, st: ProducerState, after: Draft)
    requires b.producer >= 0 && DecideOne(directory, d, b) == Ok(after) && st == StateFor(directory, d.states, b)
    requires DraftFaithful(directory, log, d) && Admissible(b) && !IsNew(st, b.epoch, b.sequence)
    requires Usable(st, d.nextOffset)
    ensures DraftFaithful(directory, log, after)
    ensures after.additions == d.additions && after.nextOffset == d.nextOffset
    ensures b.producer in directory + d.states && directory + after.states == directory + d.states
    ensures LoggedAs(log + after.additions, b, after.results[|d.results|])
  {
    hide Chained, Faithful, Accept, Usable, IsNew;
    AcceptMeaning(st, b.epoch, b.sequence, b.count, b.fingerprint, d.nextOffset);
    var known, all := directory + d.states, log + d.additions;
    var c :| c in st.batches && c.sequence == b.sequence && c.count == b.count && c.fingerprint == b.fingerprint
      && after.results[|d.results|] == AppendResult(c.baseOffset, c.baseOffset + b.count - 1);
    assert st == StateFor(known, map[], b);
    RetriedLogged(known, d.nextOffset, all, b, c);
    assert known == directory + after.states;
  }

  lemma RetriedLogged(directory: Directory, nextOffset: int, log: seq<Entry>, b: Batch, c: BatchIdentity)
    requires Faithful(directory, nextOffset, log) && b.producer >= 0
    requires c in StateFor(directory, map[], b).batches && b.epoch == StateFor(directory, map[], b).epoch
    ensures b.producer in directory && Entry(b.producer, b.epoch, c) in log
  {
    assert Remembers(directory[b.producer], b.producer, nextOffset, log);
    InEpochLog(log, b.producer, b.epoch, c);
  }

  lemma {:induction false} DecideAllCorrect(directory: Directory, log: seq<Entry>, d: Draft, batches: seq<Batch>)
    requires DraftFaithful(directory, log, d) && AllAdmissible(batches)
    ensures var r := DecideAll(directory, d, batches);
      r.Ok? ==>
        && DraftFaithful(directory, log, r.value)
        && |r.value.results| == |d.results| + |batches|
        && r.value.results[..|d.results|] == d.results
        && d.additions <= r.value.additions
        && d.nextOffset <= r.value.nextOffset
        && forall i :: 0 <= i < |batches| ==> LoggedAs(log + r.value.additions, batches[i], r.value.results[|d.results| + i])
    decreases |batches|
  {
    hide DraftFaithful;
    if batches != [] {
      DecideOneCorrect(directory, log, d, batches[0]);
      match DecideOne(directory, d, batches[0])
      case Err(_) =>
      case Ok(next) =>
        DecideAllCorrect(directory, log, next, batches[1..]);
        var r := DecideAll(directory, next, batches[1..]);
        if r.Ok? {
          forall i | 0 <= i < |batches|
            ensures LoggedAs(log + r.value.additions, batches[i], r.value.results[|d.results| + i])
          {
            if i > 0 {
              assert batches[i] == batches[1..][i - 1];
            } else {
              assert r.value.results[..|next.results|][|d.results|] == next.results[|d.results|];
              assert log + next.additions <= log + r.value.additions;
            }
          }
        }
    }
  }

  // -------------------------------------------------------------- sequence numbers of an epoch log

  /** A sequence number recurs only after a whole wrap: at least 2^31 records lie between. */
  lemma NoDuplicates(batches: seq<BatchIdentity>, i: nat, j: nat)
    requires Chained(batches) && i < j < |batches| && batches[i].sequence == batches[j].sequence
    requires forall k :: 0 <= k < |batches| ==> batches[k].count > 0
    ensures Records(batches[i..j]) % SEQUENCES == 0 && Records(batches[i..j]) >= SEQUENCES
  {
    hide Chained, Records, Advance;
    SomeRecords(batches[i..j]);
    ChainedAt(batches, i);
    ChainedAt(batches, j);
    RecordsAppend(batches[..i], batches[i..j]);
    assert batches[..i] + batches[i..j] == batches[..j];
    WrapOnly(Records(batches[..i]), Records(batches[i..j]));
  }

  lemma SomeRecords(batches: seq<BatchIdentity>)
    requires batches != [] && forall k :: 0 <= k < |batches| ==> batches[k].count > 0
    ensures Records(batches) > 0
  {
  }

  lemma WrapOnly(a: nat, d: nat)
    requires Advance(0, a) == Advance(0, a + d)
    ensures d % SEQUENCES == 0
    ensures d > 0 ==> d >= SEQUENCES
  {
    var x, y := a / SEQUENCES, (a + d) / SEQUENCES;
    assert d == (y - x) * SEQUENCES;
    ModShift(0, y - x);
  }
}
