/** The five-batch sequence window of one producer (src/log/producer.rs:69-166). */
module ProducerWindow {
  import opened LogTypes

  const SEQUENCES: int := 0x8000_0000 // sequence numbers are counted modulo 2^31

  datatype AppendResult = AppendResult(baseOffset: int, lastOffset: int)

  function Advance(sequence: int, count: nat): int {
    (sequence + count) % SEQUENCES
  }

  function Records(batches: seq<BatchIdentity>): nat {
    if batches == [] then 0 else Records(batches[..|batches| - 1]) + batches[|batches| - 1].count
  }

  lemma {:induction false} RecordsAppend(a: seq<BatchIdentity>, b: seq<BatchIdentity>)
    ensures Records(a + b) == Records(a) + Records(b)
    decreases |b|
  {
    if b == [] {
      assert a + b == a;
    } else {
      assert (a + b)[..|a + b| - 1] == a + b[..|b| - 1];
      RecordsAppend(a, b[..|b| - 1]);
    }
  }

  function NextSequence(batches: seq<BatchIdentity>): int {
    if batches == [] then 0 else Advance(batches[|batches| - 1].sequence, batches[|batches| - 1].count)
  }

  // -------------------------------------------------------------- durable states

  ghost predicate BatchOk(b: BatchIdentity, nextOffset: int) {
    && 0 <= b.sequence < SEQUENCES
    && 0 < b.count <= MAX_BATCH_RECORDS
    && 0 <= b.baseOffset
    && b.baseOffset + b.count <= nextOffset
  }

  /** Each batch continues the sequence numbers and lies above the offsets of the one before it. */
  ghost predicate Follows(a: BatchIdentity, b: BatchIdentity) {
    Advance(a.sequence, a.count) == b.sequence && a.baseOffset + a.count <= b.baseOffset
  }

  ghost predicate WindowOk(batches: seq<BatchIdentity>, nextOffset: int) {
    && (forall i :: 0 <= i < |batches| ==> BatchOk(batches[i], nextOffset))
    && (forall i :: 0 < i < |batches| ==> Follows(batches[i - 1], batches[i]))
  }

  /** src/log/producer.rs:136-165, without fingerprint syntax. */
  ghost predicate StateOk(st: ProducerState, nextOffset: int) {
    && 0 <= st.id <= I64_MAX && 0 <= st.epoch
    && 0 < |st.batches| <= RETRY_BATCHES
    && WindowOk(st.batches, nextOffset)
  }

  /** A state as the append path holds it: durable, or new and still empty. */
  ghost predicate Usable(st: ProducerState, nextOffset: int) {
    && 0 <= st.id <= I64_MAX && 0 <= st.epoch
    && |st.batches| <= RETRY_BATCHES
    && WindowOk(st.batches, nextOffset)
  }

  /** The check in the source, batch by batch; values outside their integer types do not decode. */
  method ValidateState(st: ProducerState, nextOffset: int) returns (ok: bool)
    ensures ok == StateOk(st, nextOffset)
  {
    if st.id < 0 || st.id > I64_MAX || st.epoch < 0 || st.batches == [] || |st.batches| > RETRY_BATCHES {
      return false;
    }
    var previous: Option<BatchIdentity> := None;
    var i := 0;
    while i < |st.batches|
      invariant 0 <= i <= |st.batches|
      invariant previous == if i == 0 then None else Some(st.batches[i - 1])
      invariant forall k :: 0 <= k < i ==> BatchOk(st.batches[k], nextOffset)
      invariant forall k :: 0 < k < i ==> Follows(st.batches[k - 1], st.batches[k])
    {
      var b := st.batches[i];
      if b.sequence < 0 || b.sequence >= SEQUENCES || b.count == 0 || b.count > MAX_BATCH_RECORDS || b.baseOffset < 0
         || b.baseOffset + b.count > nextOffset
         || (previous.Some? && (Advance(previous.value.sequence, previous.value.count) != b.sequence
                                || previous.value.baseOffset + previous.value.count > b.baseOffset)) {
        return false;
      }
      previous := Some(b);
      i := i + 1;
    }
    ok := true;
  }

  // -------------------------------------------------------------- sequence numbers in a window

  lemma AdvanceTwice(a: int, b: nat, c: nat)
    ensures Advance(Advance(a, b), c) == Advance(a, b + c)
  {
    var x := a + b;
    assert x == x / SEQUENCES * SEQUENCES + x % SEQUENCES;
    assert x + c == x / SEQUENCES * SEQUENCES + (x % SEQUENCES + c);
    ModShift(x % SEQUENCES + c, x / SEQUENCES);
  }

  lemma ModShift(y: int, q: int)
    ensures (q * SEQUENCES + y) % SEQUENCES == y % SEQUENCES
  {
  }

  /** Fewer than 2^31 records never lead back to the same sequence number. */
  lemma AdvanceMoves(a: int, d: nat)
    requires 0 <= a < SEQUENCES && 0 < d < SEQUENCES
    ensures Advance(a, d) != a
  {
    if a + d >= SEQUENCES {
      ModShift(a + d - SEQUENCES, 1);
    }
  }

  /** Sequence numbers in a window are partial sums of record counts, modulo 2^31. */
  lemma {:induction false} WindowSums(batches: seq<BatchIdentity>, nextOffset: int, i: nat, j: nat)
    requires WindowOk(batches, nextOffset) && i <= j < |batches|
    ensures batches[j].sequence == Advance(batches[i].sequence, Records(batches[i..j]))
    ensures j - i <= Records(batches[i..j]) <= (j - i) * MAX_BATCH_RECORDS
    decreases j
  {
    if i == j {
      assert batches[i..j] == [];
      assert BatchOk(batches[i], nextOffset);
    } else {
      hide Advance, WindowOk;
      WindowSums(batches, nextOffset, i, j - 1);
      WindowStep(batches, nextOffset, j);
      assert batches[i..j][..j - i - 1] == batches[i..j - 1];
      AdvanceTwice(batches[i].sequence, Records(batches[i..j - 1]), batches[j - 1].count);
    }
  }

  lemma WindowStep(batches: seq<BatchIdentity>, nextOffset: int, j: nat)
    requires WindowOk(batches, nextOffset) && 0 < j < |batches|
    ensures batches[j].sequence == Advance(batches[j - 1].sequence, batches[j - 1].count)
    ensures 0 < batches[j - 1].count <= MAX_BATCH_RECORDS
  {
    assert Follows(batches[j - 1], batches[j]) && BatchOk(batches[j - 1], nextOffset);
  }

  /**
   * Remembered sequence numbers are distinct, and the next one is none of them: five batches
   * span at most 500 000 records, far below 2^31.
   */
  lemma NoCollision(batches: seq<BatchIdentity>, nextOffset: int)
    requires WindowOk(batches, nextOffset) && |batches| <= RETRY_BATCHES
    ensures forall i, j :: 0 <= i < j < |batches| ==> batches[i].sequence != batches[j].sequence
    ensures forall i :: 0 <= i < |batches| ==> batches[i].sequence != NextSequence(batches)
  {
    hide Advance, Records;
    forall i, j | 0 <= i < j < |batches| ensures batches[i].sequence != batches[j].sequence {
      WindowSums(batches, nextOffset, i, j);
      assert BatchOk(batches[i], nextOffset);
      AdvanceMoves(batches[i].sequence, Records(batches[i..j]));
    }
    forall i | 0 <= i < |batches| ensures batches[i].sequence != NextSequence(batches) {
      var n := |batches| - 1;
      WindowSums(batches, nextOffset, i, n);
      assert BatchOk(batches[i], nextOffset) && BatchOk(batches[n], nextOffset);
      AdvanceTwice(batches[i].sequence, Records(batches[i..n]), batches[n].count);
      AdvanceMoves(batches[i].sequence, Records(batches[i..n]) + batches[n].count);
    }
  }

  // -------------------------------------------------------------- one decision

  function FindSequence(batches: seq<BatchIdentity>, sequence: int): Option<BatchIdentity> {
    if batches == [] then None
    else if batches[0].sequence == sequence then Some(batches[0])
    else FindSequence(batches[1..], sequence)
  }

  lemma {:induction false} FoundSequence(batches: seq<BatchIdentity>, sequence: int)
    ensures match FindSequence(batches, sequence)
      case Some(b) => b in batches && b.sequence == sequence
      case None => forall b :: b in batches ==> b.sequence != sequence
  {
    if batches != [] && batches[0].sequence != sequence {
      FoundSequence(batches[1..], sequence);
    }
  }

  function Remember(batches: seq<BatchIdentity>, b: BatchIdentity): seq<BatchIdentity> {
    var longer := batches + [b];
    if |longer| > RETRY_BATCHES then longer[1..] else longer
  }

  /** The decision and the state it leaves, error cases included. */
  function Accept(st: ProducerState, epoch: int, sequence: int, count: nat, fingerprint: string, nextOffset: int)
    : (Result<AppendResult>, ProducerState)
  {
    if epoch < st.epoch then (Err(InvalidProducerEpoch), st)
    else if epoch > st.epoch && sequence != 0 then (Err(OutOfOrderSequence), st)
    else
      var now := if epoch > st.epoch then ProducerState(st.id, epoch, []) else st;
      match FindSequence(now.batches, sequence)
      case Some(b) =>
        if b.count != count || b.fingerprint != fingerprint then (Err(ConflictingSequence), now)
        else (Ok(AppendResult(b.baseOffset, b.baseOffset + count - 1)), now)
      case None =>
        if sequence != NextSequence(now.batches) then (Err(OutOfOrderSequence), now)
        else if nextOffset + count > I64_MAX then (Err(OffsetOverflow), now)
        else
          (Ok(AppendResult(nextOffset, nextOffset + count - 1)),
           now.(batches := Remember(now.batches, BatchIdentity(sequence, count, nextOffset, fingerprint))))
  }

  /** A batch that continues its producer's sequence in its epoch, or opens a higher epoch. */
  ghost predicate IsNew(st: ProducerState, epoch: int, sequence: int) {
    (epoch == st.epoch && sequence == NextSequence(st.batches)) || (epoch > st.epoch && sequence == 0)
  }

  /** A batch the window remembers, with the same size and contents. */
  ghost predicate IsRetry(st: ProducerState, epoch: int, sequence: int, count: nat, fingerprint: string) {
    epoch == st.epoch &&
    exists b :: b in st.batches && b.sequence == sequence && b.count == count && b.fingerprint == fingerprint
  }

  /**
   * What a decision means for a usable state: it succeeds exactly on a new batch that fits the
   * offsets or on a remembered retry, never both; a new batch gets the next offsets, a retry gets
   * its original ones and changes nothing; and `base_offset == next_offset` holds exactly for new
   * batches.
   */
  lemma AcceptMeaning(st: ProducerState, epoch: int, sequence: int, count: nat, fingerprint: string, nextOffset: int)
    requires Usable(st, nextOffset) && 0 < count <= MAX_BATCH_RECORDS
    ensures var (r, next) := Accept(st, epoch, sequence, count, fingerprint, nextOffset);
      && (r.Ok? <==> (IsNew(st, epoch, sequence) && nextOffset + count <= I64_MAX)
                     || IsRetry(st, epoch, sequence, count, fingerprint))
      && !(IsNew(st, epoch, sequence) && IsRetry(st, epoch, sequence, count, fingerprint))
      && (r.Ok? && IsNew(st, epoch, sequence) ==>
            && r.value == AppendResult(nextOffset, nextOffset + count - 1)
            && next.epoch == epoch && next.id == st.id
            && next.batches
               == Remember(if epoch == st.epoch then st.batches else [],
                           BatchIdentity(sequence, count, nextOffset, fingerprint)))
      && (r.Ok? && !IsNew(st, epoch, sequence) ==>
            && next == st
            && exists b :: b in st.batches && b.sequence == sequence && b.count == count
                 && b.fingerprint == fingerprint
                 && r.value == AppendResult(b.baseOffset, b.baseOffset + count - 1))
      && (r.Ok? ==> (r.value.baseOffset == nextOffset <==> IsNew(st, epoch, sequence)))
  {
    NoCollision(st.batches, nextOffset);
    FoundSequence(st.batches, sequence);
    if epoch == st.epoch {
      match FindSequence(st.batches, sequence)
      case None =>
      case Some(b) =>
        var i :| 0 <= i < |st.batches| && st.batches[i] == b;
        assert BatchOk(b, nextOffset);
        forall c | c in st.batches && c.sequence == sequence ensures c == b {
          var j :| 0 <= j < |st.batches| && st.batches[j] == c;
        }
    }
  }

  /** The sequence number the epoch expects next: 0 at first, then where the last batch ended, modulo 2^31. */
  predicate Expects(st: ProducerState, sequence: int) {
    if st.batches == [] then sequence == 0
    else
      var last := st.batches[|st.batches| - 1];
      sequence == (last.sequence + last.count) % 0x8000_0000
  }

  predicate Recalls(st: ProducerState, sequence: int) {
    exists b :: b in st.batches && b.sequence == sequence
  }

  /** Which error a refused batch gets: an old epoch, a gap, a conflicting retry, or no offsets left. */
  lemma RefusalMeaning(st: ProducerState, epoch: int, sequence: int, count: nat, fingerprint: string, nextOffset: int)
    requires Usable(st, nextOffset) && 0 < count <= MAX_BATCH_RECORDS
    ensures var r := Accept(st, epoch, sequence, count, fingerprint, nextOffset).0;
      && (r == Err(InvalidProducerEpoch) <==> epoch < st.epoch)
      && (r == Err(OutOfOrderSequence) <==>
            || (epoch > st.epoch && sequence != 0)
            || (epoch == st.epoch && !Recalls(st, sequence) && !Expects(st, sequence)))
      && (r == Err(ConflictingSequence) <==>
            epoch == st.epoch && Recalls(st, sequence)
            && forall b :: b in st.batches && b.sequence == sequence ==> b.count != count || b.fingerprint != fingerprint)
      && (r == Err(OffsetOverflow) <==>
            nextOffset + count > I64_MAX
            && ((epoch > st.epoch && sequence == 0)
                || (epoch == st.epoch && !Recalls(st, sequence) && Expects(st, sequence))))
      && (r.Err? ==> r.error in {InvalidProducerEpoch, OutOfOrderSequence, ConflictingSequence, OffsetOverflow})
  {
    NoCollision(st.batches, nextOffset);
    FoundSequence(st.batches, sequence);
    match FindSequence(st.batches, sequence)
    case None =>
    case Some(b) =>
      forall c | c in st.batches && c.sequence == sequence ensures c == b {
        var i :| 0 <= i < |st.batches| && st.batches[i] == b;
        var j :| 0 <= j < |st.batches| && st.batches[j] == c;
      }
  }

  /** A successful decision leaves a durable state, valid for the offsets after the batch. */
  lemma AcceptKeepsStates(st: ProducerState, epoch: int, sequence: int, count: nat, fingerprint: string, nextOffset: int)
    requires Usable(st, nextOffset) && 0 <= epoch && 0 <= nextOffset && 0 < count <= MAX_BATCH_RECORDS
    ensures var (r, next) := Accept(st, epoch, sequence, count, fingerprint, nextOffset);
      r.Ok? ==>
        && StateOk(next, if r.value.baseOffset == nextOffset then nextOffset + count else nextOffset)
        && next.id == st.id
        && (r.value.baseOffset != nextOffset ==> next == st)
  {
    AcceptMeaning(st, epoch, sequence, count, fingerprint, nextOffset);
    var (r, next) := Accept(st, epoch, sequence, count, fingerprint, nextOffset);
    if r.Ok? && IsNew(st, epoch, sequence) {
      SequenceRange(st, epoch, sequence, nextOffset);
      RememberOk(if epoch == st.epoch then st.batches else [],
                 BatchIdentity(sequence, count, nextOffset, fingerprint), nextOffset);
    }
  }

  lemma SequenceRange(st: ProducerState, epoch: int, sequence: int, nextOffset: int)
    requires Usable(st, nextOffset) && IsNew(st, epoch, sequence)
    ensures 0 <= sequence < SEQUENCES
  {
  }

  lemma RememberOk(kept: seq<BatchIdentity>, b: BatchIdentity, nextOffset: int)
    requires WindowOk(kept, nextOffset) && |kept| <= RETRY_BATCHES
    requires b.baseOffset == nextOffset && BatchOk(b, nextOffset + b.count) && b.sequence == NextSequence(kept)
    ensures WindowOk(Remember(kept, b), nextOffset + b.count)
    ensures 0 < |Remember(kept, b)| <= RETRY_BATCHES
  {
    var longer := kept + [b];
    forall i | 0 <= i < |longer| ensures BatchOk(longer[i], nextOffset + b.count) {
      assert i < |kept| ==> BatchOk(kept[i], nextOffset);
    }
    forall i | 0 < i < |longer| ensures Follows(longer[i - 1], longer[i]) {
      if i == |kept| {
        assert BatchOk(kept[i - 1], nextOffset);
      } else {
        assert Follows(kept[i - 1], kept[i]);
      }
    }
    assert forall i :: 0 <= i < |kept| ==> longer[1..][i] == longer[i + 1];
  }

  lemma WindowGrows(st: ProducerState, low: int, high: int)
    requires low <= high
    ensures StateOk(st, low) ==> StateOk(st, high)
    ensures Usable(st, low) ==> Usable(st, high)
  {
    forall i | 0 <= i < |st.batches| && BatchOk(st.batches[i], low) ensures BatchOk(st.batches[i], high) {
    }
  }

  /** The private snapshot an append decides against. */
  class Snapshot {
    const id: int
    var epoch: int
    var batches: seq<BatchIdentity>

    constructor (st: ProducerState)
      ensures Value() == st
    {
      id, epoch, batches := st.id, st.epoch, st.batches;
    }

    function Value(): ProducerState
      reads this
    {
      ProducerState(id, epoch, batches)
    }

    /** src/log/producer.rs:84-134 */
    method Decide(epoch: int, sequence: int, count: nat, fingerprint: string, nextOffset: int)
      returns (r: Result<AppendResult>)
      modifies this
      ensures (r, Value()) == Accept(old(Value()), epoch, sequence, count, fingerprint, nextOffset)
    {
      if epoch < this.epoch {
        return Err(InvalidProducerEpoch);
      }
      if epoch > this.epoch {
        if sequence != 0 {
          return Err(OutOfOrderSequence);
        }
        this.epoch := epoch;
        batches := [];
      }
      var found := FindSequence(batches, sequence);
      if found.Some? {
        var b := found.value;
        if b.count != count || b.fingerprint != fingerprint {
          return Err(ConflictingSequence);
        }
        return Ok(AppendResult(b.baseOffset, b.baseOffset + count - 1));
      }
      if sequence != NextSequence(batches) {
        return Err(OutOfOrderSequence);
      }
      if nextOffset + count > I64_MAX {
        return Err(OffsetOverflow);
      }
      batches := batches + [BatchIdentity(sequence, count, nextOffset, fingerprint)];
      if |batches| > RETRY_BATCHES {
        batches := batches[1..];
      }
      r := Ok(AppendResult(nextOffset, nextOffset + count - 1));
    }
  }
}
