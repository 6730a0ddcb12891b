/** The retention cut: which oldest whole batches one maintenance pass expires. */
module Retention {
  import opened LogTypes
  import opened IndexPages
  import opened Selections

  const MAX_OBJECTS: nat := 1_000_000

  /** The limits of one pass, with the clock reading and the time of adoption it uses. */
  datatype Limits = Limits(maxAge: Option<nat>, maxBytes: Option<nat>, now: nat, adoption: nat)

  predicate AgeExpired(s: Segment, l: Limits) {
    l.maxAge.Some? &&
    (if s.receivedAt.Some? then s.receivedAt.value else l.adoption) + l.maxAge.value <= l.now
  }

  /** The suffix from k may stay: it fits the byte limit and does not begin with an expired batch. */
  predicate MayStartAt(segments: seq<Segment>, k: nat, l: Limits)
    requires k <= |segments|
  {
    k == |segments| ||
    (!AgeExpired(segments[k], l) && (l.maxBytes.Some? ==> Bytes(segments[k..]) <= l.maxBytes.value))
  }

  /** The least start that may stay. */
  ghost predicate IsCut(segments: seq<Segment>, k: nat, l: Limits) {
    && k <= |segments|
    && MayStartAt(segments, k, l)
    && forall j :: 0 <= j < k ==> !MayStartAt(segments, j, l)
  }

  /** The batch has been kept for the maximum age, counted from its own receipt, or from adoption if that is unknown. */
  predicate Outdated(s: Segment, maxAge: Option<nat>, now: nat, adoption: nat) {
    && maxAge.Some?
    && (s.receivedAt.Some? ==> s.receivedAt.value + maxAge.value <= now)
    && (s.receivedAt.None? ==> adoption + maxAge.value <= now)
  }

  /** All bytes from batch k on exceed the limit. */
  predicate Oversized(segments: seq<Segment>, k: nat, maxBytes: Option<nat>)
    requires k <= |segments|
  {
    maxBytes.Some? && Bytes(segments[k..]) > maxBytes.value
  }

  /** The oldest batches, each too old or with too many bytes from it on; the next one is neither. */
  predicate CutAt(segments: seq<Segment>, k: nat, maxAge: Option<nat>, maxBytes: Option<nat>, now: nat, adoption: nat) {
    && k <= |segments|
    && (forall j :: 0 <= j < k ==>
          Outdated(segments[j], maxAge, now, adoption) || Oversized(segments, j, maxBytes))
    && (k < |segments| ==> !Outdated(segments[k], maxAge, now, adoption) && !Oversized(segments, k, maxBytes))
  }

  lemma CutMeaning(segments: seq<Segment>, k: nat, l: Limits)
    ensures IsCut(segments, k, l) <==> CutAt(segments, k, l.maxAge, l.maxBytes, l.now, l.adoption)
  {
    forall j | 0 <= j < |segments|
      ensures MayStartAt(segments, j, l)
        <==> !Outdated(segments[j], l.maxAge, l.now, l.adoption) && !Oversized(segments, j, l.maxBytes)
    {
    }
  }

  /** When every batch knows when it was received, the time of adoption plays no part. */
  lemma CutByReceipt(segments: seq<Segment>, k: nat, l: Limits, adoption: nat)
    requires forall j :: 0 <= j < |segments| ==> segments[j].receivedAt.Some?
    ensures IsCut(segments, k, l) <==> IsCut(segments, k, l.(adoption := adoption))
  {
    CutMeaning(segments, k, l);
    CutMeaning(segments, k, l.(adoption := adoption));
  }

  /** Without a byte limit no batch goes before it has reached the maximum age, and without any limit none goes. */
  lemma YoungStay(segments: seq<Segment>, k: nat, l: Limits, j: nat)
    requires IsCut(segments, k, l) && l.maxBytes.None? && j < |segments|
    requires l.maxAge.Some? ==>
      (if segments[j].receivedAt.Some? then segments[j].receivedAt.value else l.adoption) + l.maxAge.value > l.now
    ensures k <= j
  {
    assert !Outdated(segments[j], l.maxAge, l.now, l.adoption) && !Oversized(segments, j, l.maxBytes);
    CutMeaning(segments, k, l);
  }

  lemma {:induction false} BytesFit(segments: seq<Segment>, start: int)
    requires Run(segments, start)
    ensures Bytes(segments) <= |segments| * MAX_BATCH_BYTES
  {
    if segments != [] {
      BytesFit(segments[..|segments| - 1], start);
    }
  }

  /** Under the object bound of a pass the u64 total cannot overflow (src/log/maintenance.rs:232). */
  lemma TotalFits(segments: seq<Segment>, start: int)
    requires Run(segments, start) && |segments| <= MAX_OBJECTS
    ensures Bytes(segments) <= U64_MAX
  {
    BytesFit(segments, start);
  }

  lemma BytesHead(segments: seq<Segment>)
    requires segments != []
    ensures Bytes(segments) == segments[0].byteLength + Bytes(segments[1..])
  {
    assert segments == [segments[0]] + segments[1..];
    BytesAppend([segments[0]], segments[1..]);
    assert [segments[0]][..0] == [];
  }

  /**
   * src/log/maintenance.rs:232-256. The u64 sum of receive time and age is checked there; a sum
   * that overflows exceeds any clock reading, as the unbounded sum here does.
   */
  method RetentionCut(segments: seq<Segment>, l: Limits) returns (expired: nat, retainedBytes: nat)
    ensures IsCut(segments, expired, l)
    ensures CutAt(segments, expired, l.maxAge, l.maxBytes, l.now, l.adoption)
    ensures retainedBytes == Bytes(segments[expired..])
    ensures Bytes(segments) - retainedBytes == Bytes(segments[..expired])
  {
    var total := 0;
    for i := 0 to |segments|
      invariant total == Bytes(segments[..i])
    {
      assert segments[..i + 1][..i] == segments[..i];
      total := total + segments[i].byteLength;
    }
    assert segments[..|segments|] == segments == segments[0..];
    retainedBytes, expired := total, 0;
    while expired < |segments|
      invariant 0 <= expired <= |segments|
      invariant retainedBytes == Bytes(segments[expired..])
      invariant forall j :: 0 <= j < expired ==> !MayStartAt(segments, j, l)
    {
      var s := segments[expired];
      var sizeExpired := l.maxBytes.Some? && retainedBytes > l.maxBytes.value;
      if !AgeExpired(s, l) && !sizeExpired {
        break;
      }
      BytesHead(segments[expired..]);
      assert segments[expired..][1..] == segments[expired + 1..];
      retainedBytes := retainedBytes - s.byteLength;
      expired := expired + 1;
    }
    CutMeaning(segments, expired, l);
    BytesAppend(segments[..expired], segments[expired..]);
    assert segments[..expired] + segments[expired..] == segments;
  }

  /** A second pass with the same limits and clock reading expires nothing. */
  lemma SecondPassKeepsAll(segments: seq<Segment>, k: nat, l: Limits)
    requires IsCut(segments, k, l)
    ensures IsCut(segments[k..], 0, l)
  {
    assert segments[k..][0..] == segments[k..];
  }

  /** Limits at least as tight: nothing is dropped, no bound is raised, no earlier clock. */
  predicate Tighter(a: Limits, b: Limits) {
    && (b.maxAge.Some? ==> a.maxAge.Some? && a.maxAge.value <= b.maxAge.value)
    && (b.maxBytes.Some? ==> a.maxBytes.Some? && a.maxBytes.value <= b.maxBytes.value)
    && a.now >= b.now && a.adoption == b.adoption
  }

  /** Tighter limits never keep a batch that looser limits expire. */
  lemma CutMonotone(segments: seq<Segment>, j: nat, k: nat, a: Limits, b: Limits)
    requires Tighter(a, b) && IsCut(segments, j, a) && IsCut(segments, k, b)
    ensures k <= j
  {
    assert MayStartAt(segments, j, a) ==> MayStartAt(segments, j, b);
  }

  /** There is only one cut. */
  lemma CutUnique(segments: seq<Segment>, j: nat, k: nat, l: Limits)
    requires IsCut(segments, j, l) && IsCut(segments, k, l)
    ensures j == k
  {
    CutMonotone(segments, j, k, l, l);
    CutMonotone(segments, k, j, l, l);
  }
}
