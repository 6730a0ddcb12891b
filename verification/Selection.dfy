/** Which segments one fetch returns: the budgeted scan, and what it selects from a gapless run. */
module Selections {
  import opened LogTypes
  import opened IndexPages
  import opened ObjectStores

  /** The progress of a scan; it is closed once the response is complete. */
  datatype Scan = Scan(remaining: nat, segments: seq<Segment>, oversizedFirst: bool, open: bool)

  function Consider(scan: Scan, offset: int, allowOversized: bool, s: Segment): Scan {
    if s.baseOffset + s.recordCount - 1 < offset then scan
    else if s.byteLength > scan.remaining then
      if scan.segments == [] && allowOversized then
        Scan(scan.remaining, [s], true, false)
      else
        scan.(open := false)
    else
      Scan(scan.remaining - s.byteLength, scan.segments + [s], scan.oversizedFirst, scan.remaining != s.byteLength)
  }

  /** The flat loop over a segment list (src/log.rs:572-578). */
  function ScanAll(scan: Scan, offset: int, allowOversized: bool, segments: seq<Segment>): Scan
    decreases |segments|
  {
    if segments == [] || !scan.open then scan
    else ScanAll(Consider(scan, offset, allowOversized, segments[0]), offset, allowOversized, segments[1..])
  }

  lemma {:induction false} ScanAppend(scan: Scan, offset: int, allow: bool, a: seq<Segment>, b: seq<Segment>)
    ensures ScanAll(scan, offset, allow, a + b) == ScanAll(ScanAll(scan, offset, allow, a), offset, allow, b)
    decreases |a|
  {
    if a == [] {
      assert a + b == b;
    } else if scan.open {
      assert (a + b)[1..] == a[1..] + b;
      ScanAppend(Consider(scan, offset, allow, a[0]), offset, allow, a[1..], b);
    }
  }

  /** Segments that end at or before the offset leave a scan unchanged. */
  lemma {:induction false} ScanPruned(scan: Scan, offset: int, allow: bool, segments: seq<Segment>, start: int)
    requires Run(segments, start) && EndOffset(segments, start) <= offset
    ensures ScanAll(scan, offset, allow, segments) == scan
    decreases |segments|
  {
    if segments != [] {
      var n := |segments| - 1;
      var front, last := segments[..n], segments[n];
      ScanPruned(scan, offset, allow, front, start);
      assert segments == front + [last];
      ScanAppend(scan, offset, allow, front, [last]);
      assert [last][1..] == [];
    }
  }

  // -------------------------------------------------------------- what a scan selects

  function Bytes(segments: seq<Segment>): nat {
    if segments == [] then 0 else Bytes(segments[..|segments| - 1]) + segments[|segments| - 1].byteLength
  }

  lemma {:induction false} BytesAppend(a: seq<Segment>, b: seq<Segment>)
    ensures Bytes(a + b) == Bytes(a) + Bytes(b)
    decreases |b|
  {
    if b == [] {
      assert a + b == a;
    } else {
      assert (a + b)[..|a + b| - 1] == a + b[..|b| - 1];
      BytesAppend(a, b[..|b| - 1]);
    }
  }

  /**
   * The declarative answer: from segment k on, the longest run of whole segments within the
   * budget, or one oversized first segment when that is allowed.
   */
  ghost predicate Selected(segments: seq<Segment>, k: nat, budget: nat, allow: bool, result: Scan)
    requires k <= |segments|
  {
    if k < |segments| && segments[k].byteLength > budget then
      result.segments == (if allow then [segments[k]] else []) && result.oversizedFirst == allow
    else
      exists n :: k <= n <= |segments|
        && result.segments == segments[k..n]
        && !result.oversizedFirst
        && Bytes(segments[k..n]) <= budget
        && (n < |segments| ==> Bytes(segments[k..n + 1]) > budget)
  }

  /** How many leading segments end before the offset. */
  function Before(segments: seq<Segment>, offset: int): (k: nat)
    ensures k <= |segments|
    ensures forall i :: 0 <= i < k ==> segments[i].baseOffset + segments[i].recordCount <= offset
    ensures k < |segments| ==> segments[k].baseOffset + segments[k].recordCount > offset
    decreases |segments|
  {
    if segments == [] || segments[0].baseOffset + segments[0].recordCount > offset then 0
    else 1 + Before(segments[1..], offset)
  }

  lemma {:induction false} RunElement(segments: seq<Segment>, start: int, i: nat)
    requires Run(segments, start) && i < |segments|
    ensures InLimits(segments[i]) && segments[i].baseOffset == EndOffset(segments[..i], start)
    decreases |segments|
  {
    var n := |segments| - 1;
    if i < n {
      assert segments[..n][..i] == segments[..i];
      RunElement(segments[..n], start, i);
    }
  }

  lemma RunSplit(segments: seq<Segment>, start: int, i: nat)
    requires Run(segments, start) && i <= |segments|
    ensures Run(segments[..i], start) && Run(segments[i..], EndOffset(segments[..i], start))
    ensures EndOffset(segments[i..], EndOffset(segments[..i], start)) == EndOffset(segments, start)
  {
    assert segments == segments[..i] + segments[i..];
    RunAppend(segments[..i], segments[i..], start);
  }

  lemma BytesNone()
    ensures Bytes([]) == 0
  {
  }

  lemma BytesCons(segments: seq<Segment>, m: nat)
    requires m < |segments|
    ensures segments[..m + 1] == [segments[0]] + segments[1..][..m]
    ensures Bytes(segments[..m + 1]) == segments[0].byteLength + Bytes(segments[1..][..m])
  {
    assert segments[..m + 1] == [segments[0]] + segments[1..][..m];
    BytesAppend([segments[0]], segments[1..][..m]);
    assert [segments[0]][..0] == [];
  }

  /** A scan that has started keeps taking whole segments while they fit. */
  lemma {:induction false} ScanTakes(scan: Scan, offset: int, allow: bool, segments: seq<Segment>, start: int)
    returns (n: nat)
    requires scan.open && Run(segments, start) && offset <= start
    requires scan.segments != [] || segments == [] || segments[0].byteLength <= scan.remaining
    ensures n <= |segments|
    ensures ScanAll(scan, offset, allow, segments).segments == scan.segments + segments[..n]
    ensures ScanAll(scan, offset, allow, segments).oversizedFirst == scan.oversizedFirst
    ensures Bytes(segments[..n]) <= scan.remaining
    ensures n < |segments| ==> Bytes(segments[..n + 1]) > scan.remaining
    decreases |segments|
  {
    hide Bytes, Run;
    BytesNone();
    assert segments[..0] == [];
    if segments == [] {
      return 0;
    }
    var s, rest := segments[0], segments[1..];
    RunElement(segments, start, 0);
    RunSplit(segments, start, 1);
    BytesCons(segments, 0);
    assert segments[..1] == [s] && rest[..0] == [];
    if s.byteLength > scan.remaining {
      n := 0;
    } else {
      var next := Consider(scan, offset, allow, s);
      if !next.open {
        n := 1;
        if 1 < |segments| {
          RunElement(segments, start, 1);
          BytesCons(segments, 1);
          BytesCons(rest, 0);
        }
      } else {
        var m := ScanTakes(next, offset, allow, rest, start + s.recordCount);
        n := m + 1;
        BytesCons(segments, m);
        if n < |segments| {
          BytesCons(segments, n);
        }
        assert scan.segments + [s] + rest[..m] == scan.segments + segments[..n];
      }
    }
  }

  /** Skipping the segments before the offset changes nothing. */
  lemma ScanSkips(segments: seq<Segment>, start: int, offset: int, scan: Scan, allow: bool)
    requires Run(segments, start)
    ensures var k := Before(segments, offset);
      ScanAll(scan, offset, allow, segments) == ScanAll(scan, offset, allow, segments[k..])
  {
    var k := Before(segments, offset);
    var front, rest := segments[..k], segments[k..];
    assert segments == front + rest;
    RunSplit(segments, start, k);
    FrontPruned(segments, start, offset, k);
    ScanPrefix(scan, offset, allow, front, start);
    ScanAppend(scan, offset, allow, front, rest);
  }

  lemma SelectedFrom(segments: seq<Segment>, k: nat, budget: nat, allow: bool, result: Scan, m: nat)
    requires k + m <= |segments| && (k < |segments| ==> segments[k].byteLength <= budget)
    requires result.segments == segments[k..][..m] && !result.oversizedFirst
    requires Bytes(segments[k..][..m]) <= budget
    requires m < |segments[k..]| ==> Bytes(segments[k..][..m + 1]) > budget
    ensures Selected(segments, k, budget, allow, result)
  {
    var n := k + m;
    assert segments[k..][..m] == segments[k..n];
    if n < |segments| {
      assert segments[k..][..m + 1] == segments[k..n + 1];
    }
  }

  /**
   * The flat scan of a gapless run selects exactly the declared segments, starting with the one
   * that holds the offset.
   */
  lemma ScanSelects(segments: seq<Segment>, start: int, offset: int, budget: nat, allow: bool)
    requires Run(segments, start)
    ensures Selected(segments, Before(segments, offset), budget, allow,
                     ScanAll(Scan(budget, [], false, true), offset, allow, segments))
    ensures var k := Before(segments, offset);
      k < |segments| && start <= offset ==>
        segments[k].baseOffset <= offset < segments[k].baseOffset + segments[k].recordCount
  {
    hide Selected;
    var k := Before(segments, offset);
    var scan := Scan(budget, [], false, true);
    var rest := segments[k..];
    RunSplit(segments, start, k);
    FrontPruned(segments, start, offset, k);
    ScanSkips(segments, start, offset, scan, allow);
    if k < |segments| {
      RunElement(segments, start, k);
    }
    if k < |segments| && segments[k].byteLength > budget {
      SelectedOversized(segments, k, budget, allow, offset);
    } else {
      var m := ScanReaches(scan, offset, allow, rest, EndOffset(segments[..k], start));
      SelectedFrom(segments, k, budget, allow, ScanAll(scan, offset, allow, rest), m);
    }
  }

  lemma SelectedOversized(segments: seq<Segment>, k: nat, budget: nat, allow: bool, offset: int)
    requires k < |segments| && segments[k].byteLength > budget
    requires segments[k].baseOffset + segments[k].recordCount > offset
    ensures Selected(segments, k, budget, allow, ScanAll(Scan(budget, [], false, true), offset, allow, segments[k..]))
  {
    assert segments[k..][0] == segments[k];
  }

  lemma FrontPruned(segments: seq<Segment>, start: int, offset: int, k: nat)
    requires Run(segments, start) && k <= |segments|
    requires forall i :: 0 <= i < k ==> segments[i].baseOffset + segments[i].recordCount <= offset
    ensures k == 0 || EndOffset(segments[..k], start) <= offset
  {
  }

  lemma ScanPrefix(scan: Scan, offset: int, allow: bool, front: seq<Segment>, start: int)
    requires Run(front, start) && (front == [] || EndOffset(front, start) <= offset)
    ensures ScanAll(scan, offset, allow, front) == scan
  {
    if front != [] {
      ScanPruned(scan, offset, allow, front, start);
    }
  }

  /** As ScanTakes, for a first segment that may begin before the offset. */
  lemma ScanReaches(scan: Scan, offset: int, allow: bool, segments: seq<Segment>, start: int) returns (n: nat)
    requires scan.open && scan.segments == [] && Run(segments, start)
    requires segments != [] ==> segments[0].byteLength <= scan.remaining
    requires segments != [] ==> segments[0].baseOffset + segments[0].recordCount > offset
    ensures n <= |segments|
    ensures ScanAll(scan, offset, allow, segments).segments == segments[..n]
    ensures ScanAll(scan, offset, allow, segments).oversizedFirst == scan.oversizedFirst
    ensures Bytes(segments[..n]) <= scan.remaining
    ensures n < |segments| ==> Bytes(segments[..n + 1]) > scan.remaining
  {
    var from := if offset <= start then offset else start;
    if segments != [] {
      RunElement(segments, start, 0);
    }
    SameScan(scan, offset, from, allow, segments, start);
    n := ScanTakes(scan, from, allow, segments, start);
    assert [] + segments[..n] == segments[..n];
  }

  /** Once every remaining segment reaches the offset, the offset no longer matters. */
  lemma {:induction false} SameScan(scan: Scan, a: int, b: int, allow: bool, segments: seq<Segment>, start: int)
    requires Run(segments, start)
    requires segments != [] ==> segments[0].baseOffset + segments[0].recordCount > a
    requires segments != [] ==> segments[0].baseOffset + segments[0].recordCount > b
    ensures ScanAll(scan, a, allow, segments) == ScanAll(scan, b, allow, segments)
    decreases |segments|
  {
    if segments != [] && scan.open {
      RunElement(segments, start, 0);
      RunSplit(segments, start, 1);
      if |segments| > 1 {
        RunElement(segments, start, 1);
      }
      SameScan(Consider(scan, a, allow, segments[0]), a, b, allow, segments[1..], EndOffset(segments[..1], start));
    }
  }

  // -------------------------------------------------------------- the accumulator

  /**
   * src/log/index.rs:533-570. For the proof it notes how many page reads its store had served when
   * the first segment that reaches the offset was taken or refused.
   */
  class Selection {
    ghost const store: ObjectStore
    const offset: int
    const allowOversized: bool
    var remaining: nat
    var segments: seq<Segment>
    var oversizedFirst: bool
    ghost var firstAt: Option<nat>

    constructor (offset: int, maximumBytes: nat, allowOversized: bool, ghost store: ObjectStore)
      ensures this.offset == offset && this.allowOversized == allowOversized && this.store == store
      ensures Progress(true) == Scan(maximumBytes, [], false, true) && firstAt == None
    {
      this.offset, this.allowOversized, this.store := offset, allowOversized, store;
      remaining, segments, oversizedFirst, firstAt := maximumBytes, [], false, None;
    }

    ghost function Progress(open: bool): Scan
      reads this
    {
      Scan(remaining, segments, oversizedFirst, open)
    }

    /** False means the response is complete. */
    method Push(segment: Segment) returns (more: Result<bool>)
      modifies this
      ensures more.Err? <==> segment.baseOffset + segment.recordCount - 1 > I64_MAX
      ensures more.Err? ==> Progress(true) == old(Progress(true)) && firstAt == old(firstAt)
      ensures more.Ok? ==> Progress(more.value) == Consider(old(Progress(true)), offset, allowOversized, segment)
      ensures more.Ok? && segment.baseOffset + segment.recordCount <= offset ==> more.value
      ensures more.Ok? ==>
        firstAt == if old(firstAt).None? && segment.baseOffset + segment.recordCount > offset then Some(store.gets)
                   else old(firstAt)
      ensures firstAt.None? ==> segments == old(segments)
    {
      if segment.baseOffset + segment.recordCount - 1 > I64_MAX {
        return Err(OffsetOverflow);
      }
      if segment.baseOffset + segment.recordCount - 1 < offset {
        return Ok(true);
      }
      if firstAt.None? {
        firstAt := Some(store.gets);
      }
      if segment.byteLength > remaining {
        if segments == [] && allowOversized {
          segments := [segment];
          oversizedFirst := true;
        }
        return Ok(false);
      }
      remaining := remaining - segment.byteLength;
      segments := segments + [segment];
      more := Ok(remaining != 0);
    }

    /** The loop over a leaf, a tail or a flat manifest: push until one push says stop. */
    method PushEach(list: seq<Segment>, ghost start: int) returns (more: Result<bool>)
      modifies this
      ensures more.Ok? ==> Progress(more.value) == ScanAll(old(Progress(true)), offset, allowOversized, list)
      ensures Run(list, start) && EndOffset(list, start) <= I64_MAX + 1 ==> more.Ok?
      ensures more.Ok? ==>
        firstAt == if old(firstAt).None? && Before(list, offset) < |list| then Some(store.gets) else old(firstAt)
      ensures firstAt.None? ==> segments == old(segments)
    {
      hide Run, EndOffset, Before, ScanAll, Consider;
      var i := 0;
      ghost var first := Progress(true);
      assert list[0..] == list;
      while i < |list|
        invariant 0 <= i <= |list|
        invariant ScanAll(Progress(true), offset, allowOversized, list[i..]) == ScanAll(first, offset, allowOversized, list)
        invariant firstAt ==
          if old(firstAt).None? && Before(list, offset) < i then Some(store.gets) else old(firstAt)
        invariant firstAt.None? ==> i <= Before(list, offset) && segments == old(segments)
      {
        ghost var before := Progress(true);
        BeforeIs(list, offset, i);
        var pushed := Push(list[i]);
        if pushed.Err? {
          LeavesRange(list, start, i);
          return pushed;
        }
        ScanNext(before, offset, allowOversized, list, i);
        if !pushed.value {
          ScanClosed(Progress(false), offset, allowOversized, list[i + 1..]);
          return Ok(false);
        }
        i := i + 1;
      }
      ScanClosed(Progress(true), offset, allowOversized, list[|list|..]);
      more := Ok(true);
    }
  }

  lemma LeavesRange(list: seq<Segment>, start: int, i: nat)
    requires i < |list| && list[i].baseOffset + list[i].recordCount - 1 > I64_MAX
    ensures !(Run(list, start) && EndOffset(list, start) <= I64_MAX + 1)
  {
    if Run(list, start) {
      RunSplit(list, start, i + 1);
      RunRises(list[i + 1..], EndOffset(list[..i + 1], start));
    }
  }

  lemma ScanNext(scan: Scan, offset: int, allow: bool, list: seq<Segment>, i: nat)
    requires i < |list| && scan.open
    ensures ScanAll(scan, offset, allow, list[i..]) == ScanAll(Consider(scan, offset, allow, list[i]), offset, allow, list[i + 1..])
  {
    assert list[i..][0] == list[i] && list[i..][1..] == list[i + 1..];
  }

  lemma ScanClosed(scan: Scan, offset: int, allow: bool, rest: seq<Segment>)
    requires !scan.open || rest == []
    ensures ScanAll(scan, offset, allow, rest) == scan
  {
  }

  lemma BeforeIs(segments: seq<Segment>, offset: int, i: nat)
    requires i < |segments|
    ensures Before(segments, offset) > i ==> segments[i].baseOffset + segments[i].recordCount <= offset
    ensures Before(segments, offset) == i ==> segments[i].baseOffset + segments[i].recordCount > offset
    ensures Before(segments, offset) <= |segments|
  {
  }
}
