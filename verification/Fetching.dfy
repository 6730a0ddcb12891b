/** A bounded fetch against one loaded manifest (src/log.rs:550-597). */
module Fetching {
  import opened LogTypes
  import opened ObjectStores
  import opened IndexPages
  import opened IndexRoots
  import opened BulkLoad
  import opened Manifests
  import opened Selections
  import IndexScan
  import Maintenance
  import ProducerWriter

  datatype Fetched = Fetched(segments: seq<Segment>, byteLength: nat, highWatermark: int, oversizedFirst: bool)

  /** The declared answer on a log: an error outside its range, nothing at its end, else the selected run. */
  ghost predicate Answers(log: seq<Segment>, start: int, next: int, offset: int, budget: nat, allow: bool,
                          r: Result<Fetched>)
  {
    if offset < start || offset > next then r == Err(OffsetOutOfRange)
    else if offset == next then r == Ok(Fetched([], 0, next, false))
    else
      && r.Ok? && r.value.highWatermark == next
      && r.value.byteLength == Bytes(r.value.segments)
      && var k := Before(log, offset);
      && k < |log| && log[k].baseOffset <= offset < log[k].baseOffset + log[k].recordCount
      && exists scan: Scan :: scan.segments == r.value.segments && scan.oversizedFirst == r.value.oversizedFirst
           && Selected(log, k, budget, allow, scan)
  }

  /** Offsets below the end of a run lie in one of its segments. */
  lemma Covered(segments: seq<Segment>, start: int, offset: int)
    requires Run(segments, start) && offset < EndOffset(segments, start) && start <= offset
    ensures Before(segments, offset) < |segments|
  {
    var k := Before(segments, offset);
    assert k == |segments| && segments != [] ==>
      segments[k - 1].baseOffset + segments[k - 1].recordCount <= offset;
  }

  // -------------------------------------------------------------- a fetch on any contents

  /** The segments chosen before any record object is read. */
  ghost function ChosenIn(objects: map<Key, Object>, m: Manifest, scan: Scan, offset: int, allow: bool): Result<Scan> {
    match m
    case Legacy(_, _, segments) => Ok(ScanAll(scan, offset, allow, segments))
    case Indexed(root) => IndexScan.SegmentsIn(objects, root, scan, offset, allow)
  }

  /** Reading record objects in order: the first that is missing or has another length stops it. */
  function RecordsIn(objects: map<Key, Object>, segments: seq<Segment>): Result<()> {
    if segments == [] then Ok(())
    else if segments[0].key !in objects then Err(NotFound)
    else if objects[segments[0].key] != RecordObject(segments[0].byteLength) then Err(Invalid)
    else RecordsIn(objects, segments[1..])
  }

  /** What a fetch does, on any contents of the store. */
  ghost function FetchIn(objects: map<Key, Object>, m: Manifest, offset: int, budget: nat, allow: bool): Result<Fetched> {
    if offset < StartOffset(m) || offset > NextOffset(m) then Err(OffsetOutOfRange)
    else if offset == NextOffset(m) then Ok(Fetched([], 0, offset, false))
    else
      var scan :- ChosenIn(objects, m, Scan(budget, [], false, true), offset, allow);
      var _ :- RecordsIn(objects, scan.segments);
      Ok(Fetched(scan.segments, Bytes(scan.segments), NextOffset(m), scan.oversizedFirst))
  }

  /** src/log.rs:570-582 */
  method Choose(store: ObjectStore, m: Manifest, selection: Selection) returns (r: Result<()>)
    requires selection.store == store && selection.firstAt.None?
    modifies selection, store`gets
    ensures ManifestOk(m) ==>
      var w := ChosenIn(store.objects, m, old(selection.Progress(true)), selection.offset, selection.allowOversized);
      && (r.Err? ==> w == Err(r.error))
      && (r.Ok? ==> exists open :: w == Ok(selection.Progress(open)))
  {
    hide ScanAll, RootOk, LegacyOk;
    match m {
      case Legacy(_, _, segments) =>
        if ManifestOk(m) {
          LegacyRun(m);
        }
        var more := selection.PushEach(segments, 0);
        if more.Err? {
          return Err(more.error);
        }
        assert selection.Progress(more.value)
          == ScanAll(old(selection.Progress(true)), selection.offset, selection.allowOversized, segments);
        r := Ok(());
      case Indexed(root) =>
        if ManifestOk(m) {
          RootTail(root);
        }
        r := IndexScan.IndexedSegments(store, root, selection);
    }
  }

  lemma LegacyRun(m: Manifest)
    requires ManifestOk(m) && m.Legacy?
    ensures Run(m.segments, 0) && EndOffset(m.segments, 0) <= I64_MAX + 1
  {
  }

  lemma RootTail(root: Root)
    requires RootOk(root)
    ensures IndexScan.TailInRange(root)
  {
  }

  /** Every chosen record object is read; its length must be the recorded one. */
  method ReadRecords(store: ObjectStore, chosen: seq<Segment>) returns (r: Result<nat>)
    ensures r == if RecordsIn(store.objects, chosen).Ok? then Ok(Bytes(chosen)) else Err(RecordsIn(store.objects, chosen).error)
  {
    var encoded, i := 0, 0;
    NoBytes(chosen);
    while i < |chosen|
      invariant 0 <= i <= |chosen|
      invariant encoded == Bytes(chosen[..i])
      invariant RecordsIn(store.objects, chosen[i..]) == RecordsIn(store.objects, chosen)
    {
      assert chosen[i..][0] == chosen[i] && chosen[i..][1..] == chosen[i + 1..];
      var length := store.Head(chosen[i].key);
      if length.Err? {
        return Err(length.error);
      }
      if length.value != chosen[i].byteLength {
        return Err(Invalid);
      }
      MoreBytes(chosen, i);
      encoded := encoded + length.value;
      i := i + 1;
    }
    assert chosen[..|chosen|] == chosen;
    r := Ok(encoded);
  }

  /** src/log.rs:546-597: a fetch does what is specified, whatever the store holds. */
  method FetchSnapshot(store: ObjectStore, m: Manifest, offset: int, maximumBytes: nat, allow: bool) returns (r: Result<Fetched>)
    modifies store`gets
    ensures ManifestOk(m) ==> r == FetchIn(store.objects, m, offset, maximumBytes, allow)
    ensures r.Ok? ==> Recorded(store.objects, r.value.segments)
  {
    hide ManifestOk, ChosenIn, Bytes, RecordsIn, Recorded;
    NothingRecorded(store.objects);
    if offset < StartOffset(m) || offset > NextOffset(m) {
      return Err(OffsetOutOfRange);
    }
    if offset == NextOffset(m) {
      return Ok(Fetched([], 0, offset, false));
    }
    var selection := new Selection(offset, maximumBytes, allow, store);
    var chosen := Choose(store, m, selection);
    if chosen.Err? {
      return Err(chosen.error);
    }
    var encoded := ReadRecords(store, selection.segments);
    if encoded.Err? {
      return Err(encoded.error);
    }
    RecordsFound(store.objects, selection.segments);
    r := Ok(Fetched(selection.segments, encoded.value, NextOffset(m), selection.oversizedFirst));
  }

  /** Records that were read are all there, each with its recorded length. */
  lemma {:induction false} RecordsFound(objects: map<Key, Object>, segments: seq<Segment>)
    ensures RecordsIn(objects, segments).Ok? <==> Recorded(objects, segments)
  {
    if segments != [] {
      var rest := segments[1..];
      RecordsFound(objects, rest);
      assert forall i :: 0 <= i < |rest| ==> rest[i] == segments[i + 1];
      assert Recorded(objects, segments) ==> Recorded(objects, rest);
      if Recorded(objects, rest) && segments[0].key in objects
         && objects[segments[0].key] == RecordObject(segments[0].byteLength)
      {
        forall i | 0 <= i < |segments|
          ensures segments[i].key in objects && objects[segments[i].key] == RecordObject(segments[i].byteLength)
        {
          assert i > 0 ==> segments[i] == rest[i - 1];
        }
      }
    }
  }

  // -------------------------------------------------------------- what a fetch returns

  /**
   * A fetch against a manifest that was ever sound, in a store of which collection may have
   * removed any part. If it succeeds, its answer is the declared one on that manifest's whole log;
   * otherwise the offset is outside that log, or an object was missing.
   */
  lemma FetchMeans(objects: map<Key, Object>, ever: map<Key, Object>, m: Manifest, offset: int, budget: nat, allow: bool)
    requires Extends(objects, ever) && ManifestSound(ever, m)
    ensures var r := FetchIn(objects, m, offset, budget, allow);
      && (r.Ok? || r.error == OffsetOutOfRange ==>
            Answers(Log(ever, m), StartOffset(m), NextOffset(m), offset, budget, allow, r))
      && (r.Err? ==> r.error in {OffsetOutOfRange, NotFound})
      && (r.Err? && r.error == NotFound ==> !ManifestSound(objects, m))
      && (r.Ok? ==> Recorded(objects, r.value.segments))
  {
    hide ManifestSound, Answers, Bytes, Scanned, ScanAll, ChosenIn, RecordsIn, Recorded;
    OutsideAnswers(ever, m, offset, budget, allow);
    NothingRecorded(objects);
    if StartOffset(m) <= offset < NextOffset(m) {
      var first := Scan(budget, [], false, true);
      ChosenMeans(objects, ever, m, first, offset, allow);
      var chosen := ChosenIn(objects, m, first, offset, allow);
      if chosen.Ok? {
        var scan := chosen.value;
        ScannedIs(Log(ever, m), scan, scan.open, offset, budget, allow);
        ChosenRecorded(ever, m, scan, offset, budget, allow);
        RecordsMean(objects, ever, scan.segments);
        if RecordsIn(objects, scan.segments).Ok? {
          InsideAnswers(ever, m, offset, budget, allow, scan,
                        Fetched(scan.segments, Bytes(scan.segments), NextOffset(m), scan.oversizedFirst));
        } else {
          UnrecordedSelection(objects, ever, m, scan, offset, budget, allow);
        }
      }
    }
  }

  lemma ScannedIs(log: seq<Segment>, scan: Scan, open: bool, offset: int, budget: nat, allow: bool)
    requires scan.(open := open) == ScanAll(Scan(budget, [], false, true), offset, allow, log)
    ensures Scanned(log, scan, offset, budget, allow)
  {
  }

  lemma ChosenMeans(objects: map<Key, Object>, ever: map<Key, Object>, m: Manifest, scan: Scan, offset: int, allow: bool)
    requires Extends(objects, ever) && ManifestSound(ever, m) && scan.open
    ensures var r := ChosenIn(objects, m, scan, offset, allow);
      && (r.Ok? ==> r.value == ScanAll(scan, offset, allow, Log(ever, m)))
      && (r.Err? ==> r.error == NotFound && !ManifestSound(objects, m))
  {
    hide ScanAll, PartsSound, WellFormed, RootOk, LegacyOk, ProducerWriter.DirectorySound, Recorded;
    if m.Indexed? {
      SoundParts(ever, m.root);
      IndexScan.SegmentsMean(objects, ever, m.root, scan, offset, allow);
    }
  }

  /** Immutable records are read as recorded, or are gone. */
  lemma {:induction false} RecordsMean(objects: map<Key, Object>, ever: map<Key, Object>, segments: seq<Segment>)
    requires Extends(objects, ever) && Recorded(ever, segments)
    ensures RecordsIn(objects, segments).Ok? <==> Recorded(objects, segments)
    ensures RecordsIn(objects, segments).Err? ==> RecordsIn(objects, segments).error == NotFound
  {
    RecordsFound(objects, segments);
    if segments != [] {
      var rest := segments[1..];
      assert forall i :: 0 <= i < |rest| ==> rest[i] == segments[i + 1];
      assert Recorded(ever, rest);
      RecordsMean(objects, ever, rest);
    }
  }

  /** A selected record that is missing is one the manifest needs. */
  lemma UnrecordedSelection(objects: map<Key, Object>, ever: map<Key, Object>, m: Manifest, scan: Scan, offset: int,
                            budget: nat, allow: bool)
    requires Extends(objects, ever) && ManifestSound(ever, m) && Scanned(Log(ever, m), scan, offset, budget, allow)
    requires !Recorded(objects, scan.segments)
    ensures !ManifestSound(objects, m)
  {
    hide ManifestSound, Scanned, Recorded, Log;
    if ManifestSound(objects, m) {
      ManifestFrame(objects, ever, m);
      ChosenRecorded(objects, m, scan, offset, budget, allow);
    }
  }

  lemma NothingRecorded(objects: map<Key, Object>)
    ensures Recorded(objects, [])
  {
  }

  lemma NoBytes(segments: seq<Segment>)
    ensures Bytes(segments[..0]) == 0
  {
  }

  lemma MoreBytes(segments: seq<Segment>, i: nat)
    requires i < |segments|
    ensures Bytes(segments[..i + 1]) == Bytes(segments[..i]) + segments[i].byteLength
  {
    assert segments[..i + 1][..i] == segments[..i];
  }

  lemma OutsideAnswers(objects: map<Key, Object>, m: Manifest, offset: int, budget: nat, allow: bool)
    requires ManifestSound(objects, m)
    ensures offset < StartOffset(m) || offset > NextOffset(m) ==>
      Answers(Log(objects, m), StartOffset(m), NextOffset(m), offset, budget, allow, Err(OffsetOutOfRange))
    ensures offset == NextOffset(m) >= StartOffset(m) ==>
      Answers(Log(objects, m), StartOffset(m), NextOffset(m), offset, budget, allow, Ok(Fetched([], 0, offset, false)))
  {
  }

  /** Where the scan of the log ended, whether or not it was cut short. */
  ghost predicate Scanned(log: seq<Segment>, scan: Scan, offset: int, budget: nat, allow: bool) {
    exists open :: scan.(open := open) == ScanAll(Scan(budget, [], false, true), offset, allow, log)
  }

  lemma InsideAnswers(objects: map<Key, Object>, m: Manifest, offset: int, budget: nat, allow: bool, scan: Scan, f: Fetched)
    requires ManifestSound(objects, m) && StartOffset(m) <= offset < NextOffset(m)
    requires Scanned(Log(objects, m), scan, offset, budget, allow)
    requires f == Fetched(scan.segments, Bytes(scan.segments), NextOffset(m), scan.oversizedFirst)
    ensures Answers(Log(objects, m), StartOffset(m), NextOffset(m), offset, budget, allow, Ok(f))
  {
    hide ManifestSound, Selected, ScanAll, Run;
    var log := Log(objects, m);
    LogRun(objects, m);
    ScanSelects(log, StartOffset(m), offset, budget, allow);
    Covered(log, StartOffset(m), offset);
    var final := ScanAll(Scan(budget, [], false, true), offset, allow, log);
    assert final.segments == f.segments && final.oversizedFirst == f.oversizedFirst;
  }

  /** Selected segments are segments of the log, so their objects are recorded. */
  lemma ChosenRecorded(objects: map<Key, Object>, m: Manifest, scan: Scan, offset: int, budget: nat, allow: bool)
    requires ManifestSound(objects, m) && Scanned(Log(objects, m), scan, offset, budget, allow)
    ensures Recorded(objects, scan.segments)
  {
    hide ManifestSound, ScanAll, Run, Recorded, Selected, Log;
    var log := Log(objects, m);
    LogRun(objects, m);
    Maintenance.LogIs(objects, m);
    ScanSelects(log, StartOffset(m), offset, budget, allow);
    var final := ScanAll(Scan(budget, [], false, true), offset, allow, log);
    assert final.segments == scan.segments;
    SelectedRecorded(objects, log, Before(log, offset), budget, allow, final);
  }

  lemma SelectedRecorded(objects: map<Key, Object>, log: seq<Segment>, k: nat, budget: nat, allow: bool, final: Scan)
    requires Recorded(objects, log) && k <= |log| && Selected(log, k, budget, allow, final)
    ensures Recorded(objects, final.segments)
  {
    hide Bytes;
    if k < |log| && log[k].byteLength > budget {
      WindowRecorded(objects, log, k, if allow then k + 1 else k);
    } else {
      var n :| k <= n <= |log| && final.segments == log[k..n];
      WindowRecorded(objects, log, k, n);
    }
  }

  lemma WindowRecorded(objects: map<Key, Object>, log: seq<Segment>, i: nat, j: nat)
    requires Recorded(objects, log) && i <= j <= |log|
    ensures Recorded(objects, log[i..j])
  {
  }
}
