/**
 * The raw record-batch scanner (src/codec.rs:86-226) and an encoder for the same layout: sections
 * 5.3.1 "Record Batch" and 5.3.2 "Record" of the Apache Kafka documentation.
 */
module Codec {
  import opened LogTypes

  const I32_MAX: int := 0x7fff_ffff
  const MAX_HEADERS_PER_RECORD: nat := 1_024
  const MAX_HEADERS_PER_REQUEST: nat := 32_768

  type Byte = b: int | 0 <= b < 256
  type Bytes = seq<Byte>

  datatype CodecError = Malformed | ArithmeticOverflow | TooManyHeaders

  /** A parsed value and the input after it. */
  datatype Parsed<+T> = Got(value: T, rest: Bytes) | Bad(error: CodecError) {
    predicate IsFailure() {
      Bad?
    }
    function PropagateFailure<U>(): Parsed<U>
      requires Bad?
    {
      Bad(error)
    }
    function Extract(): (T, Bytes)
      requires Got?
    {
      (value, rest)
    }
  }

  // -------------------------------------------------------------- variable-length integers

  function Pow128(n: nat): nat {
    if n == 0 then 1 else 128 * Pow128(n - 1)
  }

  /** src/codec.rs:209-226 from byte `index` on; the disjoint bits of the source's `|` are added here. */
  function ReadVar(input: Bytes, index: nat, maximum: nat, value: nat): Parsed<nat>
    decreases |input|
  {
    if index >= maximum || input == [] then Bad(Malformed)
    else
      var payload := input[0] % 128;
      if (index == 4 && maximum == 5 && payload > 0x0f) || (index == 9 && maximum == 10 && payload > 0x01) then Bad(Malformed)
      else
        var next := value + payload * Pow128(index);
        if input[0] < 128 then Got(next, input[1..]) else ReadVar(input[1..], index + 1, maximum, next)
  }

  /** src/protocol.rs:1327-1339 */
  function PushVar(value: nat): Bytes {
    if value < 128 then [value] else [value % 128 + 128] + PushVar(value / 128)
  }

  /** How far a value may still reach from byte `index` on: 2^32 in five bytes, 2^64 in ten. */
  function Room(maximum: nat, index: nat): nat
    requires index < maximum
    decreases maximum - index
  {
    if index + 1 == maximum then (if maximum == 5 then 16 else 2) else 128 * Room(maximum, index + 1)
  }

  lemma Rooms()
    ensures Room(5, 0) == 0x1_0000_0000
    ensures Room(10, 0) == 0x1_0000_0000_0000_0000
  {
    assert Room(10, 5) == 2 * 128 * 128 * 128 * 128 by {
      assert Room(10, 9) == 2 && Room(10, 8) == 128 * Room(10, 9) && Room(10, 7) == 128 * Room(10, 8);
      assert Room(10, 6) == 128 * Room(10, 7) && Room(10, 5) == 128 * Room(10, 6);
    }
    assert Room(10, 0) == 128 * 128 * 128 * 128 * 128 * Room(10, 5) by {
      assert Room(10, 4) == 128 * Room(10, 5) && Room(10, 3) == 128 * Room(10, 4);
      assert Room(10, 2) == 128 * Room(10, 3) && Room(10, 1) == 128 * Room(10, 2) && Room(10, 0) == 128 * Room(10, 1);
    }
    assert Room(5, 0) == 128 * 128 * 128 * 128 * 16 by {
      assert Room(5, 4) == 16 && Room(5, 3) == 128 * Room(5, 4) && Room(5, 2) == 128 * Room(5, 3);
      assert Room(5, 1) == 128 * Room(5, 2) && Room(5, 0) == 128 * Room(5, 1);
    }
  }

  lemma Digits(value: nat, p: nat)
    ensures value % 128 * p + value / 128 * (128 * p) == value * p
  {
    assert value == value / 128 * 128 + value % 128;
    assert (value / 128 * 128) * p == value / 128 * (128 * p);
    assert (value / 128 * 128 + value % 128) * p == value / 128 * 128 * p + value % 128 * p;
  }

  /** Reading what was pushed returns the value and consumes exactly its bytes. */
  lemma {:induction false} VarRoundTrip(value: nat, index: nat, maximum: nat, before: nat, rest: Bytes)
    requires maximum in {5, 10} && index < maximum && value < Room(maximum, index)
    ensures ReadVar(PushVar(value) + rest, index, maximum, before) == Got(before + value * Pow128(index), rest)
    decreases value
  {
    var input := PushVar(value) + rest;
    if value < 128 {
      assert input[0] == value && input[1..] == rest;
    } else {
      var next := before + value % 128 * Pow128(index);
      assert index + 1 < maximum && value / 128 < Room(maximum, index + 1);
      assert input[0] == value % 128 + 128 && input[1..] == PushVar(value / 128) + rest;
      VarRoundTrip(value / 128, index + 1, maximum, next, rest);
      Digits(value, Pow128(index));
    }
  }

  lemma MulBound(a: nat, b: nat, p: nat)
    requires a <= b
    ensures a * p <= b * p
  {
  }

  /** Whatever the bytes, no shift leaves the integer: five bytes stay below 2^32, ten below 2^64. */
  lemma {:induction false} VarBound(input: Bytes, index: nat, maximum: nat, value: nat)
    requires maximum in {5, 10} && index < maximum && value < Pow128(index)
    ensures ReadVar(input, index, maximum, value).Got? ==>
      ReadVar(input, index, maximum, value).value < Room(maximum, index) * Pow128(index)
    ensures ReadVar(input, index, maximum, value).Got? ==> |ReadVar(input, index, maximum, value).rest| < |input|
    decreases |input|
  {
    if ReadVar(input, index, maximum, value).Got? {
      var payload := input[0] % 128;
      var next := value + payload * Pow128(index);
      if index + 1 == maximum {
        LastByte(maximum, index, payload, value);
      } else {
        NextByte(maximum, index, payload, value);
        if input[0] >= 128 {
          VarBound(input[1..], index + 1, maximum, next);
        }
      }
    }
  }

  lemma LastByte(maximum: nat, index: nat, payload: nat, value: nat)
    requires maximum in {5, 10} && index + 1 == maximum && value < Pow128(index) && payload < Room(maximum, index)
    ensures value + payload * Pow128(index) < Room(maximum, index) * Pow128(index)
  {
    var p, room := Pow128(index), Room(maximum, index);
    MulBound(payload, room - 1, p);
    assert (room - 1) * p == room * p - p;
  }

  lemma NextByte(maximum: nat, index: nat, payload: nat, value: nat)
    requires index + 1 < maximum && value < Pow128(index) && payload < 128
    ensures value + payload * Pow128(index) < Pow128(index + 1)
    ensures Room(maximum, index) * Pow128(index) == Room(maximum, index + 1) * Pow128(index + 1)
    ensures Pow128(index + 1) <= Room(maximum, index) * Pow128(index)
  {
    var p, room := Pow128(index), Room(maximum, index + 1);
    MulBound(payload, 127, p);
    RoomPositive(maximum, index + 1);
    assert (128 * room) * p == room * (128 * p);
    MulBound(1, room, 128 * p);
  }

  lemma {:induction false} RoomPositive(maximum: nat, index: nat)
    requires index < maximum
    ensures Room(maximum, index) >= 1
    decreases maximum - index
  {
    if index + 1 < maximum {
      RoomPositive(maximum, index + 1);
    }
  }

  function ZigZag(value: int): nat {
    if value >= 0 then 2 * value else -2 * value - 1
  }

  function UnZigZag(n: nat): int {
    if n % 2 == 0 then n / 2 else -(n / 2) - 1
  }

  lemma ZigZagRoundTrip(value: int)
    ensures UnZigZag(ZigZag(value)) == value
  {
  }

  function PushSigned(value: int): Bytes {
    PushVar(ZigZag(value))
  }

  /** src/codec.rs:198-202 */
  function ReadI32(input: Bytes): Parsed<int> {
    var (value, rest) :- ReadVar(input, 0, 5, 0);
    if value > 0xffff_ffff then Bad(Malformed) else Got(UnZigZag(value), rest)
  }

  /** src/codec.rs:204-207 */
  function ReadI64(input: Bytes): Parsed<int> {
    var (value, rest) :- ReadVar(input, 0, 10, 0);
    Got(UnZigZag(value), rest)
  }

  /** Every i32 is read back from its own bytes. */
  lemma I32RoundTrip(value: int, rest: Bytes)
    requires -I32_MAX - 1 <= value <= I32_MAX
    ensures ReadI32(PushSigned(value) + rest) == Got(value, rest)
  {
    Rooms();
    VarRoundTrip(ZigZag(value), 0, 5, 0, rest);
    ZigZagRoundTrip(value);
  }

  /** Every i64 is read back from its own bytes. */
  lemma I64RoundTrip(value: int, rest: Bytes)
    requires -I64_MAX - 1 <= value <= I64_MAX
    ensures ReadI64(PushSigned(value) + rest) == Got(value, rest)
  {
    Rooms();
    VarRoundTrip(ZigZag(value), 0, 10, 0, rest);
    ZigZagRoundTrip(value);
  }

  /** On any input: the conversion to u32 never fails, and results are in the range of their type. */
  lemma ReadsInRange(input: Bytes)
    ensures ReadVar(input, 0, 5, 0).Got? ==> ReadI32(input).Got? && -I32_MAX - 1 <= ReadI32(input).value <= I32_MAX
    ensures ReadI64(input).Got? ==> -I64_MAX - 1 <= ReadI64(input).value <= I64_MAX
  {
    Rooms();
    VarBound(input, 0, 5, 0);
    VarBound(input, 0, 10, 0);
  }

  // -------------------------------------------------------------- pieces of a record

  function Take(input: Bytes, length: int): Parsed<Bytes> {
    if length < 0 || |input| < length then Bad(Malformed) else Got(input[..length], input[length..])
  }

  lemma TakeOwn(bytes: Bytes, rest: Bytes)
    ensures Take(bytes + rest, |bytes|) == Got(bytes, rest)
  {
  }

  /** src/codec.rs:175-187 */
  function TakeNullable(input: Bytes): Parsed<()> {
    var (length, rest) :- ReadI32(input);
    if length == -1 then Got((), rest)
    else
      var (_, after) :- Take(rest, length);
      Got((), after)
  }

  function PushNullable(value: Option<Bytes>): Bytes {
    match value
    case None => PushSigned(-1)
    case Some(bytes) => PushSigned(|bytes|) + bytes
  }

  predicate Short(value: Option<Bytes>) {
    value.Some? ==> |value.value| <= I32_MAX
  }

  lemma NullableRoundTrip(value: Option<Bytes>, rest: Bytes)
    requires Short(value)
    ensures TakeNullable(PushNullable(value) + rest) == Got((), rest)
  {
    match value
    case None => I32RoundTrip(-1, rest);
    case Some(bytes) =>
      assert PushNullable(value) + rest == PushSigned(|bytes|) + (bytes + rest);
      I32RoundTrip(|bytes|, bytes + rest);
      TakeOwn(bytes, rest);
  }

  datatype Header = Header(key: Bytes, value: Option<Bytes>)

  function PushHeader(h: Header): Bytes {
    PushSigned(|h.key|) + (h.key + PushNullable(h.value))
  }

  function PushHeaders(headers: seq<Header>): Bytes {
    if headers == [] then [] else PushHeader(headers[0]) + PushHeaders(headers[1..])
  }

  function ScanHeader(input: Bytes): Parsed<()> {
    var (length, r1) :- ReadI32(input);
    var (_, r2) :- Take(r1, length);
    TakeNullable(r2)
  }

  function ScanHeaders(input: Bytes, count: nat): Parsed<()>
    decreases count
  {
    if count == 0 then Got((), input)
    else
      var (_, rest) :- ScanHeader(input);
      ScanHeaders(rest, count - 1)
  }

  predicate HeaderOk(h: Header) {
    |h.key| <= I32_MAX && Short(h.value)
  }

  lemma HeaderRoundTrip(h: Header, rest: Bytes)
    requires HeaderOk(h)
    ensures ScanHeader(PushHeader(h) + rest) == Got((), rest)
  {
    hide ReadI32, PushSigned, TakeNullable, PushNullable;
    var tail := PushNullable(h.value) + rest;
    assert PushHeader(h) + rest == PushSigned(|h.key|) + (h.key + tail);
    I32RoundTrip(|h.key|, h.key + tail);
    TakeOwn(h.key, tail);
    NullableRoundTrip(h.value, rest);
  }

  lemma {:induction false} HeadersRoundTrip(headers: seq<Header>, rest: Bytes)
    requires forall i :: 0 <= i < |headers| ==> HeaderOk(headers[i])
    ensures ScanHeaders(PushHeaders(headers) + rest, |headers|) == Got((), rest)
    decreases |headers|
  {
    hide ScanHeader, PushHeader;
    if headers != [] {
      assert PushHeaders(headers) + rest == PushHeader(headers[0]) + (PushHeaders(headers[1..]) + rest);
      HeaderRoundTrip(headers[0], PushHeaders(headers[1..]) + rest);
      HeadersRoundTrip(headers[1..], rest);
    } else {
      assert PushHeaders(headers) + rest == rest;
    }
  }

  lemma {:induction false} PushVarNonempty(value: nat)
    ensures |PushVar(value)| >= 1
  {
  }

  /** Every header takes at least two bytes, so an honest count never exceeds half the rest of its record. */
  lemma {:induction false} HeadersTakeTwo(headers: seq<Header>)
    ensures 2 * |headers| <= |PushHeaders(headers)|
    decreases |headers|
  {
    if headers != [] {
      var h := headers[0];
      PushVarNonempty(ZigZag(|h.key|));
      PushVarNonempty(ZigZag(-1));
      if h.value.Some? {
        PushVarNonempty(ZigZag(|h.value.value|));
      }
      HeadersTakeTwo(headers[1..]);
    }
  }

  // -------------------------------------------------------------- one record

  datatype BatchInfo = BatchInfo(producerId: int, recordCount: nat, baseSequence: int, minTimestamp: int, minOffset: int)
  datatype Record = Record(timestampDelta: int, offsetDelta: int, key: Option<Bytes>, value: Option<Bytes>,
                           headers: seq<Header>)

  predicate FitsI64(value: int) {
    -I64_MAX - 1 <= value <= I64_MAX
  }

  /** The header count and what follows it, with the limits of src/codec.rs:136-158. */
  function ScanHeaderPart(input: Bytes, aggregate: nat): Parsed<nat> {
    var (count, r1) :- ReadI32(input);
    if count < 0 then Bad(Malformed)
    else if count > MAX_HEADERS_PER_RECORD || aggregate + count > MAX_HEADERS_PER_REQUEST || 2 * count > |r1|
    then Bad(TooManyHeaders)
    else
      var (_, r2) :- ScanHeaders(r1, count);
      if r2 != [] then Bad(Malformed) else Got(count, r2)
  }

  /** One record body (src/codec.rs:116-158): its header count; nothing may follow. */
  function ScanBody(info: BatchInfo, ordinal: nat, aggregate: nat, body: Bytes): Parsed<nat> {
    var (attributes, r1) :- Take(body, 1);
    if attributes[0] != 0 then Bad(Malformed)
    else
      var (timestampDelta, r2) :- ReadI64(r1);
      if !FitsI64(info.minTimestamp + timestampDelta) then Bad(ArithmeticOverflow)
      else
        var (offsetDelta, r3) :- ReadI32(r2);
        if offsetDelta < 0 || (info.producerId >= 0 && (info.baseSequence < 0 || offsetDelta != ordinal)) then Bad(Malformed)
        else if !FitsI64(info.minOffset + offsetDelta) then Bad(ArithmeticOverflow)
        else
          var (_, r4) :- TakeNullable(r3);
          var (_, r5) :- TakeNullable(r4);
          ScanHeaderPart(r5, aggregate)
  }

  function PushHeaderPart(r: Record): Bytes {
    PushSigned(|r.headers|) + PushHeaders(r.headers)
  }

  function PushBody(r: Record): Bytes {
    [0] + (PushSigned(r.timestampDelta) + (PushSigned(r.offsetDelta) + (PushNullable(r.key)
      + (PushNullable(r.value) + PushHeaderPart(r)))))
  }

  /** What a batch may hold: the limits the scanner enforces, in terms of the record. */
  predicate RecordOk(info: BatchInfo, ordinal: nat, aggregate: nat, r: Record) {
    && FitsI64(r.timestampDelta) && FitsI64(info.minTimestamp + r.timestampDelta)
    && 0 <= r.offsetDelta <= I32_MAX && FitsI64(info.minOffset + r.offsetDelta)
    && (info.producerId >= 0 ==> info.baseSequence >= 0 && r.offsetDelta == ordinal)
    && Short(r.key) && Short(r.value)
    && |r.headers| <= MAX_HEADERS_PER_RECORD && aggregate + |r.headers| <= MAX_HEADERS_PER_REQUEST
    && (forall i :: 0 <= i < |r.headers| ==> HeaderOk(r.headers[i]))
    && |PushBody(r)| <= I32_MAX
  }

  lemma HeaderPartRoundTrip(r: Record, aggregate: nat)
    requires |r.headers| <= MAX_HEADERS_PER_RECORD && aggregate + |r.headers| <= MAX_HEADERS_PER_REQUEST
    requires forall i :: 0 <= i < |r.headers| ==> HeaderOk(r.headers[i])
    ensures ScanHeaderPart(PushHeaderPart(r), aggregate) == Got(|r.headers|, [])
  {
    hide ReadI32, PushSigned, ScanHeaders, PushHeaders;
    I32RoundTrip(|r.headers|, PushHeaders(r.headers));
    HeadersTakeTwo(r.headers);
    HeadersRoundTrip(r.headers, []);
    assert PushHeaders(r.headers) + [] == PushHeaders(r.headers);
  }

  /** An encoded in-limit record body is accepted, to its last byte. */
  lemma BodyRoundTrip(info: BatchInfo, ordinal: nat, aggregate: nat, r: Record)
    requires RecordOk(info, ordinal, aggregate, r)
    ensures ScanBody(info, ordinal, aggregate, PushBody(r)) == Got(|r.headers|, [])
  {
    hide ReadI32, ReadI64, PushSigned, TakeNullable, PushNullable, ScanHeaderPart, PushHeaderPart;
    var t5 := PushHeaderPart(r);
    var t4 := PushNullable(r.value) + t5;
    var t3 := PushNullable(r.key) + t4;
    var t2 := PushSigned(r.offsetDelta) + t3;
    var t1 := PushSigned(r.timestampDelta) + t2;
    TakeOwn([0], t1);
    I64RoundTrip(r.timestampDelta, t2);
    I32RoundTrip(r.offsetDelta, t3);
    NullableRoundTrip(r.key, t4);
    NullableRoundTrip(r.value, t5);
    HeaderPartRoundTrip(r, aggregate);
  }

  // -------------------------------------------------------------- batches

  function ScanRecord(info: BatchInfo, ordinal: nat, aggregate: nat, input: Bytes): Parsed<nat> {
    var (length, r1) :- ReadI32(input);
    var (body, r2) :- Take(r1, length);
    var (count, _) :- ScanBody(info, ordinal, aggregate, body);
    Got(count, r2)
  }

  function Sum(counts: seq<nat>): nat {
    if counts == [] then 0 else Sum(counts[..|counts| - 1]) + counts[|counts| - 1]
  }

  /** The records of one batch from `ordinal` on (src/codec.rs:112-159). */
  function ScanRecords(info: BatchInfo, ordinal: nat, counts: seq<nat>, input: Bytes): Parsed<seq<nat>>
    decreases info.recordCount - ordinal
  {
    if ordinal >= info.recordCount then Got(counts, input)
    else
      var (count, rest) :- ScanRecord(info, ordinal, Sum(counts), input);
      ScanRecords(info, ordinal + 1, counts + [count], rest)
  }

  function FromBe(bytes: Bytes): int
    requires |bytes| == 4
  {
    var a: int, b: int, c: int, d: int := bytes[0], bytes[1], bytes[2], bytes[3];
    var n := a * 0x100_0000 + b * 0x1_0000 + c * 0x100 + d;
    if n > I32_MAX then n - 0x1_0000_0000 else n
  }

  function ToBe(value: int): (bytes: Bytes)
    requires 0 <= value <= I32_MAX
    ensures |bytes| == 4 && FromBe(bytes) == value
  {
    BeDigits(value);
    [value / 0x100_0000, value / 0x1_0000 % 256, value / 0x100 % 256, value % 256]
  }

  lemma BeDigits(value: int)
    requires 0 <= value <= I32_MAX
    ensures value / 0x100_0000 < 256
    ensures value / 0x100_0000 * 0x100_0000 + value / 0x1_0000 % 256 * 0x1_0000 + value / 0x100 % 256 * 0x100 + value % 256
      == value
  {
    var a, b := value / 0x100, value / 0x100 / 0x100;
    assert b == value / 0x1_0000 && b / 0x100 == value / 0x100_0000;
  }

  /** One batch (src/codec.rs:93-163). */
  function ScanBatch(info: BatchInfo, counts: seq<nat>, input: Bytes): Parsed<seq<nat>> {
    var (prefix, r1) :- Take(input, 12);
    var length := FromBe(prefix[8..12]);
    if length < 0 then Bad(Malformed)
    else
      var (batch, r2) :- Take(r1, length);
      if |batch| < 49 then Bad(Malformed)
      else if info.producerId >= 0 && FromBe(batch[11..15]) != info.recordCount - 1 then Bad(Malformed)
      else
        var (after, rest) :- ScanRecords(info, 0, counts, batch[49..]);
        if rest != [] then Bad(Malformed) else Got(after, r2)
  }

  function ScanBatches(infos: seq<BatchInfo>, counts: seq<nat>, input: Bytes): Parsed<seq<nat>> {
    if infos == [] then (if input == [] then Got(counts, input) else Bad(Malformed))
    else
      var (after, rest) :- ScanBatch(infos[0], counts, input);
      ScanBatches(infos[1..], after, rest)
  }

  /** A batch to encode: the eight bytes of its base offset, its 49 header bytes, and its records. */
  datatype Batch = Batch(baseOffset: Bytes, header: Bytes, records: seq<Record>)

  function PushRecord(r: Record): Bytes {
    PushSigned(|PushBody(r)|) + PushBody(r)
  }

  function PushRecords(records: seq<Record>): Bytes {
    if records == [] then [] else PushRecord(records[0]) + PushRecords(records[1..])
  }

  function Counts(records: seq<Record>): (counts: seq<nat>)
    ensures |counts| == |records|
  {
    seq(|records|, i requires 0 <= i < |records| => |records[i].headers|)
  }

  predicate RecordsOk(info: BatchInfo, ordinal: nat, counts: seq<nat>, records: seq<Record>)
    decreases |records|
  {
    records == [] ||
    (RecordOk(info, ordinal, Sum(counts), records[0])
     && RecordsOk(info, ordinal + 1, counts + [|records[0].headers|], records[1..]))
  }

  function PushContent(b: Batch): Bytes {
    b.header + PushRecords(b.records)
  }

  predicate BatchOk(info: BatchInfo, counts: seq<nat>, b: Batch) {
    && |b.baseOffset| == 8 && |b.header| == 49
    && info.recordCount == |b.records|
    && (info.producerId >= 0 ==> FromBe(b.header[11..15]) == |b.records| - 1)
    && |PushContent(b)| <= I32_MAX
    && RecordsOk(info, 0, counts, b.records)
  }

  function PushBatch(b: Batch): Bytes
    requires |PushContent(b)| <= I32_MAX
  {
    (b.baseOffset + ToBe(|PushContent(b)|)) + PushContent(b)
  }

  predicate BatchesOk(infos: seq<BatchInfo>, counts: seq<nat>, batches: seq<Batch>)
    decreases |batches|
  {
    |infos| == |batches| &&
    (batches == [] ||
     (BatchOk(infos[0], counts, batches[0]) && BatchesOk(infos[1..], counts + Counts(batches[0].records), batches[1..])))
  }

  function PushBatches(infos: seq<BatchInfo>, counts: seq<nat>, batches: seq<Batch>): Bytes
    requires BatchesOk(infos, counts, batches)
    decreases |batches|
  {
    if batches == [] then []
    else PushBatch(batches[0]) + PushBatches(infos[1..], counts + Counts(batches[0].records), batches[1..])
  }

  function AllCounts(batches: seq<Batch>): seq<nat> {
    if batches == [] then [] else Counts(batches[0].records) + AllCounts(batches[1..])
  }

  lemma RecordRoundTrip(info: BatchInfo, ordinal: nat, aggregate: nat, r: Record, rest: Bytes)
    requires RecordOk(info, ordinal, aggregate, r)
    ensures ScanRecord(info, ordinal, aggregate, PushRecord(r) + rest) == Got(|r.headers|, rest)
  {
    hide ReadI32, PushSigned, ScanBody, PushBody;
    var body := PushBody(r);
    assert PushRecord(r) + rest == PushSigned(|body|) + (body + rest);
    I32RoundTrip(|body|, body + rest);
    TakeOwn(body, rest);
    BodyRoundTrip(info, ordinal, aggregate, r);
  }

  lemma {:induction false} RecordsRoundTrip(info: BatchInfo, ordinal: nat, counts: seq<nat>, records: seq<Record>)
    requires RecordsOk(info, ordinal, counts, records) && info.recordCount == ordinal + |records|
    ensures ScanRecords(info, ordinal, counts, PushRecords(records)) == Got(counts + Counts(records), [])
    decreases |records|
  {
    hide ScanRecord, PushRecord, RecordOk, Sum;
    if records == [] {
      assert counts + Counts(records) == counts;
    } else {
      var count := |records[0].headers|;
      RecordRoundTrip(info, ordinal, Sum(counts), records[0], PushRecords(records[1..]));
      RecordsRoundTrip(info, ordinal + 1, counts + [count], records[1..]);
      assert Counts(records) == [count] + Counts(records[1..]);
      assert counts + ([count] + Counts(records[1..])) == counts + [count] + Counts(records[1..]);
    }
  }

  lemma BatchRoundTrip(info: BatchInfo, counts: seq<nat>, b: Batch, rest: Bytes)
    requires BatchOk(info, counts, b)
    ensures ScanBatch(info, counts, PushBatch(b) + rest) == Got(counts + Counts(b.records), rest)
  {
    hide ScanRecords, PushRecords, RecordsOk, FromBe, Counts;
    var content := PushContent(b);
    var prefix := b.baseOffset + ToBe(|content|);
    assert PushBatch(b) + rest == prefix + (content + rest);
    TakeOwn(prefix, content + rest);
    assert prefix[8..12] == ToBe(|content|);
    TakeOwn(content, rest);
    assert content[11..15] == b.header[11..15] && content[49..] == PushRecords(b.records);
    RecordsRoundTrip(info, 0, counts, b.records);
  }

  /** The scanner accepts every encoded in-limit sequence of batches, consumes all of it, and returns its header counts. */
  lemma {:induction false} BatchesRoundTrip(infos: seq<BatchInfo>, counts: seq<nat>, batches: seq<Batch>)
    requires BatchesOk(infos, counts, batches)
    ensures ScanBatches(infos, counts, PushBatches(infos, counts, batches)) == Got(counts + AllCounts(batches), [])
    decreases |batches|
  {
    hide ScanBatch, PushBatch, BatchOk, Counts;
    if batches == [] {
      assert counts + AllCounts(batches) == counts;
    } else {
      var after := counts + Counts(batches[0].records);
      BatchRoundTrip(infos[0], counts, batches[0], PushBatches(infos[1..], after, batches[1..]));
      BatchesRoundTrip(infos[1..], after, batches[1..]);
      assert counts + (Counts(batches[0].records) + AllCounts(batches[1..])) == after + AllCounts(batches[1..]);
    }
  }

  // -------------------------------------------------------------- the scanner in place

  /** A slice that reads advance. After an error its position is of no interest. */
  class Cursor {
    var rest: Bytes

    constructor (bytes: Bytes)
      ensures rest == bytes
    {
      rest := bytes;
    }

    method TakeRaw(length: int) returns (r: Parsed<Bytes>)
      modifies this
      ensures r == Take(old(rest), length) && (r.Got? ==> rest == r.rest)
    {
      if length < 0 || |rest| < length {
        return Bad(Malformed);
      }
      r := Got(rest[..length], rest[length..]);
      rest := rest[length..];
    }

    method ReadUnsigned(maximum: nat) returns (r: Parsed<nat>)
      modifies this
      ensures r == ReadVar(old(rest), 0, maximum, 0) && (r.Got? ==> rest == r.rest)
    {
      var value: nat, power: nat := 0, 1;
      for index := 0 to maximum
        invariant power == Pow128(index)
        invariant ReadVar(rest, index, maximum, value) == ReadVar(old(rest), 0, maximum, 0)
      {
        var taken := TakeRaw(1);
        if taken.Bad? {
          return Bad(Malformed);
        }
        var byte := taken.value[0];
        var payload := byte % 128;
        if (index == 4 && maximum == 5 && payload > 0x0f) || (index == 9 && maximum == 10 && payload > 0x01) {
          return Bad(Malformed);
        }
        value := value + payload * power;
        power := 128 * power;
        if byte < 128 {
          return Got(value, rest);
        }
      }
      r := Bad(Malformed);
    }

    method ReadVarI32() returns (r: Parsed<int>)
      modifies this
      ensures r == ReadI32(old(rest)) && (r.Got? ==> rest == r.rest)
    {
      var value := ReadUnsigned(5);
      if value.Bad? {
        return Bad(value.error);
      }
      if value.value > 0xffff_ffff {
        return Bad(Malformed);
      }
      r := Got(UnZigZag(value.value), rest);
    }

    method ReadVarI64() returns (r: Parsed<int>)
      modifies this
      ensures r == ReadI64(old(rest)) && (r.Got? ==> rest == r.rest)
    {
      var value := ReadUnsigned(10);
      if value.Bad? {
        return Bad(value.error);
      }
      r := Got(UnZigZag(value.value), rest);
    }

    method TakeNullableRaw() returns (r: Parsed<()>)
      modifies this
      ensures r == TakeNullable(old(rest)) && (r.Got? ==> rest == r.rest)
    {
      var length := ReadVarI32();
      if length.Bad? {
        return Bad(length.error);
      }
      if length.value == -1 {
        return Got((), rest);
      }
      var taken := TakeRaw(length.value);
      if taken.Bad? {
        return Bad(taken.error);
      }
      r := Got((), rest);
    }

    method SkipHeaders(count: nat) returns (r: Parsed<()>)
      modifies this
      ensures r == ScanHeaders(old(rest), count) && (r.Got? ==> rest == r.rest)
    {
      hide ReadI32, TakeNullable;
      for i := 0 to count
        invariant ScanHeaders(rest, count - i) == ScanHeaders(old(rest), count)
      {
        var length := ReadVarI32();
        if length.Bad? {
          return Bad(length.error);
        }
        var key := TakeRaw(length.value);
        if key.Bad? {
          return Bad(key.error);
        }
        var value := TakeNullableRaw();
        if value.Bad? {
          return Bad(value.error);
        }
      }
      r := Got((), rest);
    }

    /** The body of the record loop (src/codec.rs:116-158). */
    method ScanRecordBody(info: BatchInfo, ordinal: nat, aggregate: nat) returns (r: Parsed<nat>)
      modifies this
      ensures r == ScanBody(info, ordinal, aggregate, old(rest))
    {
      hide ReadI32, ReadI64, TakeNullable, ScanHeaderPart;
      var attributes := TakeRaw(1);
      if attributes.Bad? || attributes.value[0] != 0 {
        return Bad(Malformed);
      }
      var timestampDelta := ReadVarI64();
      if timestampDelta.Bad? {
        return Bad(timestampDelta.error);
      }
      if !FitsI64(info.minTimestamp + timestampDelta.value) {
        return Bad(ArithmeticOverflow);
      }
      var offsetDelta := ReadVarI32();
      if offsetDelta.Bad? {
        return Bad(offsetDelta.error);
      }
      if offsetDelta.value < 0 || (info.producerId >= 0 && (info.baseSequence < 0 || offsetDelta.value != ordinal)) {
        return Bad(Malformed);
      }
      if !FitsI64(info.minOffset + offsetDelta.value) {
        return Bad(ArithmeticOverflow);
      }
      var key := TakeNullableRaw();
      if key.Bad? {
        return Bad(key.error);
      }
      var value := TakeNullableRaw();
      if value.Bad? {
        return Bad(value.error);
      }
      r := ScanHeaderCount(aggregate);
    }

    method ScanHeaderCount(aggregate: nat) returns (r: Parsed<nat>)
      modifies this
      ensures r == ScanHeaderPart(old(rest), aggregate)
    {
      hide ReadI32, ScanHeaders;
      var count := ReadVarI32();
      if count.Bad? {
        return Bad(count.error);
      }
      if count.value < 0 {
        return Bad(Malformed);
      }
      if count.value > MAX_HEADERS_PER_RECORD || aggregate + count.value > MAX_HEADERS_PER_REQUEST
         || 2 * count.value > |rest| {
        return Bad(TooManyHeaders);
      }
      var headers := SkipHeaders(count.value);
      if headers.Bad? {
        return Bad(headers.error);
      }
      if rest != [] {
        return Bad(Malformed);
      }
      r := Got(count.value, rest);
    }

    /** The records of one batch; `counts` grows by one header count a record. */
    method ScanAllRecords(info: BatchInfo, before: seq<nat>, aggregate: nat) returns (r: Parsed<seq<nat>>, headers: nat)
      requires aggregate == Sum(before)
      modifies this
      ensures r == ScanRecords(info, 0, before, old(rest))
      ensures r.Got? ==> rest == r.rest && headers == Sum(r.value)
    {
      hide ReadI32, ScanBody;
      var counts := before;
      headers := aggregate;
      for ordinal := 0 to info.recordCount
        invariant headers == Sum(counts)
        invariant ScanRecords(info, ordinal, counts, rest) == ScanRecords(info, 0, before, old(rest))
      {
        var length := ReadVarI32();
        if length.Bad? {
          return Bad(length.error), headers;
        }
        var body := TakeRaw(length.value);
        if body.Bad? {
          return Bad(body.error), headers;
        }
        var record := new Cursor(body.value);
        var count := record.ScanRecordBody(info, ordinal, headers);
        if count.Bad? {
          return Bad(count.error), headers;
        }
        headers := headers + count.value;
        SumSnoc(counts, count.value);
        counts := counts + [count.value];
      }
      r := Got(counts, rest);
    }
  }

  lemma SumSnoc(counts: seq<nat>, count: nat)
    ensures Sum(counts + [count]) == Sum(counts) + count
  {
    assert (counts + [count])[..|counts|] == counts;
  }

  /** src/codec.rs:86-169 */
  method ValidateRawRecords(encoded: Bytes, infos: seq<BatchInfo>) returns (r: Parsed<seq<nat>>)
    ensures r == ScanBatches(infos, [], encoded)
  {
    hide ScanRecords, FromBe;
    var batches := new Cursor(encoded);
    var counts: seq<nat>, headers := [], 0;
    for i := 0 to |infos|
      invariant fresh(batches)
      invariant headers == Sum(counts)
      invariant ScanBatches(infos[i..], counts, batches.rest) == ScanBatches(infos, [], encoded)
    {
      var info := infos[i];
      assert infos[i..][0] == info && infos[i..][1..] == infos[i + 1..];
      var prefix := batches.TakeRaw(12);
      if prefix.Bad? {
        return Bad(prefix.error);
      }
      var length := FromBe(prefix.value[8..12]);
      if length < 0 {
        return Bad(Malformed);
      }
      var batch := batches.TakeRaw(length);
      if batch.Bad? {
        return Bad(batch.error);
      }
      if |batch.value| < 49 {
        return Bad(Malformed);
      }
      if info.producerId >= 0 && FromBe(batch.value[11..15]) != info.recordCount - 1 {
        return Bad(Malformed);
      }
      var records := new Cursor(batch.value[49..]);
      var scanned, aggregate := records.ScanAllRecords(info, counts, headers);
      if scanned.Bad? {
        return Bad(scanned.error);
      }
      if records.rest != [] {
        return Bad(Malformed);
      }
      counts := scanned.value;
      headers := aggregate;
    }
    assert infos[|infos|..] == [];
    if batches.rest != [] {
      return Bad(Malformed);
    }
    r := Got(counts, batches.rest);
  }
}
