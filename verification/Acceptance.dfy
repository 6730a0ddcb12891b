/**
 * What the record scanner accepts, as a grammar of the bytes: sections 5.3.1 "Record Batch" and 5.3.2
 * "Record" of the Apache Kafka documentation, with the limits of src/codec.rs:86-226. Only cuts of
 * the input occur here, not the functions that scan it.
 */
module Acceptance {
  import opened LogTypes
  import opened Codec

  // -------------------------------------------------------------- variable-length integers

  function VarSum(piece: Bytes): nat {
    if piece == [] then 0 else piece[0] % 128 + 128 * VarSum(piece[1..])
  }

  /** Seven bits a byte, low bits first; all bytes but the last are marked. The last of five or ten is short. */
  ghost predicate IsVar(piece: Bytes, maximum: nat, value: nat) {
    && 0 < |piece| <= maximum
    && (forall i :: 0 <= i < |piece| - 1 ==> piece[i] >= 128)
    && piece[|piece| - 1] < 128
    && value == VarSum(piece)
    && (maximum == 5 && |piece| == 5 ==> piece[4] <= 0x0f)
    && (maximum == 10 && |piece| == 10 ==> piece[9] <= 0x01)
  }

  /** A signed integer in zig-zag order: 0, -1, 1, -2, 2 and so on. */
  ghost predicate IsSigned(piece: Bytes, maximum: nat, value: int) {
    IsVar(piece, maximum, if value >= 0 then 2 * value else -2 * value - 1)
  }

  /** A varint from byte `index` on. */
  ghost predicate VarFrom(piece: Bytes, index: nat, maximum: nat) {
    && 0 < |piece| && index + |piece| <= maximum
    && (forall i :: 0 <= i < |piece| - 1 ==> piece[i] >= 128)
    && piece[|piece| - 1] < 128
    && (maximum == 5 && index + |piece| == 5 ==> piece[|piece| - 1] <= 0x0f)
    && (maximum == 10 && index + |piece| == 10 ==> piece[|piece| - 1] <= 0x01)
  }

  lemma Shift(payload: nat, sum: nat, p: nat)
    ensures (payload + 128 * sum) * p == payload * p + sum * (128 * p)
  {
    assert (payload + 128 * sum) * p == payload * p + (128 * sum) * p;
    assert (128 * sum) * p == sum * (128 * p);
  }

  lemma {:induction false} VarRead(input: Bytes, index: nat, maximum: nat, value: nat) returns (n: nat)
    requires maximum in {5, 10} && ReadVar(input, index, maximum, value).Got?
    ensures n <= |input| && VarFrom(input[..n], index, maximum)
    ensures ReadVar(input, index, maximum, value) == Got(value + VarSum(input[..n]) * Pow128(index), input[n..])
    decreases |input|
  {
    hide VarFrom, VarSum;
    var next := value + input[0] % 128 * Pow128(index);
    if input[0] < 128 {
      n := 1;
      LastOfVar(input, index, maximum);
    } else {
      var m := VarRead(input[1..], index + 1, maximum, next);
      n := m + 1;
      MoreOfVar(input, m, index, maximum);
      Shift(input[0] % 128, VarSum(input[1..][..m]), Pow128(index));
    }
  }

  lemma LastOfVar(input: Bytes, index: nat, maximum: nat)
    requires maximum in {5, 10} && index < maximum && input != [] && input[0] < 128
    requires maximum == 5 && index == 4 ==> input[0] <= 0x0f
    requires maximum == 10 && index == 9 ==> input[0] <= 0x01
    ensures VarFrom(input[..1], index, maximum) && VarSum(input[..1]) == input[0] % 128
  {
    assert input[..1][1..] == [];
  }

  lemma MoreOfVar(input: Bytes, m: nat, index: nat, maximum: nat)
    requires m < |input| && input[0] >= 128 && VarFrom(input[1..][..m], index + 1, maximum)
    ensures VarFrom(input[..m + 1], index, maximum) && input[m + 1..] == input[1..][m..]
    ensures VarSum(input[..m + 1]) == input[0] % 128 + 128 * VarSum(input[1..][..m])
  {
    var piece, rest := input[..m + 1], input[1..][..m];
    assert piece[1..] == rest;
    forall i | 0 <= i < |piece| - 1 ensures piece[i] >= 128 {
      assert i > 0 ==> piece[i] == rest[i - 1];
    }
    assert piece[|piece| - 1] == rest[m - 1];
  }

  lemma {:induction false} VarWritten(piece: Bytes, rest: Bytes, index: nat, maximum: nat, value: nat)
    requires maximum in {5, 10} && VarFrom(piece, index, maximum)
    ensures ReadVar(piece + rest, index, maximum, value) == Got(value + VarSum(piece) * Pow128(index), rest)
    decreases |piece|
  {
    hide VarFrom, VarSum, Pow128;
    var input := piece + rest;
    FirstOfVar(piece, index, maximum);
    assert input[1..] == piece[1..] + rest;
    if |piece| > 1 {
      RestOfVar(piece, index, maximum);
      VarWritten(piece[1..], rest, index + 1, maximum, value + piece[0] % 128 * Pow128(index));
      PowNext(index);
      Shift(piece[0] % 128, VarSum(piece[1..]), Pow128(index));
    } else {
      assert piece[1..] + rest == rest;
    }
  }

  lemma FirstOfVar(piece: Bytes, index: nat, maximum: nat)
    requires VarFrom(piece, index, maximum)
    ensures 0 < |piece| <= maximum - index && (piece[0] < 128 <==> |piece| == 1)
    ensures |piece| == 1 ==>
      && VarSum(piece) == piece[0] % 128
      && (maximum == 5 && index == 4 ==> piece[0] <= 0x0f)
      && (maximum == 10 && index == 9 ==> piece[0] <= 0x01)
  {
    if |piece| == 1 {
      assert piece[1..] == [];
    }
  }

  lemma PowNext(index: nat)
    ensures Pow128(index + 1) == 128 * Pow128(index)
  {
  }

  lemma RestOfVar(piece: Bytes, index: nat, maximum: nat)
    requires VarFrom(piece, index, maximum) && |piece| > 1
    ensures VarFrom(piece[1..], index + 1, maximum) && VarSum(piece) == piece[0] % 128 + 128 * VarSum(piece[1..])
  {
  }

  /** The i32 at the front of the input, and where it ends. */
  lemma I32Front(input: Bytes) returns (n: nat)
    requires ReadI32(input).Got?
    ensures n <= |input| && IsSigned(input[..n], 5, ReadI32(input).value) && ReadI32(input).rest == input[n..]
  {
    n := VarRead(input, 0, 5, 0);
    Unsigned(VarSum(input[..n]));
  }

  lemma I64Front(input: Bytes) returns (n: nat)
    requires ReadI64(input).Got?
    ensures n <= |input| && IsSigned(input[..n], 10, ReadI64(input).value) && ReadI64(input).rest == input[n..]
  {
    n := VarRead(input, 0, 10, 0);
    Unsigned(VarSum(input[..n]));
  }

  lemma Unsigned(n: nat)
    ensures var s := UnZigZag(n); n == if s >= 0 then 2 * s else -2 * s - 1
  {
  }

  lemma VarBack(piece: Bytes, rest: Bytes, maximum: nat, value: nat)
    requires maximum in {5, 10} && IsVar(piece, maximum, value)
    ensures ReadVar(piece + rest, 0, maximum, 0) == Got(value, rest)
  {
    hide ReadVar, VarSum;
    VarWritten(piece, rest, 0, maximum, 0);
  }

  lemma SignedBack(value: int)
    ensures UnZigZag(if value >= 0 then 2 * value else -2 * value - 1) == value
  {
  }

  lemma I32Back(piece: Bytes, rest: Bytes, value: int)
    requires IsSigned(piece, 5, value)
    ensures ReadI32(piece + rest) == Got(value, rest)
  {
    hide ReadVar, IsVar, UnZigZag;
    VarBack(piece, rest, 5, if value >= 0 then 2 * value else -2 * value - 1);
    ReadsInRange(piece + rest);
    SignedBack(value);
  }

  lemma I64Back(piece: Bytes, rest: Bytes, value: int)
    requires IsSigned(piece, 10, value)
    ensures ReadI64(piece + rest) == Got(value, rest)
  {
    hide ReadVar, IsVar, UnZigZag;
    VarBack(piece, rest, 10, if value >= 0 then 2 * value else -2 * value - 1);
    SignedBack(value);
  }

  // -------------------------------------------------------------- the fields of a record

  /** A length, then that many bytes; -1 stands for null. */
  ghost predicate NullableField(p: Bytes) {
    exists n: nat, length: int :: n <= |p| && IsSigned(p[..n], 5, length)
      && if length == -1 then |p| == n else length >= 0 && |p| == n + length
  }

  lemma NullableFront(input: Bytes) returns (n: nat)
    requires TakeNullable(input).Got?
    ensures n <= |input| && NullableField(input[..n]) && TakeNullable(input).rest == input[n..]
  {
    hide IsSigned, ReadI32;
    var m := I32Front(input);
    var length := ReadI32(input).value;
    n := if length == -1 then m else m + length;
    assert input[..n][..m] == input[..m];
    assert length != -1 ==> input[m..][length..] == input[n..];
  }

  lemma NullableBack(p: Bytes, rest: Bytes)
    requires NullableField(p)
    ensures TakeNullable(p + rest) == Got((), rest)
  {
    hide IsSigned, ReadI32;
    var n: nat, length: int :| n <= |p| && IsSigned(p[..n], 5, length)
      && if length == -1 then |p| == n else length >= 0 && |p| == n + length;
    assert p + rest == p[..n] + (p[n..] + rest);
    I32Back(p[..n], p[n..] + rest, length);
    if length == -1 {
      assert p[n..] + rest == rest;
    } else {
      TakeOwn(p[n..], rest);
    }
  }

  /** A key of a declared length, then a nullable value. */
  ghost predicate HeaderField(p: Bytes) {
    exists n: nat, length: nat :: n + length <= |p| && IsSigned(p[..n], 5, length) && NullableField(p[n + length..])
  }

  lemma HeaderFront(input: Bytes) returns (n: nat)
    requires ScanHeader(input).Got?
    ensures n <= |input| && HeaderField(input[..n]) && ScanHeader(input).rest == input[n..]
  {
    hide IsSigned, ReadI32, TakeNullable, NullableField;
    var m := I32Front(input);
    var length := ReadI32(input).value;
    var after := input[m..][length..];
    assert after == input[m + length..];
    var v := NullableFront(after);
    n := m + length + v;
    assert input[..n][..m] == input[..m] && input[..n][m + length..] == after[..v];
  }

  lemma HeaderBack(p: Bytes, rest: Bytes)
    requires HeaderField(p)
    ensures ScanHeader(p + rest) == Got((), rest)
  {
    hide IsSigned, ReadI32, TakeNullable, NullableField;
    var n: nat, length: nat :| n + length <= |p| && IsSigned(p[..n], 5, length) && NullableField(p[n + length..]);
    var tail := p[n + length..] + rest;
    assert p + rest == p[..n] + (p[n..n + length] + tail);
    I32Back(p[..n], p[n..n + length] + tail, length);
    TakeOwn(p[n..n + length], tail);
    NullableBack(p[n + length..], rest);
  }

  ghost predicate HeaderList(p: Bytes, count: nat)
    decreases count
  {
    if count == 0 then p == []
    else exists n: nat :: n <= |p| && HeaderField(p[..n]) && HeaderList(p[n..], count - 1)
  }

  lemma {:induction false} HeadersFront(input: Bytes, count: nat)
    requires ScanHeaders(input, count).Got? && ScanHeaders(input, count).rest == []
    ensures HeaderList(input, count)
    decreases count
  {
    hide ScanHeader, HeaderField;
    if count > 0 {
      var n := HeaderFront(input);
      HeadersFront(input[n..], count - 1);
    }
  }

  lemma {:induction false} HeadersBack(p: Bytes, count: nat)
    requires HeaderList(p, count)
    ensures ScanHeaders(p, count) == Got((), [])
    decreases count
  {
    hide ScanHeader, HeaderField;
    if count > 0 {
      var n: nat :| n <= |p| && HeaderField(p[..n]) && HeaderList(p[n..], count - 1);
      assert p == p[..n] + p[n..];
      HeaderBack(p[..n], p[n..]);
      HeadersBack(p[n..], count - 1);
    }
  }

  /** A header count within the limits, no more than half the bytes after it, and that many headers to the end. */
  ghost predicate HeaderPart(p: Bytes, aggregate: nat, count: nat) {
    && count <= MAX_HEADERS_PER_RECORD && aggregate + count <= MAX_HEADERS_PER_REQUEST
    && exists n: nat :: n <= |p| && IsSigned(p[..n], 5, count) && 2 * count <= |p| - n && HeaderList(p[n..], count)
  }

  lemma HeaderPartMeaning(p: Bytes, aggregate: nat, count: nat)
    ensures ScanHeaderPart(p, aggregate) == Got(count, []) <==> HeaderPart(p, aggregate, count)
  {
    hide IsSigned, ReadI32, ScanHeaders, HeaderList;
    if ScanHeaderPart(p, aggregate) == Got(count, []) {
      var n := I32Front(p);
      HeadersFront(p[n..], count);
    }
    if HeaderPart(p, aggregate, count) {
      var n: nat :| n <= |p| && IsSigned(p[..n], 5, count) && 2 * count <= |p| - n && HeaderList(p[n..], count);
      assert p == p[..n] + p[n..];
      I32Back(p[..n], p[n..], count);
      HeadersBack(p[n..], count);
    }
  }

  /** Too many headers are reported exactly when a count could be read that is over a limit, or over half of what follows. */
  lemma HeaderRefusal(p: Bytes, aggregate: nat)
    ensures ScanHeaderPart(p, aggregate) == Bad(TooManyHeaders) <==>
      exists n: nat, count: nat :: n <= |p| && IsSigned(p[..n], 5, count)
        && (count > MAX_HEADERS_PER_RECORD || aggregate + count > MAX_HEADERS_PER_REQUEST || 2 * count > |p| - n)
  {
    hide IsSigned, ReadI32;
    if ReadI32(p).Got? {
      var n := I32Front(p);
      if ScanHeaderPart(p, aggregate) == Bad(TooManyHeaders) {
        var count: nat := ReadI32(p).value;
        assert IsSigned(p[..n], 5, count);
      }
    }
    ReadMalformed(p);
    HeadersMalformed(p, aggregate);
    forall n: nat, count: nat | n <= |p| && IsSigned(p[..n], 5, count) ensures ReadI32(p) == Got(count as int, p[n..]) {
      assert p == p[..n] + p[n..];
      I32Back(p[..n], p[n..], count);
    }
  }

  lemma ReadMalformed(p: Bytes)
    ensures ReadI32(p).Bad? ==> ReadI32(p).error == Malformed
  {
    VarMalformed(p, 0, 5, 0);
  }

  lemma {:induction false} VarMalformed(p: Bytes, index: nat, maximum: nat, value: nat)
    ensures ReadVar(p, index, maximum, value).Bad? ==> ReadVar(p, index, maximum, value).error == Malformed
    decreases |p|
  {
    if p != [] {
      VarMalformed(p[1..], index + 1, maximum, value + p[0] % 128 * Pow128(index));
    }
  }

  lemma HeadersMalformed(p: Bytes, aggregate: nat)
    ensures ReadI32(p).Got? && ReadI32(p).value >= 0 && ScanHeaders(ReadI32(p).rest, ReadI32(p).value).Bad? ==>
      ScanHeaders(ReadI32(p).rest, ReadI32(p).value).error == Malformed
  {
    if ReadI32(p).Got? && ReadI32(p).value >= 0 {
      ListMalformed(ReadI32(p).rest, ReadI32(p).value);
    }
  }

  lemma {:induction false} ListMalformed(p: Bytes, count: nat)
    ensures ScanHeaders(p, count).Bad? ==> ScanHeaders(p, count).error == Malformed
    decreases count
  {
    hide ScanHeader;
    if count > 0 {
      HeaderMalformed(p);
      if ScanHeader(p).Got? {
        ListMalformed(ScanHeader(p).rest, count - 1);
      }
    }
  }

  lemma NullableMalformed(p: Bytes)
    ensures TakeNullable(p).Bad? ==> TakeNullable(p).error == Malformed
  {
    hide ReadI32;
    ReadMalformed(p);
  }

  lemma HeaderMalformed(p: Bytes)
    ensures ScanHeader(p).Bad? ==> ScanHeader(p).error == Malformed
  {
    hide ReadI32, TakeNullable;
    ReadMalformed(p);
    if ReadI32(p).Got? && Take(ReadI32(p).rest, ReadI32(p).value).Got? {
      NullableMalformed(Take(ReadI32(p).rest, ReadI32(p).value).rest);
    }
  }

  /**
   * The fields of a record body, cut at i, j, k and l: the attribute byte, the timestamp delta, the
   * offset delta, key, value and headers. Sums stay within 64 bits; the records of a producer carry
   * their ordinals.
   */
  ghost predicate FieldsAt(info: BatchInfo, ordinal: nat, aggregate: nat, body: Bytes, count: nat, i: nat, j: nat, k: nat, l: nat,
                     timestamp: int, offset: int)
  {
    && 1 <= i <= j <= k <= l <= |body| && body[0] == 0
    && IsSigned(body[1..i], 10, timestamp) && InI64(info.minTimestamp + timestamp)
    && IsSigned(body[i..j], 5, offset) && InI64(info.minOffset + offset)
    && offset >= 0 && (info.producerId >= 0 ==> info.baseSequence >= 0 && offset == ordinal)
    && NullableField(body[j..k]) && NullableField(body[k..l])
    && HeaderPart(body[l..], aggregate, count)
  }

  ghost predicate IsBody(info: BatchInfo, ordinal: nat, aggregate: nat, body: Bytes, count: nat) {
    exists i: nat, j: nat, k: nat, l: nat, timestamp: int, offset: int ::
      FieldsAt(info, ordinal, aggregate, body, count, i, j, k, l, timestamp, offset)
  }

  predicate InI64(value: int) {
    -0x8000_0000_0000_0000 <= value <= 0x7fff_ffff_ffff_ffff
  }

  /** The timestamp delta ends at i and overflows, or it does not and the valid offset delta that ends at j does. */
  ghost predicate OverflowAt(info: BatchInfo, ordinal: nat, body: Bytes, i: nat, j: nat, timestamp: int, offset: int) {
    && 1 <= i <= j <= |body| && body[0] == 0 && IsSigned(body[1..i], 10, timestamp)
    && (!InI64(info.minTimestamp + timestamp)
        || (IsSigned(body[i..j], 5, offset) && !InI64(info.minOffset + offset)
            && offset >= 0 && (info.producerId >= 0 ==> info.baseSequence >= 0 && offset == ordinal)))
  }

  /** An arithmetic overflow is reported exactly when one of the two sums leaves the 64-bit range. */
  lemma OverflowMeaning(info: BatchInfo, ordinal: nat, aggregate: nat, body: Bytes)
    ensures ScanBody(info, ordinal, aggregate, body) == Bad(ArithmeticOverflow) <==>
      exists i: nat, j: nat, timestamp: int, offset: int :: OverflowAt(info, ordinal, body, i, j, timestamp, offset)
  {
    hide IsSigned, ReadI32, ReadI64, TakeNullable, ScanHeaderPart, OverflowAt;
    if ScanBody(info, ordinal, aggregate, body) == Bad(ArithmeticOverflow) {
      OverflowFront(info, ordinal, aggregate, body);
    }
    forall i: nat, j: nat, timestamp: int, offset: int | OverflowAt(info, ordinal, body, i, j, timestamp, offset)
      ensures ScanBody(info, ordinal, aggregate, body) == Bad(ArithmeticOverflow)
    {
      OverflowBack(info, ordinal, aggregate, body, i, j, timestamp, offset);
    }
  }

  lemma NoOverflow(aggregate: nat, input: Bytes)
    ensures TakeNullable(input).Bad? ==> TakeNullable(input).error == Malformed
    ensures ScanHeaderPart(input, aggregate).Bad? ==> ScanHeaderPart(input, aggregate).error in {Malformed, TooManyHeaders}
  {
    hide ReadI32, ScanHeaders;
    NullableMalformed(input);
    ReadMalformed(input);
    HeadersMalformed(input, aggregate);
  }

  lemma OverflowFront(info: BatchInfo, ordinal: nat, aggregate: nat, body: Bytes)
    requires ScanBody(info, ordinal, aggregate, body) == Bad(ArithmeticOverflow)
    ensures exists i: nat, j: nat, timestamp: int, offset: int :: OverflowAt(info, ordinal, body, i, j, timestamp, offset)
  {
    hide IsSigned, ReadI32, ReadI64, TakeNullable, ScanHeaderPart;
    LongMalformed(body[1..]);
    var i := LongAt(body, 1);
    var timestamp := ReadI64(body[1..]).value;
    if !InI64(info.minTimestamp + timestamp) {
      assert OverflowAt(info, ordinal, body, i, i, timestamp, 0);
    } else {
      ReadMalformed(body[i..]);
      var j := IntAt(body, i);
      NoOverflow(aggregate, body[j..]);
      if TakeNullable(body[j..]).Got? {
        var after := TakeNullable(body[j..]).rest;
        NoOverflow(aggregate, after);
        if TakeNullable(after).Got? {
          NoOverflow(aggregate, TakeNullable(after).rest);
        }
      }
      assert OverflowAt(info, ordinal, body, i, j, timestamp, ReadI32(body[i..]).value);
    }
  }

  lemma LongMalformed(p: Bytes)
    ensures ReadI64(p).Bad? ==> ReadI64(p).error == Malformed
  {
    VarMalformed(p, 0, 10, 0);
  }

  lemma OverflowBack(info: BatchInfo, ordinal: nat, aggregate: nat, body: Bytes, i: nat, j: nat, timestamp: int, offset: int)
    requires OverflowAt(info, ordinal, body, i, j, timestamp, offset)
    ensures ScanBody(info, ordinal, aggregate, body) == Bad(ArithmeticOverflow)
  {
    hide IsSigned, ReadI32, ReadI64, TakeNullable, ScanHeaderPart;
    assert body[1..] == body[1..i] + body[i..];
    I64Back(body[1..i], body[i..], timestamp);
    if InI64(info.minTimestamp + timestamp) {
      assert body[i..] == body[i..j] + body[j..];
      I32Back(body[i..j], body[j..], offset);
    }
  }

  lemma LongAt(body: Bytes, i: nat) returns (j: nat)
    requires i <= |body| && ReadI64(body[i..]).Got?
    ensures i <= j <= |body| && IsSigned(body[i..j], 10, ReadI64(body[i..]).value) && ReadI64(body[i..]).rest == body[j..]
  {
    hide IsSigned, ReadI64;
    var n := I64Front(body[i..]);
    j := i + n;
    assert body[i..][..n] == body[i..j] && body[i..][n..] == body[j..];
  }

  lemma IntAt(body: Bytes, i: nat) returns (j: nat)
    requires i <= |body| && ReadI32(body[i..]).Got?
    ensures i <= j <= |body| && IsSigned(body[i..j], 5, ReadI32(body[i..]).value) && ReadI32(body[i..]).rest == body[j..]
  {
    hide IsSigned, ReadI32;
    var n := I32Front(body[i..]);
    j := i + n;
    assert body[i..][..n] == body[i..j] && body[i..][n..] == body[j..];
  }

  lemma FieldAt(body: Bytes, i: nat) returns (j: nat)
    requires i <= |body| && TakeNullable(body[i..]).Got?
    ensures i <= j <= |body| && NullableField(body[i..j]) && TakeNullable(body[i..]).rest == body[j..]
  {
    hide NullableField, TakeNullable;
    var n := NullableFront(body[i..]);
    j := i + n;
    assert body[i..][..n] == body[i..j] && body[i..][n..] == body[j..];
  }

  lemma BodyFront(info: BatchInfo, ordinal: nat, aggregate: nat, body: Bytes, count: nat)
    requires ScanBody(info, ordinal, aggregate, body) == Got(count, [])
    ensures IsBody(info, ordinal, aggregate, body, count)
  {
    hide IsSigned, ReadI32, ReadI64, TakeNullable, NullableField, ScanHeaderPart, HeaderPart;
    var i := LongAt(body, 1);
    var j := IntAt(body, i);
    var k := FieldAt(body, j);
    var l := FieldAt(body, k);
    HeaderPartMeaning(body[l..], aggregate, count);
    assert FieldsAt(info, ordinal, aggregate, body, count, i, j, k, l, ReadI64(body[1..]).value, ReadI32(body[i..]).value);
  }

  lemma BodyBack(info: BatchInfo, ordinal: nat, aggregate: nat, body: Bytes, count: nat)
    requires IsBody(info, ordinal, aggregate, body, count)
    ensures ScanBody(info, ordinal, aggregate, body) == Got(count, [])
  {
    hide IsSigned, ReadI32, ReadI64, TakeNullable, NullableField, ScanHeaderPart, HeaderPart;
    var i: nat, j: nat, k: nat, l: nat, timestamp: int, offset: int
      :| FieldsAt(info, ordinal, aggregate, body, count, i, j, k, l, timestamp, offset);
    assert body[1..] == body[1..i] + body[i..];
    I64Back(body[1..i], body[i..], timestamp);
    assert body[i..] == body[i..j] + body[j..];
    I32Back(body[i..j], body[j..], offset);
    assert body[j..] == body[j..k] + body[k..];
    NullableBack(body[j..k], body[k..]);
    assert body[k..] == body[k..l] + body[l..];
    NullableBack(body[k..l], body[l..]);
    HeaderPartMeaning(body[l..], aggregate, count);
  }

  /** The scanner accepts a record body exactly if its bytes are the fields of a record within the limits. */
  lemma BodyMeaning(info: BatchInfo, ordinal: nat, aggregate: nat, body: Bytes)
    ensures ScanBody(info, ordinal, aggregate, body).Got? <==> exists count: nat :: IsBody(info, ordinal, aggregate, body, count)
    ensures forall count: nat :: IsBody(info, ordinal, aggregate, body, count) ==>
      ScanBody(info, ordinal, aggregate, body) == Got(count, [])
  {
    hide IsBody, ScanBody;
    var r := ScanBody(info, ordinal, aggregate, body);
    if r.Got? {
      BodySound(info, ordinal, aggregate, body);
      BodyFront(info, ordinal, aggregate, body, r.value);
    }
    forall count: nat | IsBody(info, ordinal, aggregate, body, count) ensures r == Got(count, []) {
      BodyBack(info, ordinal, aggregate, body, count);
    }
  }

  // -------------------------------------------------------------- what acceptance means

  /** Header counts within the limits of a record and of the request. */
  ghost predicate WithinLimits(counts: seq<nat>) {
    Sum(counts) <= MAX_HEADERS_PER_REQUEST && forall i :: 0 <= i < |counts| ==> counts[i] <= MAX_HEADERS_PER_RECORD
  }

  lemma BodySound(info: BatchInfo, ordinal: nat, aggregate: nat, body: Bytes)
    ensures var r := ScanBody(info, ordinal, aggregate, body);
      r.Got? ==>
        && r.rest == [] && body != [] && body[0] == 0
        && r.value <= MAX_HEADERS_PER_RECORD && aggregate + r.value <= MAX_HEADERS_PER_REQUEST
        && (info.producerId >= 0 ==> info.baseSequence >= 0)
  {
    hide ReadI32, ReadI64, TakeNullable, ScanHeaders;
  }

  lemma LimitsSnoc(counts: seq<nat>, count: nat)
    requires WithinLimits(counts) && count <= MAX_HEADERS_PER_RECORD && Sum(counts) + count <= MAX_HEADERS_PER_REQUEST
    ensures WithinLimits(counts + [count])
  {
    SumSnoc(counts, count);
  }

  /** Accepted records: one count each, all within the limits. */
  lemma {:induction false} RecordsSound(info: BatchInfo, ordinal: nat, counts: seq<nat>, input: Bytes)
    requires WithinLimits(counts) && ordinal <= info.recordCount
    ensures var r := ScanRecords(info, ordinal, counts, input);
      r.Got? ==>
        && |r.value| == |counts| + (info.recordCount - ordinal) && counts <= r.value && WithinLimits(r.value)
    decreases info.recordCount - ordinal
  {
    hide ReadI32, ScanBody, WithinLimits;
    if ordinal < info.recordCount && ScanRecord(info, ordinal, Sum(counts), input).Got? {
      var length := ReadI32(input);
      BodySound(info, ordinal, Sum(counts), Take(length.rest, length.value).value);
      var r := ScanRecord(info, ordinal, Sum(counts), input);
      LimitsSnoc(counts, r.value);
      RecordsSound(info, ordinal + 1, counts + [r.value], r.rest);
    }
  }

  /** A record as it lies in the input: its declared length, then exactly that many bytes, which are its fields. */
  ghost predicate RecordPiece(info: BatchInfo, ordinal: nat, aggregate: nat, piece: Bytes, count: nat) {
    exists n: nat :: n < |piece| && IsSigned(piece[..n], 5, |piece| - n)
      && IsBody(info, ordinal, aggregate, piece[n..], count)
  }

  /** The record area is exactly the given records, one for each that was declared, with their header counts. */
  ghost predicate Pieces(info: BatchInfo, ordinal: nat, counts: seq<nat>, pieces: seq<Bytes>, area: Bytes, after: seq<nat>)
    decreases |pieces|
  {
    && counts <= after && |after| == |counts| + |pieces|
    && info.recordCount == ordinal + |pieces|
    && if pieces == [] then area == []
       else
         && pieces[0] <= area
         && RecordPiece(info, ordinal, Sum(counts), pieces[0], after[|counts|])
         && Pieces(info, ordinal + 1, counts + [after[|counts|]], pieces[1..], area[|pieces[0]|..], after)
  }

  lemma CutRecord(info: BatchInfo, ordinal: nat, aggregate: nat, input: Bytes)
    ensures var r := ScanRecord(info, ordinal, aggregate, input);
      r.Got? ==>
        && |r.rest| <= |input| && r.rest == input[|input| - |r.rest|..]
        && RecordPiece(info, ordinal, aggregate, input[..|input| - |r.rest|], r.value)
  {
    hide ScanBody, ReadI32, IsSigned, IsBody;
    var r := ScanRecord(info, ordinal, aggregate, input);
    if r.Got? {
      var n := I32Front(input);
      var length := ReadI32(input).value;
      var body := input[n..][..length];
      BodySound(info, ordinal, aggregate, body);
      BodyFront(info, ordinal, aggregate, body, r.value);
      var piece := input[..n + length];
      assert r.rest == input[n..][length..] == input[n + length..];
      assert piece[..n] == input[..n] && piece[n..] == body;
    }
  }

  /** And whatever is such a piece is accepted as the next record, with anything behind it. */
  lemma PieceAccepted(info: BatchInfo, ordinal: nat, aggregate: nat, piece: Bytes, count: nat, rest: Bytes)
    requires RecordPiece(info, ordinal, aggregate, piece, count)
    ensures ScanRecord(info, ordinal, aggregate, piece + rest) == Got(count, rest)
  {
    hide ScanBody, ReadI32, IsSigned, IsBody;
    var n: nat :| n < |piece| && IsSigned(piece[..n], 5, |piece| - n)
      && IsBody(info, ordinal, aggregate, piece[n..], count);
    assert piece + rest == piece[..n] + (piece[n..] + rest);
    I32Back(piece[..n], piece[n..] + rest, |piece| - n);
    TakeOwn(piece[n..], rest);
    BodyBack(info, ordinal, aggregate, piece[n..], count);
  }

  /** Accepted records lie one behind another, each with the length it declares. */
  lemma {:induction false} CutRecords(info: BatchInfo, ordinal: nat, counts: seq<nat>, input: Bytes)
    returns (pieces: seq<Bytes>)
    requires ordinal <= info.recordCount
    requires ScanRecords(info, ordinal, counts, input).Got? && ScanRecords(info, ordinal, counts, input).rest == []
    ensures Pieces(info, ordinal, counts, pieces, input, ScanRecords(info, ordinal, counts, input).value)
    decreases info.recordCount - ordinal
  {
    hide ScanRecord, RecordPiece, Sum;
    pieces := [];
    if ordinal < info.recordCount {
      var r := ScanRecord(info, ordinal, Sum(counts), input);
      CutRecord(info, ordinal, Sum(counts), input);
      var rest := CutRecords(info, ordinal + 1, counts + [r.value], r.rest);
      pieces := [input[..|input| - |r.rest|]] + rest;
      assert pieces[1..] == rest && input[|pieces[0]|..] == r.rest;
    }
  }

  /** A signed big-endian integer of four bytes. */
  ghost predicate IsBe(bytes: Bytes, value: int) {
    && |bytes| == 4 && -0x8000_0000 <= value <= 0x7fff_ffff
    && var a: int, b: int, c: int, d: int := bytes[0], bytes[1], bytes[2], bytes[3];
       0x100_0000 * a + 0x1_0000 * b + 0x100 * c + d
       == if value >= 0 then value else value + 0x1_0000_0000
  }

  lemma BeMeaning(bytes: Bytes, value: int)
    requires |bytes| == 4
    ensures IsBe(bytes, value) <==> FromBe(bytes) == value
  {
    var a: int, b: int, c: int, d: int := bytes[0], bytes[1], bytes[2], bytes[3];
    assert FromBe(bytes) == (var n := a * 0x100_0000 + b * 0x1_0000 + c * 0x100 + d;
                             if n > I32_MAX then n - 0x1_0000_0000 else n);
  }

  /** A batch as it lies in the input: its own declared length, its last offset delta, and its records. */
  ghost predicate Frame(info: BatchInfo, counts: seq<nat>, frame: Bytes, after: seq<nat>) {
    && |frame| >= 61
    && IsBe(frame[8..12], |frame| - 12)
    && (info.producerId >= 0 ==> IsBe(frame[23..27], info.recordCount - 1))
    && exists pieces :: Pieces(info, 0, counts, pieces, frame[61..], after)
  }

  lemma BatchSound(info: BatchInfo, counts: seq<nat>, input: Bytes)
    requires WithinLimits(counts)
    ensures var r := ScanBatch(info, counts, input);
      r.Got? ==>
        && |r.rest| <= |input| && input[|input| - |r.rest|..] == r.rest
        && Frame(info, counts, input[..|input| - |r.rest|], r.value)
        && |r.value| == |counts| + info.recordCount && counts <= r.value && WithinLimits(r.value)
  {
    hide ScanRecords, FromBe, WithinLimits, Pieces;
    var r := ScanBatch(info, counts, input);
    if r.Got? {
      var length := FromBe(input[..12][8..12]);
      var frame := input[..12 + length];
      assert frame[8..12] == input[..12][8..12] && frame[12..] == input[12..][..length];
      assert frame[23..27] == input[12..][..length][11..15];
      BeMeaning(frame[8..12], length);
      BeMeaning(frame[23..27], info.recordCount - 1);
      assert frame[61..] == input[12..][..length][49..];
      assert r.rest == input[12 + length..];
      RecordsSound(info, 0, counts, frame[61..]);
      var pieces := CutRecords(info, 0, counts, frame[61..]);
    }
  }

  function TotalRecords(infos: seq<BatchInfo>): nat {
    if infos == [] then 0 else infos[0].recordCount + TotalRecords(infos[1..])
  }

  /** The input is exactly the given frames, one for each batch, scanned one after another. */
  ghost predicate Framed(infos: seq<BatchInfo>, counts: seq<nat>, frames: seq<Bytes>, input: Bytes, after: seq<nat>)
    decreases |infos|
  {
    && |frames| == |infos|
    && if infos == [] then input == [] && after == counts
       else
         && frames[0] <= input
         && exists next :: Frame(infos[0], counts, frames[0], next)
              && Framed(infos[1..], next, frames[1..], input[|frames[0]|..], after)
  }

  /**
   * What the scanner accepts is a sequence of complete frames: every declared batch length is the
   * length of its frame, every declared record length that of its record, nothing lies between or
   * after them, there is one header count for every declared record, and all counts are within the
   * limits.
   */
  lemma {:induction false} AcceptedMeans(infos: seq<BatchInfo>, counts: seq<nat>, input: Bytes) returns (frames: seq<Bytes>)
    requires WithinLimits(counts) && ScanBatches(infos, counts, input).Got?
    ensures var after := ScanBatches(infos, counts, input).value;
      && Framed(infos, counts, frames, input, after)
      && |after| == |counts| + TotalRecords(infos) && counts <= after && WithinLimits(after)
    decreases |infos|
  {
    hide ScanBatch, Frame, WithinLimits;
    frames := [];
    if infos != [] {
      var r := ScanBatch(infos[0], counts, input);
      BatchSound(infos[0], counts, input);
      var rest := AcceptedMeans(infos[1..], r.value, r.rest);
      frames := [input[..|input| - |r.rest|]] + rest;
      assert frames[1..] == rest && input[|frames[0]|..] == r.rest;
    }
  }

  // -------------------------------------------------------------- and whatever has this form is accepted

  lemma {:induction false} PiecesAccepted(info: BatchInfo, ordinal: nat, counts: seq<nat>, pieces: seq<Bytes>, area: Bytes,
                                          after: seq<nat>)
    requires Pieces(info, ordinal, counts, pieces, area, after)
    ensures ScanRecords(info, ordinal, counts, area) == Got(after, [])
    decreases |pieces|
  {
    hide RecordPiece, ScanRecord, Sum;
    if pieces == [] {
      assert counts == after;
    } else {
      var rest := area[|pieces[0]|..];
      assert area == pieces[0] + rest;
      PieceAccepted(info, ordinal, Sum(counts), pieces[0], after[|counts|], rest);
      PiecesAccepted(info, ordinal + 1, counts + [after[|counts|]], pieces[1..], rest, after);
    }
  }

  lemma FrameAccepted(info: BatchInfo, counts: seq<nat>, frame: Bytes, after: seq<nat>, rest: Bytes)
    requires Frame(info, counts, frame, after)
    ensures ScanBatch(info, counts, frame + rest) == Got(after, rest)
  {
    hide ScanRecords, FromBe, Pieces, IsBe;
    var pieces :| Pieces(info, 0, counts, pieces, frame[61..], after);
    PiecesAccepted(info, 0, counts, pieces, frame[61..], after);
    var input := frame + rest;
    BeMeaning(frame[8..12], |frame| - 12);
    BeMeaning(frame[23..27], info.recordCount - 1);
    assert input[..12][8..12] == frame[8..12] && input[12..] == frame[12..] + rest;
    TakeOwn(frame[12..], rest);
    assert frame[12..][11..15] == frame[23..27] && frame[12..][49..] == frame[61..];
  }

  /** Input that is such frames, one for each batch, is accepted, with the header counts of its records. */
  lemma {:induction false} FramedAccepted(infos: seq<BatchInfo>, counts: seq<nat>, frames: seq<Bytes>, input: Bytes,
                                          after: seq<nat>)
    requires Framed(infos, counts, frames, input, after)
    ensures ScanBatches(infos, counts, input) == Got(after, [])
    decreases |infos|
  {
    hide ScanBatch, Frame;
    if infos != [] {
      var next :| Frame(infos[0], counts, frames[0], next)
        && Framed(infos[1..], next, frames[1..], input[|frames[0]|..], after);
      var rest := input[|frames[0]|..];
      assert input == frames[0] + rest;
      FrameAccepted(infos[0], counts, frames[0], next, rest);
      FramedAccepted(infos[1..], next, frames[1..], rest, after);
    }
  }
}
