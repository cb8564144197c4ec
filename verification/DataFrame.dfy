/** The binary data frame, its batches, and the rewriting of its delivery fields. */
module DataFrames {
  import opened Collections

  type byte = x: int | 0 <= x < 256

  const DATA_MAGIC: seq<byte> := [0x5a, 0x54, 0x52, 0x4d]
  const DATA_PROTOCOL_VERSION: byte := 2
  const DATA_HEADER_BYTES: nat := 48
  const MAX_DATA_PAYLOAD_BYTES: nat := 16 * 1024 * 1024
  const MAX_DATA_BATCH_BYTES: nat := 256 * 1024
  const MAX_DATA_BATCH_FRAMES: nat := 64

  const PTY_OUTPUT: int := 1
  const RESIZE_APPLIED: int := 2
  const REPLAY_COMMIT: int := 3
  const RESET: int := 4
  const DELIVERY_BARRIER: int := 5

  const U16: nat := 0x1_0000
  const U32: nat := 0x1_0000_0000
  const U64: nat := 0x1_0000_0000_0000_0000

  datatype ErrorCode =
    | BadMagic | BadVersion | BadKind | BadFlags | BadLength | BadPayload | BadEpoch | BadGeneration
    | EventGap | PtyOffsetGap | OutOfRange

  datatype Result<+T> = Ok(value: T) | Err(error: ErrorCode)

  datatype Frame = Frame(
    kind: int, flags: int, sessionEpoch: int, deliveryGeneration: int, eventSeq: int, ptyOffset: int,
    streamId: int, payload: seq<byte>)

  predicate ValidKind(kind: int) { PTY_OUTPUT <= kind <= DELIVERY_BARRIER }
  predicate InU32(value: int) { 0 <= value < U32 }
  predicate InU64(value: int) { 0 <= value < U64 }

  // ---- Little-endian fields ----

  function Little(value: nat, width: nat): (bytes: seq<byte>)
    ensures |bytes| == width
  {
    if width == 0 then [] else [value % 256] + Little(value / 256, width - 1)
  }

  function FromLittle(bytes: seq<byte>): nat {
    if bytes == [] then 0 else bytes[0] + 256 * FromLittle(bytes[1..])
  }

  function Room(width: nat): nat {
    if width == 0 then 1 else 256 * Room(width - 1)
  }

  lemma {:induction false} LittleInverse(value: nat, width: nat)
    requires value < Room(width)
    ensures FromLittle(Little(value, width)) == value
  {
    if width > 0 {
      assert value / 256 < Room(width - 1);
      LittleInverse(value / 256, width - 1);
      assert Little(value, width)[1..] == Little(value / 256, width - 1);
    }
  }

  lemma {:induction false} FromLittleInverse(bytes: seq<byte>)
    ensures FromLittle(bytes) < Room(|bytes|)
    ensures Little(FromLittle(bytes), |bytes|) == bytes
  {
    if bytes != [] {
      FromLittleInverse(bytes[1..]);
      assert FromLittle(bytes) / 256 == FromLittle(bytes[1..]);
      assert FromLittle(bytes) % 256 == bytes[0];
      assert bytes == [bytes[0]] + bytes[1..];
    }
  }

  lemma Rooms()
    ensures Room(2) == U16 && Room(4) == U32 && Room(8) == U64
  {
    assert Room(3) == 0x100_0000;
    assert Room(5) == 0x100_0000_0000;
    assert Room(7) == 0x100_0000_0000_0000;
  }

  /** The field of `width` bytes at `at`. */
  function Field(bytes: seq<byte>, at: nat, width: nat): nat
    requires at + width <= |bytes|
  {
    FromLittle(bytes[at..at + width])
  }

  function SetField(bytes: seq<byte>, at: nat, width: nat, value: nat): (r: seq<byte>)
    requires at + width <= |bytes|
    ensures |r| == |bytes|
  {
    bytes[..at] + Little(value, width) + bytes[at + width..]
  }

  lemma FieldOfSet(bytes: seq<byte>, at: nat, width: nat, value: nat)
    requires at + width <= |bytes| && value < Room(width)
    ensures Field(SetField(bytes, at, width, value), at, width) == value
  {
    assert SetField(bytes, at, width, value)[at..at + width] == Little(value, width);
    LittleInverse(value, width);
  }

  lemma OtherOfSet(bytes: seq<byte>, at: nat, width: nat, value: nat, from: nat, to: nat)
    requires at + width <= |bytes| && from <= to <= |bytes| && (to <= at || at + width <= from)
    ensures SetField(bytes, at, width, value)[from..to] == bytes[from..to]
  {
  }

  // ---- One frame ----

  function Header(f: Frame): (h: seq<byte>)
    requires f.flags >= 0 && f.sessionEpoch >= 0 && f.deliveryGeneration >= 0 && f.eventSeq >= 0 && f.ptyOffset >= 0
    requires f.streamId >= 0 && ValidKind(f.kind)
    ensures |h| == DATA_HEADER_BYTES
  {
    DATA_MAGIC + [DATA_PROTOCOL_VERSION, f.kind] + Little(f.flags, 2) + Little(f.sessionEpoch, 8)
    + Little(f.deliveryGeneration, 8) + Little(f.eventSeq, 8) + Little(f.ptyOffset, 8) + Little(f.streamId, 4)
    + Little(|f.payload|, 4)
  }

  function Encode(f: Frame): Result<seq<byte>> {
    if !ValidKind(f.kind) then Err(BadKind)
    else if !(0 <= f.flags < U16) then Err(OutOfRange)
    else if f.flags != 0 then Err(BadFlags)
    else if !InU64(f.sessionEpoch) || !InU64(f.deliveryGeneration) || !InU64(f.eventSeq) || !InU64(f.ptyOffset)
            || !InU32(f.streamId) then Err(OutOfRange)
    else if |f.payload| > MAX_DATA_PAYLOAD_BYTES then Err(BadLength)
    else Ok(Header(f) + f.payload)
  }

  function Decode(bytes: seq<byte>): Result<Frame> {
    if |bytes| < DATA_HEADER_BYTES then Err(BadLength)
    else if bytes[..4] != DATA_MAGIC then Err(BadMagic)
    else if bytes[4] != DATA_PROTOCOL_VERSION then Err(BadVersion)
    else if !ValidKind(bytes[5]) then Err(BadKind)
    else if Field(bytes, 6, 2) != 0 then Err(BadFlags)
    else
      var length := Field(bytes, 44, 4);
      if length > MAX_DATA_PAYLOAD_BYTES || |bytes| != DATA_HEADER_BYTES + length then Err(BadLength)
      else Ok(Frame(bytes[5], 0, Field(bytes, 8, 8), Field(bytes, 16, 8), Field(bytes, 24, 8), Field(bytes, 32, 8),
                    Field(bytes, 40, 4), bytes[DATA_HEADER_BYTES..]))
  }

  lemma HeaderFields(f: Frame)
    requires Encode(f).Ok?
    ensures var b := Encode(f).value;
            && |b| == DATA_HEADER_BYTES + |f.payload|
            && b[..4] == DATA_MAGIC && b[4] == DATA_PROTOCOL_VERSION && b[5] == f.kind
            && b[6..8] == Little(f.flags, 2) && b[8..16] == Little(f.sessionEpoch, 8)
            && b[16..24] == Little(f.deliveryGeneration, 8) && b[24..32] == Little(f.eventSeq, 8)
            && b[32..40] == Little(f.ptyOffset, 8) && b[40..44] == Little(f.streamId, 4)
            && b[44..48] == Little(|f.payload|, 4) && b[48..] == f.payload
  {
    hide Little;
  }

  /** Every frame that can be encoded decodes to itself. */
  lemma DecodeOfEncode(f: Frame)
    requires Encode(f).Ok?
    ensures Decode(Encode(f).value) == Ok(f)
  {
    HeaderFields(f);
    Rooms();
    LittleInverse(f.flags, 2);
    LittleInverse(f.sessionEpoch, 8);
    LittleInverse(f.deliveryGeneration, 8);
    LittleInverse(f.eventSeq, 8);
    LittleInverse(f.ptyOffset, 8);
    LittleInverse(f.streamId, 4);
    LittleInverse(|f.payload|, 4);
    hide Little, FromLittle, Header, Room;
  }

  lemma DecodedRanges(bytes: seq<byte>)
    requires Decode(bytes).Ok?
    ensures var f := Decode(bytes).value;
            && ValidKind(f.kind) && f.flags == 0 && InU64(f.sessionEpoch) && InU64(f.deliveryGeneration)
            && InU64(f.eventSeq) && InU64(f.ptyOffset) && InU32(f.streamId)
            && |f.payload| <= MAX_DATA_PAYLOAD_BYTES
  {
    Rooms();
    FromLittleInverse(bytes[8..16]);
    FromLittleInverse(bytes[16..24]);
    FromLittleInverse(bytes[24..32]);
    FromLittleInverse(bytes[32..40]);
    FromLittleInverse(bytes[40..44]);
    hide FromLittle, Room;
  }

  /** Every byte string that is accepted is the encoding of what it decodes to. */
  lemma EncodeOfDecode(bytes: seq<byte>)
    requires Decode(bytes).Ok?
    ensures Encode(Decode(bytes).value) == Ok(bytes)
  {
    DecodedRanges(bytes);
    FromLittleInverse(bytes[6..8]);
    FromLittleInverse(bytes[8..16]);
    FromLittleInverse(bytes[16..24]);
    FromLittleInverse(bytes[24..32]);
    FromLittleInverse(bytes[32..40]);
    FromLittleInverse(bytes[40..44]);
    FromLittleInverse(bytes[44..48]);
    hide Little, FromLittle, Room;
    assert bytes == bytes[..4] + [bytes[4], bytes[5]] + bytes[6..8] + bytes[8..16] + bytes[16..24] + bytes[24..32]
                    + bytes[32..40] + bytes[40..44] + bytes[44..48] + bytes[48..];
  }

  // ---- Rewriting the delivery ----

  function Rewrite(bytes: seq<byte>, generation: int, streamId: int): Result<seq<byte>> {
    if !InU64(generation) || !InU32(streamId) then Err(OutOfRange)
    else if Decode(bytes).Err? then Err(Decode(bytes).error)
    else Ok(SetField(SetField(bytes, 16, 8, generation), 40, 4, streamId))
  }

  /** Rewriting changes the generation and the stream of the decoded frame, and nothing else. */
  lemma DecodeOfRewrite(bytes: seq<byte>, generation: int, streamId: int)
    requires Decode(bytes).Ok? && InU64(generation) && InU32(streamId)
    ensures Rewrite(bytes, generation, streamId).Ok?
    ensures Decode(Rewrite(bytes, generation, streamId).value)
         == Ok(Decode(bytes).value.(deliveryGeneration := generation, streamId := streamId))
  {
    var once := SetField(bytes, 16, 8, generation);
    var twice := SetField(once, 40, 4, streamId);
    Rooms();
    FieldOfSet(bytes, 16, 8, generation);
    FieldOfSet(once, 40, 4, streamId);
    OtherOfSet(once, 40, 4, streamId, 16, 24);
    RewriteElsewhere(bytes, generation, streamId, 0, 4);
    RewriteElsewhere(bytes, generation, streamId, 6, 8);
    RewriteElsewhere(bytes, generation, streamId, 8, 16);
    RewriteElsewhere(bytes, generation, streamId, 24, 32);
    RewriteElsewhere(bytes, generation, streamId, 32, 40);
    RewriteElsewhere(bytes, generation, streamId, 44, 48);
    RewriteElsewhere(bytes, generation, streamId, 48, |bytes|);
    assert twice[4] == bytes[4] && twice[5] == bytes[5];
    assert twice[..4] == twice[0..4] && bytes[..4] == bytes[0..4];
    assert twice[48..] == twice[48..|bytes|] && bytes[48..] == bytes[48..|bytes|];
    hide SetField, FromLittle, Room;
  }

  lemma RewriteElsewhere(bytes: seq<byte>, generation: nat, streamId: nat, from: nat, to: nat)
    requires |bytes| >= DATA_HEADER_BYTES
    requires to <= 16 || (24 <= from && to <= 40) || 44 <= from
    requires from <= to <= |bytes|
    ensures SetField(SetField(bytes, 16, 8, generation), 40, 4, streamId)[from..to] == bytes[from..to]
  {
    OtherOfSet(bytes, 16, 8, generation, from, to);
    OtherOfSet(SetField(bytes, 16, 8, generation), 40, 4, streamId, from, to);
  }

  // ---- Batches ----

  function Flatten(frames: seq<seq<byte>>): seq<byte> {
    if frames == [] then [] else frames[0] + Flatten(frames[1..])
  }

  /** The first error among the frames and the running total, if any. */
  function BatchError(frames: seq<seq<byte>>, total: nat): Option<ErrorCode> {
    if frames == [] then None
    else if Decode(frames[0]).Err? then Some(Decode(frames[0]).error)
    else if total + |frames[0]| > MAX_DATA_BATCH_BYTES then Some(BadLength)
    else BatchError(frames[1..], total + |frames[0]|)
  }

  function EncodeBatch(frames: seq<seq<byte>>): Result<seq<byte>> {
    if |frames| == 0 || |frames| > MAX_DATA_BATCH_FRAMES then Err(BadLength)
    else if BatchError(frames, 0).Some? then Err(BatchError(frames, 0).value)
    else Ok(Flatten(frames))
  }

  /** The frames of bytes, of which `count` were found before. */
  function Split(bytes: seq<byte>, count: nat): Result<seq<seq<byte>>>
    decreases |bytes|
  {
    if bytes == [] then Ok([])
    else if count >= MAX_DATA_BATCH_FRAMES || |bytes| < DATA_HEADER_BYTES then Err(BadLength)
    else
      var length := Field(bytes, 44, 4);
      if length > MAX_DATA_PAYLOAD_BYTES || DATA_HEADER_BYTES + length > |bytes| then Err(BadLength)
      else
        var first := bytes[..DATA_HEADER_BYTES + length];
        if Decode(first).Err? then Err(Decode(first).error)
        else
          var rest := Split(bytes[DATA_HEADER_BYTES + length..], count + 1);
          if rest.Err? then rest else Ok([first] + rest.value)
  }

  function DecodeBatch(bytes: seq<byte>): Result<seq<seq<byte>>> {
    if bytes == [] || |bytes| > MAX_DATA_BATCH_BYTES then Err(BadLength) else Split(bytes, 0)
  }

  /** The batch limits, and every frame valid on its own. */
  ghost predicate Batch(frames: seq<seq<byte>>) {
    && 1 <= |frames| <= MAX_DATA_BATCH_FRAMES
    && |Flatten(frames)| <= MAX_DATA_BATCH_BYTES
    && forall k :: 0 <= k < |frames| ==> Decode(frames[k]).Ok?
  }

  lemma {:induction false} NoBatchError(frames: seq<seq<byte>>, total: nat)
    requires total <= MAX_DATA_BATCH_BYTES
    ensures BatchError(frames, total).None? <==>
              total + |Flatten(frames)| <= MAX_DATA_BATCH_BYTES
              && forall k :: 0 <= k < |frames| ==> Decode(frames[k]).Ok?
  {
    hide Decode;
    if frames != [] {
      if Decode(frames[0]).Ok? && total + |frames[0]| <= MAX_DATA_BATCH_BYTES {
        NoBatchError(frames[1..], total + |frames[0]|);
        assert forall k :: 0 < k < |frames| ==> frames[k] == frames[1..][k - 1];
      }
    }
  }

  /** A batch is encoded exactly when it is within its limits, whatever the order of the checks. */
  lemma EncodesBatch(frames: seq<seq<byte>>)
    ensures EncodeBatch(frames).Ok? <==> Batch(frames)
  {
    NoBatchError(frames, 0);
  }

  lemma FrameLength(first: seq<byte>, rest: seq<byte>)
    requires Decode(first).Ok?
    ensures var bytes := first + rest;
            |bytes| >= DATA_HEADER_BYTES && |first| == DATA_HEADER_BYTES + Field(bytes, 44, 4)
    ensures Field(first + rest, 44, 4) <= MAX_DATA_PAYLOAD_BYTES
  {
    assert (first + rest)[44..48] == first[44..48];
    hide FromLittle;
  }

  lemma {:induction false} SplitOfFlatten(frames: seq<seq<byte>>, count: nat)
    requires count + |frames| <= MAX_DATA_BATCH_FRAMES
    requires forall k :: 0 <= k < |frames| ==> Decode(frames[k]).Ok?
    ensures Split(Flatten(frames), count) == Ok(frames)
  {
    if frames != [] {
      var rest := Flatten(frames[1..]);
      FrameLength(frames[0], rest);
      hide Decode;
      SplitOfFlatten(frames[1..], count + 1);
      var bytes := frames[0] + rest;
      assert bytes[..|frames[0]|] == frames[0] && bytes[|frames[0]|..] == rest;
      assert frames == [frames[0]] + frames[1..];
    }
  }

  lemma {:induction false} FlattenOfSplit(bytes: seq<byte>, count: nat)
    requires Split(bytes, count).Ok? && count <= MAX_DATA_BATCH_FRAMES
    ensures var frames := Split(bytes, count).value;
            && Flatten(frames) == bytes && count + |frames| <= MAX_DATA_BATCH_FRAMES
            && forall k :: 0 <= k < |frames| ==> Decode(frames[k]).Ok?
    decreases |bytes|
  {
    hide Decode;
    if bytes != [] {
      var cut := DATA_HEADER_BYTES + Field(bytes, 44, 4);
      FlattenOfSplit(bytes[cut..], count + 1);
      var rest := Split(bytes[cut..], count + 1).value;
      var frames := Split(bytes, count).value;
      assert frames == [bytes[..cut]] + rest && frames[1..] == rest;
      assert bytes == bytes[..cut] + bytes[cut..];
    }
  }

  /** An encoded batch decodes to the very frames it was made of. */
  lemma DecodeOfEncodeBatch(frames: seq<seq<byte>>)
    requires EncodeBatch(frames).Ok?
    ensures DecodeBatch(EncodeBatch(frames).value) == Ok(frames)
  {
    EncodesBatch(frames);
    assert |frames[0]| >= DATA_HEADER_BYTES;
    hide Decode, Split, BatchError;
    SplitOfFlatten(frames, 0);
  }

  /** Whatever is accepted as a batch is the encoding of its frames. */
  lemma EncodeOfDecodeBatch(bytes: seq<byte>)
    requires DecodeBatch(bytes).Ok?
    ensures EncodeBatch(DecodeBatch(bytes).value) == Ok(bytes)
  {
    FlattenOfSplit(bytes, 0);
    EncodesBatch(DecodeBatch(bytes).value);
    hide Decode, Split, BatchError;
  }

  // ---- Resize payloads ----

  datatype ResizePayload = ResizePayload(cols: int, rows: int, widthPx: int, heightPx: int)

  function EncodeResize(r: ResizePayload): Result<seq<byte>> {
    if !InU32(r.cols) || !InU32(r.rows) || !InU32(r.widthPx) || !InU32(r.heightPx) then Err(OutOfRange)
    else if r.cols == 0 || r.rows == 0 then Err(BadPayload)
    else Ok(Little(r.cols, 4) + Little(r.rows, 4) + Little(r.widthPx, 4) + Little(r.heightPx, 4))
  }

  function DecodeResize(payload: seq<byte>): Result<ResizePayload> {
    if |payload| != 16 then Err(BadPayload)
    else
      var r := ResizePayload(Field(payload, 0, 4), Field(payload, 4, 4), Field(payload, 8, 4), Field(payload, 12, 4));
      if r.cols == 0 || r.rows == 0 then Err(BadPayload) else Ok(r)
  }

  lemma DecodeOfEncodeResize(r: ResizePayload)
    requires EncodeResize(r).Ok?
    ensures DecodeResize(EncodeResize(r).value) == Ok(r)
  {
    Rooms();
    var b := EncodeResize(r).value;
    assert b[0..4] == Little(r.cols, 4) && b[4..8] == Little(r.rows, 4);
    assert b[8..12] == Little(r.widthPx, 4) && b[12..16] == Little(r.heightPx, 4);
    LittleInverse(r.cols, 4);
    LittleInverse(r.rows, 4);
    LittleInverse(r.widthPx, 4);
    LittleInverse(r.heightPx, 4);
    hide Little, FromLittle, Room;
  }

  lemma EncodeOfDecodeResize(payload: seq<byte>)
    requires DecodeResize(payload).Ok?
    ensures EncodeResize(DecodeResize(payload).value) == Ok(payload)
  {
    hide Little, FromLittle, Room;
    Rooms();
    FromLittleInverse(payload[0..4]);
    FromLittleInverse(payload[4..8]);
    FromLittleInverse(payload[8..12]);
    FromLittleInverse(payload[12..16]);
    assert payload == payload[0..4] + payload[4..8] + payload[8..12] + payload[12..16];
  }
}
