/** The codec as it works on buffers: fields written in place, batches walked by offset. */
module DataFrameBuffers {
  import opened Collections
  import opened DataFrames

  /** `view.setUint(at, value, true)` for a field of `width` bytes. */
  method SetUint(view: array<byte>, at: nat, width: nat, value: nat)
    requires at + width <= view.Length
    modifies view
    ensures view[..] == SetField(old(view[..]), at, width, value)
  {
    var rest := value;
    ghost var was := view[..];
    for i := 0 to width
      invariant rest >= 0
      invariant view[..at + i] + Little(rest, width - i) == was[..at] + Little(value, width)
      invariant view[at + i..] == was[at + i..]
    {
      ghost var before := view[..at + i];
      view[at + i] := rest % 256;
      rest := rest / 256;
      assert view[..at + i + 1] == before + [view[at + i]];
      assert before + [view[at + i]] + Little(rest, width - i - 1)
          == before + ([view[at + i]] + Little(rest, width - i - 1));
    }
    assert view[..] == view[..at + width] + view[at + width..];
  }

  /** `target.set(source, at)`. */
  method SetBytes(target: array<byte>, at: nat, source: seq<byte>)
    requires at + |source| <= target.Length
    modifies target
    ensures target[..] == old(target[..at]) + source + old(target[at + |source|..])
  {
    for i := 0 to |source|
      invariant target[..at + i] == old(target[..at]) + source[..i]
      invariant target[at + i..] == old(target[at + i..])
    {
      ghost var before := target[..at + i];
      target[at + i] := source[i];
      assert target[..at + i + 1] == before + [source[i]];
      assert source[..i + 1] == source[..i] + [source[i]];
    }
    assert target[..] == target[..at + |source|] + target[at + |source|..];
    assert source[..|source|] == source;
  }

  /** The state of the buffer while a header is written: the first n bytes are in place. */
  ghost predicate Written(encoded: array<byte>, f: Frame, n: nat)
    reads encoded
    requires Encode(f).Ok?
  {
    n <= encoded.Length == |Encode(f).value| && encoded[..n] == Encode(f).value[..n]
  }

  method PutField(encoded: array<byte>, f: Frame, at: nat, width: nat, value: nat)
    requires Encode(f).Ok? && at + width <= DATA_HEADER_BYTES && Written(encoded, f, at)
    requires Encode(f).value[at..at + width] == Little(value, width)
    modifies encoded
    ensures Written(encoded, f, at + width)
  {
    HeaderFields(f);
    hide Encode;
    SetUint(encoded, at, width, value);
    assert encoded[..at + width] == encoded[..][..at + width];
    assert encoded[..at + width] == old(encoded[..at]) + Little(value, width);
    assert Encode(f).value[..at + width] == Encode(f).value[..at] + Encode(f).value[at..at + width];
  }

  /** Magic, version and kind. */
  method PutPreamble(encoded: array<byte>, f: Frame)
    requires Encode(f).Ok? && encoded.Length == |Encode(f).value|
    modifies encoded
    ensures Written(encoded, f, 6)
  {
    HeaderFields(f);
    hide Encode, Little;
    SetBytes(encoded, 0, DATA_MAGIC);
    assert encoded[..4] == DATA_MAGIC;
    encoded[4] := DATA_PROTOCOL_VERSION;
    encoded[5] := f.kind;
    assert encoded[..4] == DATA_MAGIC;
    ghost var b := Encode(f).value;
    assert encoded[..6] == encoded[..4] + [encoded[4], encoded[5]];
    assert b[..6] == b[..4] + [b[4], b[5]];
  }

  /** The 48 bytes of the header, field by field. */
  method PutHeader(encoded: array<byte>, f: Frame)
    requires Encode(f).Ok? && encoded.Length == |Encode(f).value|
    modifies encoded
    ensures Written(encoded, f, DATA_HEADER_BYTES)
  {
    HeaderFields(f);
    hide Encode, Little;
    PutPreamble(encoded, f);
    PutField(encoded, f, 6, 2, f.flags);
    PutField(encoded, f, 8, 8, f.sessionEpoch);
    PutField(encoded, f, 16, 8, f.deliveryGeneration);
    PutField(encoded, f, 24, 8, f.eventSeq);
    PutField(encoded, f, 32, 8, f.ptyOffset);
    PutField(encoded, f, 40, 4, f.streamId);
    PutField(encoded, f, 44, 4, |f.payload|);
  }

  method EncodeDataFrame(f: Frame) returns (error: Option<ErrorCode>, encoded: array<byte>)
    ensures fresh(encoded)
    ensures if error.None? then Encode(f) == Ok(encoded[..]) else Encode(f) == Err(error.value)
  {
    encoded := new byte[0];
    if !ValidKind(f.kind) { return Some(BadKind), encoded; }
    if !(0 <= f.flags < U16) { return Some(OutOfRange), encoded; }
    if f.flags != 0 { return Some(BadFlags), encoded; }
    if !InU64(f.sessionEpoch) || !InU64(f.deliveryGeneration) || !InU64(f.eventSeq) || !InU64(f.ptyOffset)
       || !InU32(f.streamId) {
      return Some(OutOfRange), encoded;
    }
    if |f.payload| > MAX_DATA_PAYLOAD_BYTES { return Some(BadLength), encoded; }
    error, encoded := None, new byte[DATA_HEADER_BYTES + |f.payload|];
    HeaderFields(f);
    hide Encode, Little;
    PutHeader(encoded, f);
    ghost var header := encoded[..48];
    SetBytes(encoded, DATA_HEADER_BYTES, f.payload);
    assert encoded[..] == header + f.payload;
    assert Encode(f).value == Encode(f).value[..48] + Encode(f).value[48..];
  }

  method RewriteDelivery(encoded: seq<byte>, generation: int, streamId: int)
    returns (error: Option<ErrorCode>, rewritten: array<byte>)
    ensures fresh(rewritten)
    ensures if error.None? then Rewrite(encoded, generation, streamId) == Ok(rewritten[..])
            else Rewrite(encoded, generation, streamId) == Err(error.value)
  {
    rewritten := new byte[0];
    if !InU64(generation) || !InU32(streamId) { return Some(OutOfRange), rewritten; }
    var decoded := Decode(encoded);
    if decoded.Err? { return Some(decoded.error), rewritten; }
    error, rewritten := None, new byte[|encoded|];
    SetBytes(rewritten, 0, encoded);
    assert rewritten[..] == encoded;
    SetUint(rewritten, 16, 8, generation);
    SetUint(rewritten, 40, 4, streamId);
  }

  method CheckBatch(frames: seq<seq<byte>>) returns (error: Option<ErrorCode>, totalBytes: nat)
    ensures error == BatchError(frames, 0)
    ensures error.None? ==> totalBytes == |Flatten(frames)|
  {
    hide Decode;
    totalBytes := 0;
    for i := 0 to |frames|
      invariant totalBytes <= MAX_DATA_BATCH_BYTES
      invariant totalBytes + |Flatten(frames[i..])| == |Flatten(frames)|
      invariant BatchError(frames, 0) == BatchError(frames[i..], totalBytes)
    {
      assert frames[i..][1..] == frames[i + 1..];
      var decoded := Decode(frames[i]);
      if decoded.Err? { return Some(decoded.error), totalBytes; }
      if totalBytes + |frames[i]| > MAX_DATA_BATCH_BYTES { return Some(BadLength), totalBytes; }
      totalBytes := totalBytes + |frames[i]|;
    }
    assert frames[|frames|..] == [];
    error := None;
  }

  method Concatenate(frames: seq<seq<byte>>, totalBytes: nat) returns (encoded: array<byte>)
    requires totalBytes == |Flatten(frames)|
    ensures fresh(encoded) && encoded[..] == Flatten(frames)
  {
    encoded := new byte[totalBytes];
    var offset := 0;
    for i := 0 to |frames|
      invariant 0 <= offset && offset + |Flatten(frames[i..])| == encoded.Length
      invariant encoded[..offset] + Flatten(frames[i..]) == Flatten(frames)
    {
      assert frames[i..][1..] == frames[i + 1..];
      ghost var before := encoded[..offset];
      SetBytes(encoded, offset, frames[i]);
      assert encoded[..offset + |frames[i]|] == before + frames[i];
      offset := offset + |frames[i]|;
    }
    assert frames[|frames|..] == [] && encoded[..offset] == encoded[..];
  }

  method EncodeDataFrameBatch(frames: seq<seq<byte>>) returns (error: Option<ErrorCode>, encoded: array<byte>)
    ensures fresh(encoded)
    ensures if error.None? then EncodeBatch(frames) == Ok(encoded[..]) else EncodeBatch(frames) == Err(error.value)
  {
    hide BatchError, Flatten;
    encoded := new byte[0];
    if |frames| == 0 || |frames| > MAX_DATA_BATCH_FRAMES { return Some(BadLength), encoded; }
    var totalBytes;
    error, totalBytes := CheckBatch(frames);
    if error.Some? { return; }
    encoded := Concatenate(frames, totalBytes);
  }

  /** One step of splitting a batch. */
  lemma SplitNext(rest: seq<byte>, count: nat)
    requires rest != []
    ensures var cut := if |rest| < DATA_HEADER_BYTES then 0 else DATA_HEADER_BYTES + Field(rest, 44, 4);
            Split(rest, count) ==
              if count >= MAX_DATA_BATCH_FRAMES || |rest| < DATA_HEADER_BYTES then Err(BadLength)
              else if Field(rest, 44, 4) > MAX_DATA_PAYLOAD_BYTES || cut > |rest| then Err(BadLength)
              else if Decode(rest[..cut]).Err? then Err(Decode(rest[..cut]).error)
              else Prepend([rest[..cut]], Split(rest[cut..], count + 1))
  {
    hide Decode;
  }

  method NextEntry(rest: seq<byte>, count: nat) returns (entry: Result<seq<byte>>)
    requires rest != []
    ensures entry.Err? ==> Split(rest, count) == Err(entry.error)
    ensures entry.Ok? ==>
              && 0 < |entry.value| <= |rest| && entry.value == rest[..|entry.value|]
              && Split(rest, count) == Prepend([entry.value], Split(rest[|entry.value|..], count + 1))
  {
    SplitNext(rest, count);
    hide Decode, Split, FromLittle, Prepend;
    if count >= MAX_DATA_BATCH_FRAMES || |rest| < DATA_HEADER_BYTES { return Err(BadLength); }
    var payloadLength := Field(rest, 44, 4);
    var frameLength := DATA_HEADER_BYTES + payloadLength;
    if payloadLength > MAX_DATA_PAYLOAD_BYTES || frameLength > |rest| { return Err(BadLength); }
    var logical := rest[..frameLength];
    var decoded := Decode(logical);
    if decoded.Err? { return Err(decoded.error); }
    return Ok(logical);
  }

  method DecodeDataFrameBatchEntries(bytes: seq<byte>) returns (r: Result<seq<seq<byte>>>)
    ensures r == DecodeBatch(bytes)
  {
    if bytes == [] || |bytes| > MAX_DATA_BATCH_BYTES { return Err(BadLength); }
    hide Split, Prepend;
    var entries: seq<seq<byte>> := [];
    var offset := 0;
    assert bytes[0..] == bytes;
    PrependNothing(Split(bytes, 0));
    while offset < |bytes|
      invariant 0 <= offset <= |bytes|
      invariant Split(bytes, 0) == Prepend(entries, Split(bytes[offset..], |entries|))
    {
      ghost var rest := bytes[offset..];
      var entry := NextEntry(bytes[offset..], |entries|);
      if entry.Err? {
        PrependError(entries, entry.error);
        return Err(entry.error);
      }
      assert rest[|entry.value|..] == bytes[offset + |entry.value|..];
      PrependMore(entries, entry.value, Split(rest[|entry.value|..], |entries| + 1));
      entries := entries + [entry.value];
      offset := offset + |entry.value|;
    }
    assert bytes[offset..] == [];
    SplitEmpty(|entries|);
    PrependToNothing(entries);
    r := Ok(entries);
  }

  lemma PrependError(entries: seq<seq<byte>>, error: ErrorCode)
    ensures Prepend(entries, Err(error)) == Err(error)
  {
  }

  lemma SplitEmpty(count: nat)
    ensures Split([], count) == Ok([])
  {
  }

  lemma PrependNothing(rest: Result<seq<seq<byte>>>)
    ensures Prepend([], rest) == rest
  {
    if rest.Ok? { assert [] + rest.value == rest.value; }
  }

  lemma PrependToNothing(entries: seq<seq<byte>>)
    ensures Prepend(entries, Ok([])) == Ok(entries)
  {
    assert entries + [] == entries;
  }

  function Prepend(entries: seq<seq<byte>>, rest: Result<seq<seq<byte>>>): Result<seq<seq<byte>>> {
    if rest.Err? then rest else Ok(entries + rest.value)
  }

  lemma PrependMore(entries: seq<seq<byte>>, entry: seq<byte>, rest: Result<seq<seq<byte>>>)
    ensures Prepend(entries, Prepend([entry], rest)) == Prepend(entries + [entry], rest)
  {
    if rest.Ok? { assert entries + ([entry] + rest.value) == (entries + [entry]) + rest.value; }
  }
}
