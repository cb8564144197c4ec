/** The Host's journal: a segmented suffix of the canonical history, pruned by age and by size.

    `history` is every frame ever appended. `Valid` ties the segments to it, so that what a replay returns
    is stated against the whole history, whatever has been evicted since. */
module Journals {
  import opened Collections
  import opened DataFrames

  datatype Cursor = Cursor(lastEventSeq: int, nextPtyOffset: int)

  datatype Entry = Entry(eventSeq: int, frame: seq<byte>, nextPtyOffset: int)

  datatype Segment = Segment(byteLength: nat, createdAt: int, entries: seq<Entry>, sealed: bool)

  datatype Refusal = Undecodable | NotCanonical | NotNeutral | EventSeqGap | PtyGap | EpochMixed

  function EntryBytes(entries: seq<Entry>): nat {
    if entries == [] then 0 else EntryBytes(entries[..|entries| - 1]) + |entries[|entries| - 1].frame|
  }

  function Flat(segments: seq<Segment>): seq<Entry> {
    if segments == [] then [] else segments[0].entries + Flat(segments[1..])
  }

  function Bytes(segments: seq<Segment>): nat {
    if segments == [] then 0 else segments[0].byteLength + Bytes(segments[1..])
  }

  /** The PTY offset after the first n events of a history. */
  function OffsetAt(history: seq<Entry>, n: nat): int
    requires n <= |history|
  {
    if n == 0 then 0 else history[n - 1].nextPtyOffset
  }

  ghost predicate Numbered(history: seq<Entry>) {
    forall i :: 0 <= i < |history| ==> history[i].eventSeq == i + 1
  }

  ghost predicate Segmented(segments: seq<Segment>) {
    && (forall i :: 0 <= i < |segments| ==>
          segments[i].entries != [] && segments[i].byteLength == EntryBytes(segments[i].entries))
    && (forall i :: 0 <= i < |segments| - 1 ==> segments[i].sealed)
  }

  lemma {:induction false} FlatAppend(segments: seq<Segment>, s: Segment)
    ensures Flat(segments + [s]) == Flat(segments) + s.entries
    ensures Bytes(segments + [s]) == Bytes(segments) + s.byteLength
  {
    if segments == [] {
      assert segments + [s] == [s] && Flat([s]) == s.entries + Flat([]);
    } else {
      FlatAppend(segments[1..], s);
      assert (segments + [s])[1..] == segments[1..] + [s] && (segments + [s])[0] == segments[0];
      assert segments[0].entries + (Flat(segments[1..]) + s.entries)
             == (segments[0].entries + Flat(segments[1..])) + s.entries;
    }
  }

  /** Which oldest segments a prune at `now` takes: each is sealed, and too old or still in excess. */
  function Pruned(segments: seq<Segment>, now: int, maxAgeMs: int, maxBytes: int): nat {
    if segments == [] || !segments[0].sealed
       || !(now - segments[0].createdAt > maxAgeMs || Bytes(segments) > maxBytes) then 0
    else 1 + Pruned(segments[1..], now, maxAgeMs, maxBytes)
  }

  lemma PrunedNext(segments: seq<Segment>, now: int, maxAgeMs: int, maxBytes: int)
    ensures Pruned(segments, now, maxAgeMs, maxBytes) ==
            if segments != [] && segments[0].sealed
              && (now - segments[0].createdAt > maxAgeMs || Bytes(segments) > maxBytes)
            then 1 + Pruned(segments[1..], now, maxAgeMs, maxBytes) else 0
  {
  }

  lemma {:induction false} PrunedBounds(segments: seq<Segment>, now: int, maxAgeMs: int, maxBytes: int)
    ensures var n := Pruned(segments, now, maxAgeMs, maxBytes);
            && n <= |segments|
            && (forall i :: 0 <= i < n ==> segments[i].sealed)
            && ((forall i :: 0 <= i < |segments| ==> segments[i].sealed) ==>
                  n == |segments| || Bytes(segments[n..]) <= maxBytes)
  {
    var n := Pruned(segments, now, maxAgeMs, maxBytes);
    if n > 0 {
      PrunedBounds(segments[1..], now, maxAgeMs, maxBytes);
      assert segments[1..][n - 1..] == segments[n..];
      forall i | 0 <= i < n ensures segments[i].sealed {
        if i > 0 { assert segments[1..][i - 1] == segments[i]; }
      }
    } else {
      assert segments[0..] == segments;
    }
  }

  ghost predicate OneEpoch(history: seq<Entry>, sessionEpoch: Option<int>) {
    forall i :: 0 <= i < |history| ==>
      Decode(history[i].frame).Ok? && sessionEpoch == Some(Decode(history[i].frame).value.sessionEpoch)
  }

  /** The cursors and segments are those of the history. */
  ghost predicate KeptOf(history: seq<Entry>, head: Cursor, evicted: Cursor, segments: seq<Segment>, totalBytes: int,
                         sessionEpoch: Option<int>)
  {
    && Numbered(history) && head == Cursor(|history|, OffsetAt(history, |history|))
    && 0 <= evicted.lastEventSeq <= |history| && evicted.nextPtyOffset == OffsetAt(history, evicted.lastEventSeq)
    && Flat(segments) == history[evicted.lastEventSeq..]
    && Segmented(segments) && totalBytes == Bytes(segments)
    && OneEpoch(history, sessionEpoch)
  }

  lemma KeptBytes(history: seq<Entry>, head: Cursor, evicted: Cursor, segments: seq<Segment>, totalBytes: int,
                  sessionEpoch: Option<int>)
    requires KeptOf(history, head, evicted, segments, totalBytes, sessionEpoch)
    ensures totalBytes == Bytes(segments) && Segmented(segments)
  {
  }

  lemma DroppedKept(history: seq<Entry>, head: Cursor, evicted: Cursor, segments: seq<Segment>, totalBytes: int,
                    sessionEpoch: Option<int>)
    requires KeptOf(history, head, evicted, segments, totalBytes, sessionEpoch) && segments != []
    ensures segments[0].entries != [] && totalBytes == Bytes(segments)
    ensures var last := segments[0].entries[|segments[0].entries| - 1];
            KeptOf(history, head, Cursor(last.eventSeq, last.nextPtyOffset), segments[1..],
                   totalBytes - segments[0].byteLength, sessionEpoch)
  {
    DropKeeps(segments, history, evicted.lastEventSeq);
    hide Flat, OneEpoch;
  }

  lemma PushedKept(history: seq<Entry>, head: Cursor, evicted: Cursor, segments: seq<Segment>, totalBytes: int,
                   sessionEpoch: Option<int>, grown: seq<Segment>, entry: Entry)
    requires KeptOf(history, head, evicted, segments, totalBytes, sessionEpoch)
    requires Segmented(grown) && Flat(grown) == Flat(segments) + [entry]
             && Bytes(grown) == Bytes(segments) + |entry.frame|
    requires entry.eventSeq == |history| + 1
    requires Decode(entry.frame).Ok? && sessionEpoch == Some(Decode(entry.frame).value.sessionEpoch)
    ensures KeptOf(history + [entry], Cursor(entry.eventSeq, entry.nextPtyOffset), evicted, grown,
                   totalBytes + |entry.frame|, sessionEpoch)
  {
    hide Flat, Bytes, Segmented, Decode;
    SuffixAppend(history, evicted.lastEventSeq, entry);
  }

  class EventJournal {
    const maxAgeMs: int
    const maxBytes: int
    const segmentAgeMs: int
    const segmentBytes: int
    var segments: seq<Segment>
    var evictedCursor: Cursor
    var headCursor: Cursor
    var sessionEpoch: Option<int>
    var totalBytes: int
    ghost var history: seq<Entry>

    ghost predicate Kept()
      reads this
    {
      KeptOf(history, headCursor, evictedCursor, segments, totalBytes, sessionEpoch)
    }

    ghost predicate Valid()
      reads this
    {
      Kept() && maxBytes > 0 && totalBytes <= maxBytes
    }

    constructor (maxAgeMs: int, maxBytes: int, segmentAgeMs: int, segmentBytes: int)
      requires maxAgeMs > 0 && maxBytes > 0 && segmentAgeMs > 0 && segmentBytes > 0
      ensures Valid() && history == []
    {
      this.maxAgeMs, this.maxBytes, this.segmentAgeMs, this.segmentBytes :=
        maxAgeMs, maxBytes, segmentAgeMs, segmentBytes;
      segments, evictedCursor, headCursor := [], Cursor(0, 0), Cursor(0, 0);
      sessionEpoch, totalBytes, history := None, 0, [];
    }

    method SealAgedActive(now: int)
      requires Kept()
      modifies this`segments
      ensures Kept()
      ensures segments == old(segments) || (old(segments) != [] && segments == Sealing(old(segments)))
    {
      if |segments| == 0 { return; }
      var active := segments[|segments| - 1];
      if !active.sealed && now - active.createdAt >= segmentAgeMs {
        SealingKeeps(segments);
        segments := segments[|segments| - 1 := active.(sealed := true)];
      }
    }

    /** Eviction: whole segments, oldest first, each of them sealed, and exactly as many as the limits ask. */
    method Prune(now: int)
      requires Kept()
      modifies this`segments, this`totalBytes, this`evictedCursor
      ensures Kept()
      ensures var n := Pruned(old(segments), now, maxAgeMs, maxBytes);
              && n <= |old(segments)| && segments == old(segments)[n..]
              && forall i :: 0 <= i < n ==> old(segments)[i].sealed
    {
      hide KeptOf, Flat, Bytes, Segmented, Pruned;
      ghost var taken := 0;
      PrunedBounds(segments, now, maxAgeMs, maxBytes);
      KeptBytes(history, headCursor, evictedCursor, segments, totalBytes, sessionEpoch);
      while |segments| > 0
        invariant Kept() && totalBytes == Bytes(segments)
        invariant 0 <= taken <= |old(segments)| && segments == old(segments)[taken..]
        invariant Pruned(old(segments), now, maxAgeMs, maxBytes) == taken + Pruned(segments, now, maxAgeMs, maxBytes)
        decreases |segments|
      {
        var oldest := segments[0];
        PrunedNext(segments, now, maxAgeMs, maxBytes);
        var overAge := now - oldest.createdAt > maxAgeMs;
        var overBytes := totalBytes > maxBytes;
        if !oldest.sealed || (!overAge && !overBytes) { break; }
        DroppedKept(history, headCursor, evictedCursor, segments, totalBytes, sessionEpoch);
        segments := segments[1..];
        totalBytes := totalBytes - oldest.byteLength;
        var last := oldest.entries[|oldest.entries| - 1];
        evictedCursor := Cursor(last.eventSeq, last.nextPtyOffset);
        KeptBytes(history, headCursor, evictedCursor, segments, totalBytes, sessionEpoch);
        taken := taken + 1;
      }
      PrunedNext(segments, now, maxAgeMs, maxBytes);
    }

    method Maintain(now: int)
      requires Valid()
      modifies this`segments, this`totalBytes, this`evictedCursor
      ensures Valid() && old(evictedCursor.lastEventSeq) <= evictedCursor.lastEventSeq
    {
      SealAgedActive(now);
      ghost var before := segments;
      Prune(now);
      BytesOfSuffix(before, Pruned(before, now, maxAgeMs, maxBytes));
      FlatOfSuffix(before, Pruned(before, now, maxAgeMs, maxBytes));
    }

    /** Why a frame is refused; the first reason that applies. */
    function Refused(encoded: seq<byte>): Option<Refusal>
      reads this`headCursor, this`sessionEpoch
    {
      var decoded := Decode(encoded);
      if decoded.Err? then Some(Undecodable)
      else
        var f := decoded.value;
        if f.kind != PTY_OUTPUT && f.kind != RESIZE_APPLIED then Some(NotCanonical)
        else if f.deliveryGeneration != 0 || f.streamId != 0 then Some(NotNeutral)
        else if f.eventSeq != headCursor.lastEventSeq + 1 then Some(EventSeqGap)
        else if f.ptyOffset != headCursor.nextPtyOffset then Some(PtyGap)
        else if sessionEpoch.Some? && f.sessionEpoch != sessionEpoch.value then Some(EpochMixed)
        else None
    }

    /** An accepted frame becomes the head of the history, and the journal stays within its bytes, even if
        the frame alone is larger than they are. */
    method Append(encoded: seq<byte>, now: int) returns (refusal: Option<Refusal>)
      requires Valid()
      modifies this
      ensures Valid() && refusal == old(Refused(encoded))
      ensures refusal.Some? ==> history == old(history) && segments == old(segments)
      ensures refusal.None? ==> history == old(history) + [EntryOf(encoded)]
      ensures old(evictedCursor.lastEventSeq) <= evictedCursor.lastEventSeq
    {
      refusal := Refused(encoded);
      if refusal.Some? { return; }
      if sessionEpoch.None? { sessionEpoch := Some(Decode(encoded).value.sessionEpoch); }
      hide Decode;
      SealAgedActive(now);
      Push(encoded, now);
      ghost var before := segments;
      PrunedBounds(before, now, maxAgeMs, maxBytes);
      Prune(now);
      BytesOfSuffix(before, Pruned(before, now, maxAgeMs, maxBytes));
      FlatOfSuffix(before, Pruned(before, now, maxAgeMs, maxBytes));
    }

    /** The frame joins the active segment, or a new one, which is sealed if it or the journal is full. */
    method Push(encoded: seq<byte>, now: int)
      requires Kept() && Decode(encoded).Ok? && maxBytes > 0
      requires EntryOf(encoded).eventSeq == |history| + 1 && EntryOf(encoded).frame == encoded
      requires sessionEpoch == Some(Decode(encoded).value.sessionEpoch)
      modifies this`segments, this`totalBytes, this`headCursor, this`history
      ensures Kept() && history == old(history) + [EntryOf(encoded)]
      ensures totalBytes > maxBytes ==> forall i :: 0 <= i < |segments| ==> segments[i].sealed
    {
      hide Decode, KeptOf, Segmented, Flat, Bytes, EntryOf, Grown;
      KeptBytes(history, headCursor, evictedCursor, segments, totalBytes, sessionEpoch);
      var entry := EntryOf(encoded);
      var full := totalBytes + |encoded| > maxBytes;
      GrownSegments(segments, entry, now, segmentBytes, full);
      PushedKept(history, headCursor, evictedCursor, segments, totalBytes, sessionEpoch,
                 Grown(segments, entry, now, segmentBytes, full), entry);
      segments := PushEntry(segments, entry, now, segmentBytes, full);
      totalBytes := totalBytes + |encoded|;
      headCursor := Cursor(entry.eventSeq, entry.nextPtyOffset);
      history := history + [entry];
    }

    /** The offset after an event, if it is one of those that are still known. */
    method OffsetAfter(eventSeq: int) returns (offset: Option<int>)
      requires Kept()
      ensures offset
              == if evictedCursor.lastEventSeq <= eventSeq <= |history| then Some(OffsetAt(history, eventSeq)) else None
    {
      hide Decode, Flat, Segmented, Bytes, OneEpoch;
      if eventSeq == evictedCursor.lastEventSeq { return Some(evictedCursor.nextPtyOffset); }
      if eventSeq == headCursor.lastEventSeq { return Some(headCursor.nextPtyOffset); }
      offset := FindIn(segments, history, evictedCursor.lastEventSeq, eventSeq);
    }

    /** A replay is possible exactly from a position that was not evicted to one that was reached, both with
        the offset that the history has there. */
    ghost predicate Replayable(cursor: Cursor, commit: Cursor)
      requires Kept()
      reads this
    {
      && evictedCursor.lastEventSeq <= cursor.lastEventSeq <= commit.lastEventSeq <= |history|
      && cursor.nextPtyOffset == OffsetAt(history, cursor.lastEventSeq)
      && commit.nextPtyOffset == OffsetAt(history, commit.lastEventSeq)
    }

    method ReplayRange(cursor: Cursor, commit: Cursor) returns (replay: Option<seq<seq<byte>>>)
      requires Kept()
      ensures replay.Some? <==> Replayable(cursor, commit)
      ensures replay.Some? ==> replay.value == Frames(history[cursor.lastEventSeq..commit.lastEventSeq])
    {
      hide Decode, Flat, Bytes, Segmented, OneEpoch, Frames, Select;
      if cursor.lastEventSeq < evictedCursor.lastEventSeq || cursor.lastEventSeq > commit.lastEventSeq
         || commit.lastEventSeq > headCursor.lastEventSeq {
        return None;
      }
      var baseOffset := OffsetAfter(cursor.lastEventSeq);
      var commitOffset := OffsetAfter(commit.lastEventSeq);
      if baseOffset.None? || cursor.nextPtyOffset != baseOffset.value || commitOffset.None?
         || commit.nextPtyOffset != commitOffset.value {
        return None;
      }
      var frames := Collect(segments, cursor.lastEventSeq, commit.lastEventSeq);
      ghost var base := evictedCursor.lastEventSeq;
      SelectIsSlice(history, base, |history|, cursor.lastEventSeq, commit.lastEventSeq);
      assert history[base..|history|] == history[base..];
      if |history| <= cursor.lastEventSeq {
        NoFrames();
        assert history[cursor.lastEventSeq..commit.lastEventSeq] == [];
      }
      return Some(frames);
    }

    /** A replay first lets time pass over the journal; then it is of the whole history, or a gap. */
    method ReplayThrough(cursor: Cursor, commit: Cursor, now: int) returns (replay: Option<seq<seq<byte>>>)
      requires Valid()
      modifies this`segments, this`totalBytes, this`evictedCursor
      ensures Valid() && (replay.Some? <==> Replayable(cursor, commit))
      ensures replay.Some? ==> replay.value == Frames(history[cursor.lastEventSeq..commit.lastEventSeq])
    {
      Maintain(now);
      replay := ReplayRange(cursor, commit);
    }

    method ReplayFrom(cursor: Cursor, now: int) returns (replay: Option<seq<seq<byte>>>)
      requires Valid()
      modifies this`segments, this`totalBytes, this`evictedCursor
      ensures Valid() && (replay.Some? <==> Replayable(cursor, headCursor))
      ensures replay.Some? ==> replay.value == Frames(history[cursor.lastEventSeq..])
    {
      Maintain(now);
      replay := ReplayRange(cursor, headCursor);
      if replay.Some? { assert history[cursor.lastEventSeq..|history|] == history[cursor.lastEventSeq..]; }
    }
  }

  /** The entry with this number, among entries numbered from base + 1. */
  method Find(entries: seq<Entry>, eventSeq: int, ghost base: int) returns (offset: Option<int>)
    requires forall j :: 0 <= j < |entries| ==> entries[j].eventSeq == base + j + 1
    ensures offset
            == if base < eventSeq <= base + |entries| then Some(entries[eventSeq - base - 1].nextPtyOffset) else None
  {
    for j := 0 to |entries|
      invariant !(base < eventSeq <= base + j)
    {
      if entries[j].eventSeq == eventSeq { return Some(entries[j].nextPtyOffset); }
    }
    return None;
  }

  lemma FlatNothing()
    ensures Flat([]) == []
  {
  }

  /** The entries from segment i on are the last ones of the history. */
  ghost predicate LastOnes(segments: seq<Segment>, history: seq<Entry>, evicted: nat, i: nat) {
    && i <= |segments| && |Flat(segments[i..])| <= |history| - evicted
    && Flat(segments[i..]) == history[|history| - |Flat(segments[i..])|..]
  }

  function Before(segments: seq<Segment>, history: seq<Entry>, i: nat): int
    requires i <= |segments|
  {
    |history| - |Flat(segments[i..])|
  }

  lemma SegmentEntries(segments: seq<Segment>, history: seq<Entry>, evicted: nat, i: nat)
    requires i < |segments| && Numbered(history) && LastOnes(segments, history, evicted, i)
    ensures var base := Before(segments, history, i); var entries := segments[i].entries;
            && evicted <= base && base + |entries| <= |history|
            && (forall j :: 0 <= j < |entries| ==>
                  entries[j] == history[base + j] && entries[j].eventSeq == base + j + 1)
            && LastOnes(segments, history, evicted, i + 1) && Before(segments, history, i + 1) == base + |entries|
  {
    assert segments[i..][0] == segments[i] && segments[i..][1..] == segments[i + 1..];
    var base := |history| - |Flat(segments[i..])|;
    var entries := segments[i].entries;
    assert Flat(segments[i..]) == entries + Flat(segments[i + 1..]);
    hide Flat;
    forall j | 0 <= j < |entries| ensures entries[j] == history[base + j] {
      assert entries[j] == Flat(segments[i..])[j];
    }
    assert Flat(segments[i + 1..]) == Flat(segments[i..])[|entries|..];
  }

  lemma AllAreLast(segments: seq<Segment>, history: seq<Entry>, evicted: nat)
    requires evicted <= |history| && Flat(segments) == history[evicted..]
    ensures LastOnes(segments, history, evicted, 0) && Before(segments, history, 0) == evicted
    ensures Before(segments, history, |segments|) == |history|
  {
    FlatNothing();
    hide Flat;
    assert segments[0..] == segments && segments[|segments|..] == [];
  }

  method FindIn(segments: seq<Segment>, ghost history: seq<Entry>, ghost evicted: nat, eventSeq: int)
    returns (offset: Option<int>)
    requires evicted <= |history| && Numbered(history) && Flat(segments) == history[evicted..]
    ensures offset == if evicted < eventSeq <= |history| then Some(OffsetAt(history, eventSeq)) else None
  {
    AllAreLast(segments, history, evicted);
    hide Flat, LastOnes, Before, Numbered;
    for i := 0 to |segments|
      invariant LastOnes(segments, history, evicted, i)
      invariant !(evicted < eventSeq <= Before(segments, history, i))
    {
      SegmentEntries(segments, history, evicted, i);
      var found := Find(segments[i].entries, eventSeq, Before(segments, history, i));
      if found.Some? { return found; }
    }
    return None;
  }

  /** The segments once an entry was pushed. */
  function Grown(segments: seq<Segment>, entry: Entry, now: int, segmentBytes: int, full: bool): seq<Segment> {
    var joins := segments != [] && !segments[|segments| - 1].sealed;
    var earlier := if joins then segments[..|segments| - 1] else segments;
    var active := if joins then segments[|segments| - 1] else Segment(0, now, [], false);
    var bytes := active.byteLength + |entry.frame|;
    earlier + [Segment(bytes, active.createdAt, active.entries + [entry],
                       active.sealed || bytes >= segmentBytes || full)]
  }

  method PushEntry(segments: seq<Segment>, entry: Entry, now: int, segmentBytes: int, full: bool)
    returns (pushed: seq<Segment>)
    ensures pushed == Grown(segments, entry, now, segmentBytes, full)
  {
    var earlier, segment := segments, Segment(0, now, [], false);
    if |segments| > 0 && !segments[|segments| - 1].sealed {
      earlier, segment := segments[..|segments| - 1], segments[|segments| - 1];
    }
    segment := segment.(entries := segment.entries + [entry], byteLength := segment.byteLength + |entry.frame|);
    if segment.byteLength >= segmentBytes || full { segment := segment.(sealed := true); }
    pushed := earlier + [segment];
  }

  lemma GrownSegments(segments: seq<Segment>, entry: Entry, now: int, segmentBytes: int, full: bool)
    requires Segmented(segments)
    ensures var grown := Grown(segments, entry, now, segmentBytes, full);
            && Segmented(grown) && Flat(grown) == Flat(segments) + [entry]
               && Bytes(grown) == Bytes(segments) + |entry.frame|
            && (full ==> forall i :: 0 <= i < |grown| ==> grown[i].sealed)
  {
    var joins := segments != [] && !segments[|segments| - 1].sealed;
    var grown := Grown(segments, entry, now, segmentBytes, full);
    if joins {
      ActiveSplits(segments);
      hide Segmented, Flat, Bytes;
      GrownKeeps(segments[..|segments| - 1], segments[|segments| - 1], grown[|grown| - 1], entry);
    } else {
      assert Flat(segments) + [] == Flat(segments);
      hide Segmented, Flat, Bytes;
      GrownKeeps(segments, Segment(0, now, [], false), grown[|grown| - 1], entry);
    }
  }

  /** An entry joins the active segment, which may be a new and still empty one. */
  lemma GrownKeeps(earlier: seq<Segment>, active: Segment, grown: Segment, entry: Entry)
    requires Segmented(earlier) && (earlier == [] || earlier[|earlier| - 1].sealed)
    requires active.byteLength == EntryBytes(active.entries)
    requires grown == active.(entries := active.entries + [entry], byteLength := active.byteLength + |entry.frame|,
                              sealed := grown.sealed)
    ensures Segmented(earlier + [grown])
    ensures Flat(earlier + [grown]) == (Flat(earlier) + active.entries) + [entry]
    ensures Bytes(earlier + [grown]) == Bytes(earlier) + active.byteLength + |entry.frame|
    ensures grown.sealed ==> forall i :: 0 <= i < |earlier + [grown]| ==> (earlier + [grown])[i].sealed
  {
    assert (active.entries + [entry])[..|active.entries|] == active.entries;
    FlatAppend(earlier, grown);
    hide Flat, Bytes;
  }

  lemma ActiveSplits(segments: seq<Segment>)
    requires segments != [] && Segmented(segments)
    ensures segments[|segments| - 1].entries != []
    ensures var earlier, active := segments[..|segments| - 1], segments[|segments| - 1];
            && Segmented(earlier) && (earlier == [] || earlier[|earlier| - 1].sealed)
            && Flat(segments) == Flat(earlier) + active.entries && Bytes(segments) == Bytes(earlier) + active.byteLength
            && active.byteLength == EntryBytes(active.entries)
  {
    var earlier, active := segments[..|segments| - 1], segments[|segments| - 1];
    assert segments == earlier + [active];
    FlatAppend(earlier, active);
    hide Flat, Bytes, EntryBytes;
    assert forall i :: 0 <= i < |earlier| ==> earlier[i] == segments[i];
  }

  function EntryOf(encoded: seq<byte>): Entry {
    var decoded := Decode(encoded);
    if decoded.Err? then Entry(0, encoded, 0)
    else
      var f := decoded.value;
      Entry(f.eventSeq, encoded, if f.kind == PTY_OUTPUT then f.ptyOffset + |f.payload| else f.ptyOffset)
  }

  lemma SuffixAppend(history: seq<Entry>, from: nat, entry: Entry)
    requires from <= |history|
    ensures (history + [entry])[from..] == history[from..] + [entry]
  {
  }

  function Frames(entries: seq<Entry>): seq<seq<byte>> {
    seq(|entries|, i requires 0 <= i < |entries| => entries[i].frame)
  }

  /** The frames of the entries after c and up to k. */
  function Select(entries: seq<Entry>, c: int, k: int): seq<seq<byte>> {
    if entries == [] then []
    else
      var last := entries[|entries| - 1];
      Select(entries[..|entries| - 1], c, k) + if c < last.eventSeq <= k then [last.frame] else []
  }

  /** The frames of every segment, filtered in order. */
  method Collect(segments: seq<Segment>, c: int, k: int) returns (frames: seq<seq<byte>>)
    ensures frames == Select(Flat(segments), c, k)
  {
    hide Select, Flat;
    frames := [];
    FlatNothing();
    assert Select([], c, k) == [] by { SelectNothing(c, k); }
    assert segments[..0] == [];
    for i := 0 to |segments|
      invariant frames == Select(Flat(segments[..i]), c, k)
    {
      assert segments[..i + 1] == segments[..i] + [segments[i]];
      FlatAppend(segments[..i], segments[i]);
      frames := SelectMore(frames, Flat(segments[..i]), segments[i].entries, c, k);
    }
    assert segments[..|segments|] == segments;
  }

  lemma SelectNothing(c: int, k: int)
    ensures Select([], c, k) == []
  {
  }

  method SelectMore(frames: seq<seq<byte>>, ghost before: seq<Entry>, entries: seq<Entry>, c: int, k: int)
    returns (all: seq<seq<byte>>)
    requires frames == Select(before, c, k)
    ensures all == Select(before + entries, c, k)
  {
    all := frames;
    assert before + entries[..0] == before;
    for j := 0 to |entries|
      invariant all == Select(before + entries[..j], c, k)
    {
      assert (before + entries[..j + 1])[..|before| + j] == before + entries[..j];
      if entries[j].eventSeq > c && entries[j].eventSeq <= k { all := all + [entries[j].frame]; }
    }
    assert entries[..|entries|] == entries;
  }

  lemma SelectLast(entries: seq<Entry>, last: Entry, c: int, k: int)
    ensures Select(entries + [last], c, k)
            == Select(entries, c, k) + if c < last.eventSeq <= k then [last.frame] else []
  {
    assert (entries + [last])[..|entries|] == entries;
  }

  lemma FramesLast(entries: seq<Entry>, last: Entry)
    ensures Frames(entries + [last]) == Frames(entries) + [last.frame]
  {
  }

  lemma {:induction false} SelectIsSlice(history: seq<Entry>, low: nat, high: nat, c: nat, k: nat)
    requires Numbered(history) && low <= high <= |history| && low <= c <= k <= |history|
    ensures Select(history[low..high], c, k)
            == if high <= c then [] else Frames(history[c..if high <= k then high else k])
    decreases high
  {
    if high > low {
      var last := history[high - 1];
      assert last.eventSeq == high;
      SelectIsSlice(history, low, high - 1, c, k);
      assert history[low..high] == history[low..high - 1] + [last];
      SelectLast(history[low..high - 1], last, c, k);
      hide Select, Numbered, Frames;
      if c < high && high <= k {
        assert history[c..high] == history[c..high - 1] + [last];
        FramesLast(history[c..high - 1], last);
        if high - 1 == c { NoFrames(); assert history[c..high - 1] == []; }
      }
    }
  }

  lemma NoFrames()
    ensures Frames([]) == []
  {
  }

  function Sealing(segments: seq<Segment>): seq<Segment>
    requires segments != []
  {
    segments[|segments| - 1 := segments[|segments| - 1].(sealed := true)]
  }

  lemma {:induction false} SealingKeeps(segments: seq<Segment>)
    requires segments != []
    ensures Flat(Sealing(segments)) == Flat(segments) && Bytes(Sealing(segments)) == Bytes(segments)
    ensures Segmented(segments) ==> Segmented(Sealing(segments))
    decreases |segments|
  {
    if |segments| > 1 {
      assert Sealing(segments)[1..] == Sealing(segments[1..]);
      SealingKeeps(segments[1..]);
    }
  }

  /** Dropping the oldest segment moves the evicted cursor to its last entry. */
  lemma DropKeeps(segments: seq<Segment>, history: seq<Entry>, evicted: nat)
    requires segments != [] && Segmented(segments) && Numbered(history) && evicted <= |history|
    requires Flat(segments) == history[evicted..]
    ensures var last := segments[0].entries[|segments[0].entries| - 1];
            && evicted < last.eventSeq <= |history|
            && last.nextPtyOffset == OffsetAt(history, last.eventSeq)
            && Flat(segments[1..]) == history[last.eventSeq..]
            && Segmented(segments[1..])
  {
    var n := |segments[0].entries|;
    var last := segments[0].entries[n - 1];
    assert Flat(segments)[n - 1] == last;
    assert history[evicted..][n - 1] == history[evicted + n - 1];
    assert last.eventSeq == evicted + n;
    assert Flat(segments[1..]) == Flat(segments)[n..];
    assert history[evicted..][n..] == history[evicted + n..];
  }

  lemma {:induction false} BytesOfSuffix(segments: seq<Segment>, n: nat)
    requires n <= |segments|
    ensures Bytes(segments[n..]) <= Bytes(segments)
    decreases n
  {
    if n > 0 {
      BytesOfSuffix(segments[1..], n - 1);
      assert segments[1..][n - 1..] == segments[n..];
    } else {
      assert segments[0..] == segments;
    }
  }

  lemma {:induction false} FlatOfSuffix(segments: seq<Segment>, n: nat)
    requires n <= |segments|
    ensures |Flat(segments[n..])| <= |Flat(segments)|
    decreases n
  {
    if n > 0 {
      FlatOfSuffix(segments[1..], n - 1);
      assert segments[1..][n - 1..] == segments[n..];
    } else {
      assert segments[0..] == segments;
    }
  }
}
