/** Append-only streams: one writer that reads the length and then appends, and one polling reader that forwards
    the values it has not sent yet. */
module Streams {
  import opened Types
  import opened Sequences
  import opened StoreSpec
  import opened Serialization

  type StreamMap = map<(string, string), seq<StreamEntry>>

  datatype Writer = Free | Holding(offset: nat)   // Holding: has read the length, has not appended yet

  datatype Reader =
    | Polling(sent: nat)
    | Sending(sent: nat, values: seq<Value>, closed: bool)   // values still to forward from the last poll
    | Stopped

  datatype Feed = Feed(
    streams: StreamMap,
    writer: Writer,
    reader: Reader,
    // history
    written: seq<Value>,
    emitted: seq<Value>,
    marked: bool,         // the closed marker was forwarded
    failed: bool,         // a value could not be decoded
    lateWrite: bool)      // something was written after a close

  datatype Setup = Setup(codec: Codec, workflow: string, key: string, portable: bool)

  datatype Event =
    | BeginWrite
    | Append(value: Value, now: Time)
    | AbandonWrite
    | Close(now: Time)
    | Poll
    | Emit
    | EndBatch
    | HangUp
    | Other(entry: StreamEntry)    // a write to another stream

  function Entries(u: Setup, s: Feed): seq<StreamEntry> {
    StreamOf(s.streams, u.workflow, u.key)
  }

  predicate IsClosed(entries: seq<StreamEntry>) {
    exists i | 0 <= i < |entries| :: entries[i].closed
  }

  /** `read_stream`: the values from an offset on, or the first decoding error. */
  function ReadValues(c: Codec, entries: seq<StreamEntry>, fromOffset: int): Result<seq<Value>> {
    if entries == [] then Ok([])
    else if entries[0].offset >= fromOffset && !entries[0].closed then
      var v := DecodeStoredValue(c, entries[0].value, entries[0].serialization);
      if v.Err? then Err(v.error)
      else
        var rest := ReadValues(c, entries[1..], fromOffset);
        if rest.Err? then rest else Ok([v.value] + rest.value)
    else ReadValues(c, entries[1..], fromOffset)
  }

  function Skip<T>(s: seq<T>, n: nat): seq<T> {
    if n <= |s| then s[n..] else []
  }

  predicate Enabled(u: Setup, s: Feed, e: Event) {
    match e
    case BeginWrite => s.writer.Free?
    case Append(value, _) => s.writer.Holding? && EncodeValue(u.codec, value, u.portable).Ok?
    case AbandonWrite => s.writer.Holding?
    case Close(_) => s.writer.Free?
    case Poll => s.reader.Polling?
    case Emit => s.reader.Sending? && s.reader.values != []
    case EndBatch => s.reader.Sending? && s.reader.values == []
    case HangUp => true
    case Other(entry) => (entry.workflowId, entry.key) != (u.workflow, u.key)
  }

  function NewEntry(u: Setup, offset: int, e: EncodedValue, now: Time): StreamEntry {
    StreamEntry(u.workflow, u.key, offset, ToStoredValue(e), e.serialization, false, now)
  }

  function Step(u: Setup, s: Feed, e: Event): Feed
    requires Enabled(u, s, e)
  {
    match e
    case BeginWrite => s.(writer := Holding(|Entries(u, s)|))
    case Append(value, now) =>
      var entry := NewEntry(u, s.writer.offset, EncodeValue(u.codec, value, u.portable).value, now);
      s.(streams := WriteStream(s.streams, entry), writer := Free, written := s.written + [value],
         lateWrite := s.lateWrite || IsClosed(Entries(u, s)))
    case AbandonWrite => s.(writer := Free)
    case Close(now) => s.(streams := CloseStream(s.streams, u.workflow, u.key, now))
    case Poll =>
      var values := ReadValues(u.codec, Entries(u, s), 0);
      if values.Err? then s.(reader := Stopped, failed := true)
      else s.(reader := Sending(s.reader.sent, Skip(values.value, s.reader.sent), IsClosed(Entries(u, s))))
    case Emit =>
      s.(reader := s.reader.(sent := s.reader.sent + 1, values := s.reader.values[1..]), emitted := s.emitted + [s.reader.values[0]])
    case EndBatch => if s.reader.closed then s.(reader := Stopped, marked := true) else s.(reader := Polling(s.reader.sent))
    case HangUp => s.(reader := Stopped)
    case Other(entry) => s.(streams := WriteStream(s.streams, entry))
  }

  ghost predicate IsRun(u: Setup, s: Feed, events: seq<Event>)
    decreases |events|
  {
    events == [] || (Enabled(u, s, events[0]) && IsRun(u, Step(u, s, events[0]), events[1..]))
  }

  ghost function After(u: Setup, s: Feed, events: seq<Event>): Feed
    requires IsRun(u, s, events)
    decreases |events|
  {
    if events == [] then s else After(u, Step(u, s, events[0]), events[1..])
  }

  ghost predicate Fresh(u: Setup, s: Feed) {
    Entries(u, s) == [] && s == Feed(s.streams, Free, Polling(0), [], [], false, false, false)
  }

  ghost predicate OffsetsAreIndices(entries: seq<StreamEntry>) {
    forall i :: 0 <= i < |entries| ==> entries[i].offset == i
  }

  /** What the reader has forwarded is a prefix of what was written, and so is that plus what it is about to. */
  ghost predicate ReaderOk(s: Feed) {
    && s.emitted <= s.written
    && (s.reader.Polling? ==> s.reader.sent == |s.emitted|)
    && (s.reader.Sending? ==>
          && s.reader.sent == |s.emitted|
          && s.emitted + s.reader.values <= s.written
          && (s.reader.closed && !s.lateWrite ==> s.emitted + s.reader.values == s.written))
    && (s.marked && !s.lateWrite ==> s.emitted == s.written)
  }

  ghost predicate Inv(u: Setup, s: Feed) {
    && OffsetsAreIndices(Entries(u, s))
    && ReadValues(u.codec, Entries(u, s), 0) == Ok(s.written)
    && (s.writer.Holding? ==> s.writer.offset == |Entries(u, s)|)
    && ReaderOk(s)
    && (s.marked || (s.reader.Sending? && s.reader.closed) ==> IsClosed(Entries(u, s)))
    && !s.failed
  }

  lemma {:induction false} ReadValuesAppend(c: Codec, entries: seq<StreamEntry>, entry: StreamEntry, fromOffset: int)
    requires ReadValues(c, entries, fromOffset).Ok?
    requires !entry.closed ==> DecodeStoredValue(c, entry.value, entry.serialization).Ok?
    ensures ReadValues(c, entries + [entry], fromOffset)
            == if entry.offset >= fromOffset && !entry.closed
               then Ok(ReadValues(c, entries, fromOffset).value + [DecodeStoredValue(c, entry.value, entry.serialization).value])
               else ReadValues(c, entries, fromOffset)
  {
    if entries == [] {
      assert entries + [entry] == [entry] && [entry][1..] == [];
      var last := DecodeStoredValue(c, entry.value, entry.serialization);
      assert last.Ok? ==> [last.value] + [] == [] + [last.value];
    } else {
      ReadValuesAppend(c, entries[1..], entry, fromOffset);
      assert (entries + [entry])[1..] == entries[1..] + [entry] && (entries + [entry])[0] == entries[0];
      if entries[0].offset >= fromOffset && !entries[0].closed && entry.offset >= fromOffset && !entry.closed {
        var v, w := DecodeStoredValue(c, entries[0].value, entries[0].serialization).value, DecodeStoredValue(c, entry.value, entry.serialization).value;
        var rest := ReadValues(c, entries[1..], fromOffset).value;
        assert [v] + (rest + [w]) == ([v] + rest) + [w];
      }
    }
  }

  lemma StillClosed(entries: seq<StreamEntry>, entry: StreamEntry)
    requires IsClosed(entries)
    ensures IsClosed(entries + [entry])
  {
    var i :| 0 <= i < |entries| && entries[i].closed;
    assert (entries + [entry])[i].closed;
  }

  lemma AppendKeepsInv(u: Setup, s: Feed, value: Value, now: Time)
    requires CodecLaws(u.codec) && Inv(u, s) && Enabled(u, s, Append(value, now))
    ensures Inv(u, Step(u, s, Append(value, now)))
  {
    var entry := NewEntry(u, s.writer.offset, EncodeValue(u.codec, value, u.portable).value, now);
    StoredRoundTrip(u.codec, value, u.portable);
    ReadValuesAppend(u.codec, Entries(u, s), entry, 0);
    if IsClosed(Entries(u, s)) {
      StillClosed(Entries(u, s), entry);
    }
  }

  lemma CloseKeepsInv(u: Setup, s: Feed, now: Time)
    requires Inv(u, s) && Enabled(u, s, Close(now))
    ensures Inv(u, Step(u, s, Close(now)))
  {
    var entry := ClosedMarker(u.workflow, u.key, |Entries(u, s)|, now);
    ReadValuesAppend(u.codec, Entries(u, s), entry, 0);
    if IsClosed(Entries(u, s)) {
      StillClosed(Entries(u, s), entry);
    }
  }

  lemma StepKeepsInv(u: Setup, s: Feed, e: Event)
    requires CodecLaws(u.codec) && Inv(u, s) && Enabled(u, s, e)
    ensures Inv(u, Step(u, s, e))
  {
    match e
    case Append(value, now) => AppendKeepsInv(u, s, value, now);
    case Close(now) => CloseKeepsInv(u, s, now);
    case Emit => assert s.emitted + s.reader.values == s.emitted + [s.reader.values[0]] + s.reader.values[1..];
    case _ =>
  }

  lemma {:induction false} RunKeepsInv(u: Setup, s: Feed, events: seq<Event>)
    requires CodecLaws(u.codec) && Inv(u, s) && IsRun(u, s, events)
    ensures Inv(u, After(u, s, events))
    decreases |events|
  {
    if events != [] {
      StepKeepsInv(u, s, events[0]);
      RunKeepsInv(u, Step(u, s, events[0]), events[1..]);
    }
  }

  /** For every interleaving of one writer's appends and closes with the reader's polls: offsets are positions,
      the reader has forwarded a prefix of the written values without gap or duplicate, no value fails to decode,
      and if nothing was written after a close, the closed marker came only after every value. */
  lemma ReaderForwardsAPrefix(u: Setup, s0: Feed, events: seq<Event>)
    requires CodecLaws(u.codec) && Fresh(u, s0) && IsRun(u, s0, events)
    ensures var s := After(u, s0, events);
            && OffsetsAreIndices(Entries(u, s))
            && s.emitted <= s.written
            && !s.failed
            && (s.marked && !s.lateWrite ==> s.emitted == s.written)
  {
    RunKeepsInv(u, s0, events);
  }

  /** A poll by an idle reader, forwarded to the end, leaves nothing behind. */
  lemma PollFindsEverything(u: Setup, s: Feed)
    requires Inv(u, s) && s.reader.Polling?
    ensures var s' := Step(u, s, Poll); s'.reader.Sending? && s'.emitted + s'.reader.values == s'.written
  {
  }

  /** Reading from an offset shows the values from that position on, counting entries, closed markers included. */
  lemma {:induction false} ReadFromOffset(c: Codec, entries: seq<StreamEntry>, base: nat, from: nat)
    requires forall i :: 0 <= i < |entries| ==> entries[i].offset == base + i
    ensures ReadValues(c, entries, base + from) == ReadValues(c, Skip(entries, from), 0)
    decreases |entries|, from
  {
    if entries != [] {
      if from == 0 {
        AllFromHere(c, entries, base);
      } else {
        ReadFromOffset(c, entries[1..], base + 1, from - 1);
        assert Skip(entries[1..], from - 1) == Skip(entries, from);
      }
    }
  }

  lemma {:induction false} AllFromHere(c: Codec, entries: seq<StreamEntry>, base: nat)
    requires forall i :: 0 <= i < |entries| ==> entries[i].offset >= base
    ensures ReadValues(c, entries, base) == ReadValues(c, entries, 0)
  {
    if entries != [] {
      AllFromHere(c, entries[1..], base);
    }
  }
}
