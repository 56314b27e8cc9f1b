/** The foreground loop of the service: every record the consumer delivers
    is handed to `processMessage`, which turns it into the client's own
    message record. The goroutine started per record is not modelled; the
    loop is the sequence of hand-offs it makes, in stream order. */
module Dispatch {
  import opened Wrappers

  newtype int32 = x: int | -0x8000_0000 <= x < 0x8000_0000
  newtype int64 = x: int | -0x8000_0000_0000_0000 <= x < 0x8000_0000_0000_0000
  newtype byte = x: int | 0 <= x < 0x100

  /** A point in time; `Zero` is Go's zero `time.Time`. */
  datatype Time = Zero | Instant(unixNanos: int)

  /** A record as the consumer library delivers it. */
  datatype ConsumerMessage = ConsumerMessage(
    key: seq<byte>,
    value: seq<byte>,
    topic: string,
    partition: int32,
    offset: int64,
    timestamp: Time)

  datatype Metadata = Metadata(receivedAt: Time)

  /** The client's message record. A Go string is its bytes, so `value`
      holds the payload bytes that `string(msg.Value)` produces. */
  datatype Message = Message(
    partition: int32,
    offset: int64,
    topic: string,
    value: seq<byte>,
    metadata: Metadata)

  /** `processMessage`: a field-for-field copy of the record; the metadata is
      left at its zero value, so the receipt time is never assigned. */
  function ProcessMessage(msg: ConsumerMessage): (m: Message)
    ensures m.partition == msg.partition
    ensures m.offset == msg.offset
    ensures m.topic == msg.topic
    ensures m.value == msg.value
    ensures m.metadata.receivedAt == Zero
  {
    Message(
      partition := msg.partition,
      offset := msg.offset,
      topic := msg.topic,
      value := msg.value,
      metadata := Metadata(Zero))
  }

  /** Two records give the same message exactly when they agree on
      partition, offset, topic and payload: key and broker timestamp are
      dropped, and nothing else is. */
  lemma ProcessMessageKeepsExactlyFourFields(a: ConsumerMessage, b: ConsumerMessage)
    ensures ProcessMessage(a) == ProcessMessage(b) <==>
      a.partition == b.partition && a.offset == b.offset && a.topic == b.topic && a.value == b.value
  {
  }

  /** Number of non-nil entries of a stream. */
  function CountNonNil(stream: seq<Option<ConsumerMessage>>): nat
  {
    if |stream| == 0 then 0
    else CountNonNil(stream[..|stream| - 1]) + (if stream[|stream| - 1].Some? then 1 else 0)
  }

  /** The non-nil records of a stream, in stream order. */
  function NonNil(stream: seq<Option<ConsumerMessage>>): seq<ConsumerMessage>
  {
    if |stream| == 0 then []
    else
      var init := NonNil(stream[..|stream| - 1]);
      match stream[|stream| - 1]
      case None => init
      case Some(msg) => init + [msg]
  }

  /** Filtering respects concatenation: the records of a longer stream are
      the records of its first part followed by those of the rest, so a
      record delivered earlier is handed on earlier. */
  lemma {:induction false} NonNilAppend(a: seq<Option<ConsumerMessage>>, b: seq<Option<ConsumerMessage>>)
    ensures NonNil(a + b) == NonNil(a) + NonNil(b)
    decreases |b|
  {
    if |b| == 0 {
      assert a + b == a;
    } else {
      var b' := b[..|b| - 1];
      assert (a + b)[..|a + b| - 1] == a + b';
      NonNilAppend(a, b');
    }
  }

  /** A nil entry is skipped and a non-nil one is passed on unchanged. */
  lemma NonNilSingle(entry: Option<ConsumerMessage>)
    ensures entry.None? ==> NonNil([entry]) == []
    ensures entry.Some? ==> NonNil([entry]) == [entry.value]
  {
    assert [entry][..0] == [];
  }

  /** `dispatched` lists the non-nil records of `stream` and `positions`
      where each sits: every hand-off comes from a non-nil entry holding that
      record, positions strictly increase (stream order, no entry twice), and
      every non-nil entry is among them (none skipped). */
  predicate Enumerates(stream: seq<Option<ConsumerMessage>>, dispatched: seq<ConsumerMessage>, positions: seq<nat>)
  {
    && |dispatched| == |positions|
    && (forall k :: 0 <= k < |positions| ==>
          positions[k] < |stream| && stream[positions[k]] == Some(dispatched[k]))
    && (forall k, l :: 0 <= k < l < |positions| ==> positions[k] < positions[l])
    && (forall i :: 0 <= i < |stream| && stream[i].Some? ==> i in positions)
  }

  /** A nil last entry takes no part in an enumeration. */
  lemma EnumerationDropNil(
    stream: seq<Option<ConsumerMessage>>, dispatched: seq<ConsumerMessage>, positions: seq<nat>)
    requires Enumerates(stream, dispatched, positions)
    requires |stream| > 0 && stream[|stream| - 1].None?
    ensures Enumerates(stream[..|stream| - 1], dispatched, positions)
  {
  }

  /** A non-nil last entry is handed on last. */
  lemma EnumerationEndsAtLast(
    stream: seq<Option<ConsumerMessage>>, dispatched: seq<ConsumerMessage>, positions: seq<nat>)
    requires Enumerates(stream, dispatched, positions)
    requires |stream| > 0 && stream[|stream| - 1].Some?
    ensures |positions| > 0
    ensures positions[|positions| - 1] == |stream| - 1
    ensures dispatched[|dispatched| - 1] == stream[|stream| - 1].value
  {
    var n := |stream| - 1;
    assert n in positions;
    var last := |positions| - 1;
    var j :| 0 <= j < |positions| && positions[j] == n;
    assert positions[last] < |stream|;
    assert j == last;
  }

  /** A non-nil last entry is the last hand-off of an enumeration, and the
      rest enumerates the stream before it. */
  lemma EnumerationDropLast(
    stream: seq<Option<ConsumerMessage>>, dispatched: seq<ConsumerMessage>, positions: seq<nat>)
    requires Enumerates(stream, dispatched, positions)
    requires |stream| > 0 && stream[|stream| - 1].Some?
    ensures |positions| > 0
    ensures dispatched == dispatched[..|dispatched| - 1] + [stream[|stream| - 1].value]
    ensures Enumerates(stream[..|stream| - 1], dispatched[..|dispatched| - 1], positions[..|positions| - 1])
  {
    EnumerationEndsAtLast(stream, dispatched, positions);
    var n := |stream| - 1;
    var init := stream[..n];
    var last := |positions| - 1;
    var d', p' := dispatched[..last], positions[..last];
    forall k | 0 <= k < |p'| ensures p'[k] < n && init[p'[k]] == Some(d'[k]) {
      assert positions[k] < positions[last];
    }
    forall i | 0 <= i < |init| && init[i].Some? ensures i in p' {
      assert stream[i] == init[i];
      var j :| 0 <= j < |positions| && positions[j] == i;
      assert p'[j] == i;
    }
    assert dispatched == d' + [dispatched[last]];
  }

  /** A stream with no non-nil entry hands nothing on. */
  lemma {:induction false} AllNilFiltersEmpty(stream: seq<Option<ConsumerMessage>>)
    requires forall i :: 0 <= i < |stream| ==> stream[i].None?
    ensures NonNil(stream) == []
    ensures CountNonNil(stream) == 0
    decreases |stream|
  {
    if |stream| > 0 {
      AllNilFiltersEmpty(stream[..|stream| - 1]);
    }
  }

  /** An enumeration of the non-nil entries is unique: it is the filtered
      stream, and it has as many entries as the stream has non-nil ones. */
  lemma {:induction false} EnumerationIsNonNil(
    stream: seq<Option<ConsumerMessage>>, dispatched: seq<ConsumerMessage>, positions: seq<nat>)
    requires Enumerates(stream, dispatched, positions)
    ensures dispatched == NonNil(stream)
    ensures |dispatched| == CountNonNil(stream)
    decreases |stream|
  {
    if |positions| == 0 {
      AllNilFiltersEmpty(stream);
    } else {
      assert positions[0] < |stream|;
      var init := stream[..|stream| - 1];
      if stream[|stream| - 1].None? {
        EnumerationDropNil(stream, dispatched, positions);
        EnumerationIsNonNil(init, dispatched, positions);
      } else {
        EnumerationDropLast(stream, dispatched, positions);
        EnumerationIsNonNil(init, dispatched[..|dispatched| - 1], positions[..|positions| - 1]);
      }
    }
  }

  /** The `range` loop over the consumer's message stream, until it closes.
      `dispatched` are the records handed to `processMessage`, in order, and
      `positions` where in the stream each came from, and `handled` the
      messages `processMessage` builds from them, one per record in the same
      order. */
  method Dispatch(stream: seq<Option<ConsumerMessage>>)
    returns (dispatched: seq<ConsumerMessage>, positions: seq<nat>, handled: seq<Message>)
    ensures Enumerates(stream, dispatched, positions)
    ensures |handled| == |dispatched|
    ensures forall k :: 0 <= k < |handled| ==> handled[k] == ProcessMessage(dispatched[k])
  {
    dispatched, positions, handled := [], [], [];
    var i := 0;
    while i < |stream|
      invariant 0 <= i <= |stream|
      invariant |dispatched| == |positions| == |handled|
      invariant forall k :: 0 <= k < |handled| ==> handled[k] == ProcessMessage(dispatched[k])
      invariant forall k :: 0 <= k < |positions| ==>
        positions[k] < i && stream[positions[k]] == Some(dispatched[k])
      invariant forall k, l :: 0 <= k < l < |positions| ==> positions[k] < positions[l]
      invariant forall j :: 0 <= j < i && stream[j].Some? ==> j in positions
    {
      match stream[i] {
        case None =>
        case Some(msg) =>
          dispatched := dispatched + [msg];
          positions := positions + [i];
          handled := handled + [ProcessMessage(msg)];
      }
      i := i + 1;
    }
  }
}
