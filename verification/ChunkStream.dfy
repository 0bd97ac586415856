/** Events of a transfer as chunk headers, raw payload and item ends on one byte stream
    (crates/rb-core/src/channel.rs:40-215, crates/rb-core/src/wire.rs:45-65). */
module ChunkStream {
  import opened Common
  import opened Wire

  const CHUNK_SIZE: nat := 1024 * 1024

  /** A `ChunkStart` is followed by `len` bytes of payload. */
  datatype DataFrame =
    | ChunkStart(itemId: nat, offset: nat, len: nat, digest: Digest)
    | ItemEnd(itemId: nat, total: nat, blake3: string)
    | StreamEnd

  datatype Event =
    | Chunk(itemId: nat, offset: nat, data: Bytes)
    | ItemDone(itemId: nat, total: nat, blake3: string)

  type DataCodec = Codec<DataFrame>

  /** What the sink writes for an event; nothing for a chunk or a header that is too long. */
  function EncodeEvent(codec: DataCodec, e: Event): (r: Option<Bytes>)
    ensures r.Some? ==> |r.value| >= 4
  {
    match e
    case Chunk(itemId, offset, data) =>
      if |data| > CHUNK_SIZE then None
      else
        (match Framed(codec, ChunkStart(itemId, offset, |data|, Blake3(data)))
         case None => None
         case Some(header) => Some(header + data))
    case ItemDone(itemId, total, blake3) => Framed(codec, ItemEnd(itemId, total, blake3))
  }

  predicate Encodable(codec: DataCodec, events: seq<Event>) {
    forall k :: 0 <= k < |events| ==> EncodeEvent(codec, events[k]).Some?
  }

  function EncodeEvents(codec: DataCodec, events: seq<Event>): Bytes
    requires Encodable(codec, events)
  {
    if |events| == 0 then [] else EncodeEvent(codec, events[0]).value + EncodeEvents(codec, events[1..])
  }

  function EndFrame(codec: DataCodec): Option<Bytes> {
    Framed(codec, StreamEnd)
  }

  /** The whole stream of a sink that is finished. */
  function EncodeAll(codec: DataCodec, events: seq<Event>): Bytes
    requires Encodable(codec, events) && EndFrame(codec).Some?
  {
    EncodeEvents(codec, events) + EndFrame(codec).value
  }

  /** `Ended` by the end frame, or else because the stream ended. */
  datatype Next = Got(event: Event, rest: Bytes) | Ended(byFrame: bool, rest: Bytes) | Failed(fault: Fault)

  /** What the source makes of all the bytes that will ever come. */
  function NextEvent(codec: DataCodec, s: Bytes): (r: Next)
    ensures r.Got? ==> |r.rest| < |s|
  {
    var received: Received<DataFrame> := Receive(codec, s);
    match received
    case CleanEof => Ended(false, [])
    case Faulty(fault) => Failed(fault)
    case Frame(StreamEnd, rest) => Ended(true, rest)
    case Frame(ItemEnd(itemId, total, blake3), rest) => Got(ItemDone(itemId, total, blake3), rest)
    case Frame(ChunkStart(itemId, offset, len, digest), rest) =>
      if |rest| < len then Failed(UnexpectedEof)
      else if Blake3(rest[..len]) != digest then Failed(BadDigest)
      else Got(Chunk(itemId, offset, rest[..len]), rest[len..])
  }

  /** All events up to the end or an error; `last` says which. */
  datatype Decoded = Decoded(events: seq<Event>, last: Next)

  function DecodeAll(codec: DataCodec, s: Bytes): (r: Decoded)
    ensures !r.last.Got?
    decreases |s|
  {
    var next := NextEvent(codec, s);
    if next.Got? then
      var later := DecodeAll(codec, next.rest);
      Decoded([next.event] + later.events, later.last)
    else Decoded([], next)
  }

  // -------------------------------------------------------------------- one event of the stream

  /** From a prefix `t` of an event and what follows, the source gets the event, a clean end if `t`
      is shorter than a length prefix, or an error; never another event. */
  lemma NextFromPrefix(codec: DataCodec, e: Event, encoded: Bytes, rest: Bytes, t: Bytes)
    requires Faithful(codec) && EncodeEvent(codec, e) == Some(encoded) && t <= encoded + rest
    ensures |t| >= |encoded| ==> NextEvent(codec, t) == Got(e, t[|encoded|..])
    ensures |t| < 4 ==> NextEvent(codec, t) == Ended(false, [])
    ensures 4 <= |t| < |encoded| ==> NextEvent(codec, t) == Failed(UnexpectedEof)
  {
    match e
    case ItemDone(itemId, total, blake3) =>
      ReceiveFromPrefix(codec, ItemEnd(itemId, total, blake3), encoded, rest, t);
    case Chunk(itemId, offset, data) =>
      var start := ChunkStart(itemId, offset, |data|, Blake3(data));
      var header := Framed(codec, start).value;
      assert encoded + rest == header + (data + rest);
      ReceiveFromPrefix(codec, start, header, data + rest, t);
      if |t| >= |header| {
        PayloadPrefix(header, data, rest, t);
      }
  }

  lemma PayloadPrefix(header: Bytes, data: Bytes, rest: Bytes, t: Bytes)
    requires t <= header + (data + rest) && |t| >= |header|
    ensures |t| >= |header| + |data| ==> t[|header|..][..|data|] == data && t[|header|..][|data|..] == t[|header + data|..]
  {
    if |t| >= |header| + |data| {
      assert t[|header|..][..|data|] == (header + (data + rest))[|header|..|header| + |data|] == data;
    }
  }

  /** The same for the frame that ends the stream. */
  lemma EndFromPrefix(codec: DataCodec, end: Bytes, rest: Bytes, t: Bytes)
    requires Faithful(codec) && EndFrame(codec) == Some(end) && t <= end + rest
    ensures |t| >= |end| ==> NextEvent(codec, t) == Ended(true, t[|end|..])
    ensures |t| < 4 ==> NextEvent(codec, t) == Ended(false, [])
    ensures 4 <= |t| < |end| ==> NextEvent(codec, t) == Failed(UnexpectedEof)
  {
    ReceiveFromPrefix(codec, StreamEnd, end, rest, t);
  }

  // ------------------------------------------------------------------------------- the theorems

  /** How many bytes the first `k` events take. */
  function Boundary(codec: DataCodec, events: seq<Event>, k: nat): nat
    requires Encodable(codec, events) && k <= |events|
  {
    |EncodeEvents(codec, events[..k])|
  }

  lemma BoundaryOneMore(codec: DataCodec, events: seq<Event>, k: nat)
    requires Encodable(codec, events) && k < |events|
    ensures Boundary(codec, events, k + 1) == |EncodeEvent(codec, events[0]).value| + Boundary(codec, events[1..], k)
  {
    assert events[..k + 1][0] == events[0] && events[..k + 1][1..] == events[1..][..k];
  }

  lemma EncodeFirst(codec: DataCodec, events: seq<Event>, tail: Bytes)
    requires Encodable(codec, events) && EndFrame(codec).Some? && |events| > 0
    ensures EncodeAll(codec, events) + tail == EncodeEvent(codec, events[0]).value + (EncodeAll(codec, events[1..]) + tail)
  {
  }

  /** Decoding the whole stream gives back its events and leaves the bytes after it untouched. */
  lemma {:induction false} StreamRoundTrip(codec: DataCodec, events: seq<Event>, tail: Bytes)
    requires Faithful(codec) && Encodable(codec, events) && EndFrame(codec).Some?
    ensures DecodeAll(codec, EncodeAll(codec, events) + tail) == Decoded(events, Ended(true, tail))
  {
    var s := EncodeAll(codec, events) + tail;
    if |events| == 0 {
      EndFromPrefix(codec, EndFrame(codec).value, tail, s);
      assert s[|EndFrame(codec).value|..] == tail;
    } else {
      var first := EncodeEvent(codec, events[0]).value;
      var rest := EncodeAll(codec, events[1..]) + tail;
      EncodeFirst(codec, events, tail);
      NextFromPrefix(codec, events[0], first, rest, s);
      assert s[|first|..] == rest;
      StreamRoundTrip(codec, events[1..], tail);
    }
  }

  /** What decoding a truncated stream ends with: a clean end within four bytes after a boundary,
      and an error anywhere else. */
  predicate EndsAsCut(codec: DataCodec, events: seq<Event>, t: Bytes, k: nat, last: Next)
    requires Encodable(codec, events) && EndFrame(codec).Some? && k <= |events|
  {
    && Boundary(codec, events, k) <= |t|
    && (if |t| == |EncodeAll(codec, events)| then k == |events| && last == Ended(true, [])
        else if |t| < Boundary(codec, events, k) + 4 then last == Ended(false, [])
        else last == Failed(UnexpectedEof))
  }

  lemma EncodeSplits(codec: DataCodec, events: seq<Event>)
    requires Encodable(codec, events) && EndFrame(codec).Some? && |events| > 0
    ensures EncodeAll(codec, events) == EncodeEvent(codec, events[0]).value + EncodeAll(codec, events[1..])
  {
  }

  lemma CutInEnd(codec: DataCodec, events: seq<Event>, t: Bytes)
    requires Faithful(codec) && Encodable(codec, events) && EndFrame(codec).Some? && |events| == 0
    requires t <= EncodeAll(codec, events)
    ensures DecodeAll(codec, t).events == [] && EndsAsCut(codec, events, t, 0, DecodeAll(codec, t).last)
  {
    EndFromPrefix(codec, EndFrame(codec).value, [], t);
  }

  lemma CutInFirst(codec: DataCodec, events: seq<Event>, t: Bytes)
    requires Faithful(codec) && Encodable(codec, events) && EndFrame(codec).Some? && |events| > 0
    requires t <= EncodeAll(codec, events) && |t| < |EncodeEvent(codec, events[0]).value|
    ensures DecodeAll(codec, t).events == [] && EndsAsCut(codec, events, t, 0, DecodeAll(codec, t).last)
  {
    EncodeSplits(codec, events);
    NextFromPrefix(codec, events[0], EncodeEvent(codec, events[0]).value, EncodeAll(codec, events[1..]), t);
    assert events[..0] == [];
  }

  lemma CutAfterFirst(codec: DataCodec, events: seq<Event>, t: Bytes, later: Bytes)
    requires Faithful(codec) && Encodable(codec, events) && EndFrame(codec).Some? && |events| > 0
    requires t <= EncodeAll(codec, events) && |t| >= |EncodeEvent(codec, events[0]).value|
    requires later == t[|EncodeEvent(codec, events[0]).value|..]
    ensures later <= EncodeAll(codec, events[1..])
    ensures DecodeAll(codec, t).events == [events[0]] + DecodeAll(codec, later).events
    ensures DecodeAll(codec, t).last == DecodeAll(codec, later).last
  {
    var first := EncodeEvent(codec, events[0]).value;
    var rest := EncodeAll(codec, events[1..]);
    EncodeSplits(codec, events);
    NextFromPrefix(codec, events[0], first, rest, t);
    PrefixTail(first, rest, t);
  }

  lemma PrefixTail(first: Bytes, rest: Bytes, t: Bytes)
    requires t <= first + rest && |t| >= |first|
    ensures t[|first|..] <= rest
  {
    assert (first + rest)[|first|..] == rest;
  }

  lemma CutOneLater(codec: DataCodec, events: seq<Event>, t: Bytes, later: Bytes, k: nat, last: Next)
    requires Encodable(codec, events) && EndFrame(codec).Some? && 0 < k <= |events|
    requires |later| == |t| - |EncodeEvent(codec, events[0]).value| && EndsAsCut(codec, events[1..], later, k - 1, last)
    ensures EndsAsCut(codec, events, t, k, last)
  {
    BoundaryOneMore(codec, events, k - 1);
    assert |EncodeAll(codec, events)| == |EncodeEvent(codec, events[0]).value| + |EncodeAll(codec, events[1..])|;
  }

  /** What holds of the stream after its first event holds of the whole stream, one event on. */
  lemma CutAfterMore(codec: DataCodec, events: seq<Event>, t: Bytes, later: Bytes, k: nat)
    requires Encodable(codec, events) && EndFrame(codec).Some? && k < |events|
    requires |later| == |t| - |EncodeEvent(codec, events[0]).value|
    requires DecodeAll(codec, t).events == [events[0]] + DecodeAll(codec, later).events
    requires DecodeAll(codec, t).last == DecodeAll(codec, later).last
    requires DecodeAll(codec, later).events == events[1..][..k]
    requires EndsAsCut(codec, events[1..], later, k, DecodeAll(codec, later).last)
    ensures DecodeAll(codec, t).events == events[..k + 1]
    ensures EndsAsCut(codec, events, t, k + 1, DecodeAll(codec, t).last)
  {
    assert events[..k + 1] == [events[0]] + events[1..][..k];
    CutOneLater(codec, events, t, later, k + 1, DecodeAll(codec, later).last);
  }

  /** Wherever the stream is cut, the events that are decoded are the first events sent, unaltered,
      and only at the end of everything is the end frame seen. */
  lemma {:induction false} TruncatedStream(codec: DataCodec, events: seq<Event>, t: Bytes) returns (k: nat)
    requires Faithful(codec) && Encodable(codec, events) && EndFrame(codec).Some?
    requires t <= EncodeAll(codec, events)
    ensures k <= |events| && DecodeAll(codec, t).events == events[..k]
    ensures EndsAsCut(codec, events, t, k, DecodeAll(codec, t).last)
  {
    if |events| == 0 {
      k := 0;
      CutInEnd(codec, events, t);
    } else if |t| < |EncodeEvent(codec, events[0]).value| {
      k := 0;
      CutInFirst(codec, events, t);
    } else {
      var later := t[|EncodeEvent(codec, events[0]).value|..];
      CutAfterFirst(codec, events, t, later);
      k := TruncatedStream(codec, events[1..], later);
      CutAfterMore(codec, events, t, later, k);
      k := k + 1;
    }
  }

  // ------------------------------------------------------------------------- the sink and source

  function SumBytes(events: seq<Event>): nat {
    if |events| == 0 then 0 else SumBytes(events[..|events| - 1]) + PayloadOf(events[|events| - 1])
  }

  function PayloadOf(e: Event): nat {
    if e.Chunk? then |e.data| else 0
  }

  /** `StreamChunkSink`, with its progress counters. */
  class ChunkSink {
    const stream: ByteStream
    const codec: DataCodec
    var bytesDone: nat
    var itemsDone: nat

    constructor (stream: ByteStream, codec: DataCodec)
      ensures this.stream == stream && this.codec == codec && bytesDone == 0 && itemsDone == 0
    {
      this.stream, this.codec := stream, codec;
      bytesDone, itemsDone := 0, 0;
    }

    method SendChunk(itemId: nat, offset: nat, data: Bytes) returns (ok: bool)
      modifies this`bytesDone, stream`outgoing
      ensures var encoded := EncodeEvent(codec, Chunk(itemId, offset, data));
              && (ok ==> encoded.Some? && stream.outgoing == old(stream.outgoing) + encoded.value)
              && (encoded.Some? ==> old(stream.outgoing) <= stream.outgoing <= old(stream.outgoing) + encoded.value)
              && (encoded.None? ==> stream.outgoing == old(stream.outgoing))
      ensures bytesDone == old(bytesDone) + if ok then |data| else 0
    {
      if |data| > CHUNK_SIZE {
        return false;
      }
      ghost var before := stream.outgoing;
      var header := ChunkStart(itemId, offset, |data|, Blake3(data));
      ok := stream.SendFrame(codec, header);
      if ok {
        assert before + Framed(codec, header).value + data == before + (Framed(codec, header).value + data);
        ok := stream.WriteAllIdle(data);
        if ok {
          bytesDone := bytesDone + |data|;
        }
      } else if Framed(codec, header).Some? {
        assert before + Framed(codec, header).value <= before + (Framed(codec, header).value + data);
      }
    }

    method FinishItem(itemId: nat, total: nat, blake3: string) returns (ok: bool)
      modifies this`itemsDone, stream`outgoing
      ensures var encoded := EncodeEvent(codec, ItemDone(itemId, total, blake3));
              && (ok ==> encoded.Some? && stream.outgoing == old(stream.outgoing) + encoded.value)
              && (encoded.Some? ==> old(stream.outgoing) <= stream.outgoing <= old(stream.outgoing) + encoded.value)
              && (encoded.None? ==> stream.outgoing == old(stream.outgoing))
      ensures itemsDone == old(itemsDone) + if ok then 1 else 0
    {
      ok := stream.SendFrame(codec, ItemEnd(itemId, total, blake3));
      if ok {
        itemsDone := itemsDone + 1;
      }
    }

    method Finish() returns (ok: bool)
      modifies stream`outgoing
      ensures ok ==> EndFrame(codec).Some? && stream.outgoing == old(stream.outgoing) + EndFrame(codec).value
      ensures EndFrame(codec).Some? ==>
                old(stream.outgoing) <= stream.outgoing <= old(stream.outgoing) + EndFrame(codec).value
    {
      ok := stream.SendFrame(codec, StreamEnd);
    }
  }

  /** `StreamChunkSource`, with its progress counters. */
  class ChunkSource {
    const stream: ByteStream
    const codec: DataCodec
    var bytesDone: nat
    var itemsDone: nat

    constructor (stream: ByteStream, codec: DataCodec)
      ensures this.stream == stream && this.codec == codec && bytesDone == 0 && itemsDone == 0
    {
      this.stream, this.codec := stream, codec;
      bytesDone, itemsDone := 0, 0;
    }

    /** Unless the stream stalls, the event is what the bytes say. */
    method NextChunk() returns (r: Next)
      modifies this, stream`incoming
      ensures r != Failed(Io) ==> r == NextEvent(codec, old(stream.incoming))
      ensures !r.Failed? ==> stream.incoming == r.rest
      ensures bytesDone == old(bytesDone) + if r.Got? then PayloadOf(r.event) else 0
      ensures itemsDone == old(itemsDone) + if r.Got? && r.event.ItemDone? then 1 else 0
    {
      var received: Received<DataFrame> := stream.RecvFrame(codec);
      match received {
        case CleanEof => return Ended(false, stream.incoming);
        case Faulty(fault) => return Failed(fault);
        case Frame(StreamEnd, rest) => return Ended(true, rest);
        case Frame(ItemEnd(itemId, total, blake3), rest) =>
          itemsDone := itemsDone + 1;
          return Got(ItemDone(itemId, total, blake3), rest);
        case Frame(ChunkStart(itemId, offset, len, digest), rest) =>
          var data := new byte[len];
          var got := stream.ReadExactIdle(data);
          if got.Stalled? {
            return Failed(Io);
          }
          if got.AtEof? {
            return Failed(UnexpectedEof);
          }
          if Blake3(data[..]) != digest {
            return Failed(BadDigest);
          }
          bytesDone := bytesDone + len;
          return Got(Chunk(itemId, offset, data[..]), stream.incoming);
      }
    }
  }
}
