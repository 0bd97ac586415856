/** Length-prefixed frames over a byte stream with arbitrary short reads and writes
    (crates/rb-core/src/wire.rs:24-31, 66-158).

    The encoding of frame bodies is a parameter: any pair of functions of which the second undoes
    the first. A read or write may stall or fail at any time. */
module Wire {
  import opened Common

  const FRAME_LIMIT: nat := 16 * 1024 * 1024

  datatype Codec<!F> = Codec(encode: F -> Bytes, decode: Bytes -> Option<F>)

  ghost predicate Faithful<F(!new)>(codec: Codec<F>) {
    forall f: F :: codec.decode(codec.encode(f)) == Some(f)
  }

  // ---------------------------------------------------------------------------- the length prefix

  /** The low `width` bytes of `n`, the lowest first; `to_le_bytes` for a `u32` has four. */
  function LittleEndian(n: nat, width: nat): (bytes: Bytes)
    ensures |bytes| == width
  {
    if width == 0 then [] else [(n % 0x100) as byte] + LittleEndian(n / 0x100, width - 1)
  }

  /** `from_le_bytes` of the first `width` bytes. */
  function ValueOf(s: Bytes, width: nat): nat
    requires |s| >= width
  {
    if width == 0 then 0 else s[0] as nat + 0x100 * ValueOf(s[1..], width - 1)
  }

  function Limit(width: nat): nat {
    if width == 0 then 1 else 0x100 * Limit(width - 1)
  }

  lemma {:induction false} ValueRoundTrip(n: nat, width: nat, rest: Bytes)
    requires n < Limit(width)
    ensures ValueOf(LittleEndian(n, width) + rest, width) == n
  {
    if width > 0 {
      ValueRoundTrip(n / 0x100, width - 1, rest);
      assert (LittleEndian(n, width) + rest)[1..] == LittleEndian(n / 0x100, width - 1) + rest;
    }
  }

  function LengthPrefix(n: nat): (bytes: Bytes)
    ensures |bytes| == 4
  {
    LittleEndian(n, 4)
  }

  function LengthOf(s: Bytes): nat
    requires |s| >= 4
  {
    ValueOf(s, 4)
  }

  lemma LengthRoundTrip(n: nat, rest: Bytes)
    requires n <= FRAME_LIMIT
    ensures LengthOf(LengthPrefix(n) + rest) == n
  {
    assert Limit(4) == 0x100 * (0x100 * (0x100 * (0x100 * Limit(0))));
    ValueRoundTrip(n, 4, rest);
  }

  lemma {:induction false} SamePrefixSameValue(s: Bytes, t: Bytes, width: nat)
    requires |s| >= width && |t| >= width && s[..width] == t[..width]
    ensures ValueOf(s, width) == ValueOf(t, width)
  {
    if width > 0 {
      assert s[0] == s[..width][0] && t[0] == t[..width][0];
      assert s[1..][..width - 1] == s[..width][1..] && t[1..][..width - 1] == t[..width][1..];
      SamePrefixSameValue(s[1..], t[1..], width - 1);
    }
  }

  // ---------------------------------------------------------------------------------- one frame

  /** What `send_frame` writes; nothing when the body is too long. */
  function Framed<F>(codec: Codec<F>, f: F): (r: Option<Bytes>)
    ensures r.Some? ==> |r.value| >= 4
  {
    var body := codec.encode(f);
    if |body| > FRAME_LIMIT then None else Some(LengthPrefix(|body|) + body)
  }

  datatype Fault = TooLarge | UnexpectedEof | Undecodable | BadDigest | Io

  datatype Received<F> = Frame(frame: F, rest: Bytes) | CleanEof | Faulty(fault: Fault)

  /** What `recv_frame` makes of all the bytes that will ever come. An end of the stream inside the
      length prefix counts as a clean one. */
  function Receive<F>(codec: Codec<F>, s: Bytes): Received<F> {
    if |s| < 4 then CleanEof
    else
      var end := 4 + LengthOf(s);
      if end - 4 > FRAME_LIMIT then Faulty(TooLarge)
      else if |s| < end then Faulty(UnexpectedEof)
      else
        match codec.decode(s[4..end])
        case None => Faulty(Undecodable)
        case Some(f) => Frame(f, s[end..])
  }

  /** Receiving from a prefix `t` of a frame and what follows: the frame, if all of it is there; a
      clean end, if less than its length prefix is; an error otherwise. */
  lemma ReceiveFromPrefix<F(!new)>(codec: Codec<F>, f: F, framed: Bytes, rest: Bytes, t: Bytes)
    requires Faithful(codec) && Framed(codec, f) == Some(framed) && t <= framed + rest
    ensures |t| >= |framed| ==> Receive(codec, t) == Frame(f, t[|framed|..])
    ensures |t| < 4 ==> Receive(codec, t) == CleanEof
    ensures 4 <= |t| < |framed| ==> Receive(codec, t) == Faulty(UnexpectedEof)
  {
    var body := codec.encode(f);
    if |t| >= 4 {
      LengthRoundTrip(|body|, body + rest);
      assert framed + rest == LengthPrefix(|body|) + (body + rest);
      assert t[..4] == (framed + rest)[..4];
      SamePrefixSameValue(t, framed + rest, 4);
      if |t| >= |framed| {
        assert t[4..|framed|] == (framed + rest)[4..|framed|] == body;
      }
    }
  }

  // ------------------------------------------------------------------------------- the stream

  datatype Reading = Full | AtEof | Stalled

  /** One direction each: what has been written, and what is still to be read before the end. */
  class ByteStream {
    var incoming: Bytes
    var outgoing: Bytes

    /** `read`: any number of bytes that are there and fit, none only at the end. */
    method Read(buf: array<byte>, off: nat) returns (r: Option<nat>)
      requires off < buf.Length
      modifies this`incoming, buf
      ensures r.None? ==> incoming == old(incoming) && buf[..] == old(buf[..])
      ensures r.Some? ==> r.value <= |old(incoming)| && off + r.value <= buf.Length && (r.value == 0 <==> old(incoming) == [])
      ensures r.Some? ==> incoming == old(incoming)[r.value..]
      ensures r.Some? ==> buf[..off + r.value] == old(buf[..off]) + old(incoming)[..r.value]
    {
      var stalled: bool := *;
      if stalled {
        return None;
      }
      var most := if |incoming| < buf.Length - off then |incoming| else buf.Length - off;
      var n: nat :| n <= most && (n == 0 <==> most == 0);
      for i := 0 to n
        invariant incoming == old(incoming)
        invariant buf[..off + i] == old(buf[..off]) + incoming[..i]
      {
        buf[off + i] := incoming[i];
        assert buf[..off + i + 1] == buf[..off + i] + [incoming[i]];
      }
      incoming := incoming[n..];
      return Some(n);
    }

    /** `write`: any number of bytes may be taken; none when the peer is gone. */
    method Write(data: Bytes) returns (r: Option<nat>)
      modifies this`outgoing
      ensures r.None? ==> outgoing == old(outgoing)
      ensures r.Some? ==> r.value <= |data| && outgoing == old(outgoing) + data[..r.value]
    {
      var stalled: bool := *;
      if stalled {
        return None;
      }
      var n: nat :| n <= |data|;
      outgoing := outgoing + data[..n];
      return Some(n);
    }

    /** `write_all_idle`: all of it, or the failure of some write after a part of it. */
    method WriteAllIdle(data: Bytes) returns (ok: bool)
      modifies this`outgoing
      ensures ok ==> outgoing == old(outgoing) + data
      ensures old(outgoing) <= outgoing <= old(outgoing) + data
    {
      var rest := data;
      ghost var done: nat := 0;
      while |rest| > 0
        invariant done <= |data| && rest == data[done..] && outgoing == old(outgoing) + data[..done]
        decreases |rest|
      {
        var n := Write(rest);
        if n.None? || n.value == 0 {
          return false;
        }
        assert data[..done] + rest[..n.value] == data[..done + n.value];
        rest := rest[n.value..];
        done := done + n.value;
      }
      return true;
    }

    /** `read_exact_idle`: fills the buffer in place. What a failed read has consumed is lost. */
    method ReadExactIdle(buf: array<byte>) returns (r: Reading)
      modifies this`incoming, buf
      ensures r.Full? ==> buf.Length <= |old(incoming)|
      ensures r.Full? ==> buf[..] == old(incoming)[..buf.Length] && incoming == old(incoming)[buf.Length..]
      ensures r.AtEof? ==> |old(incoming)| < buf.Length && incoming == []
    {
      ghost var all := incoming;
      var off: nat := 0;
      while off < buf.Length
        invariant off <= buf.Length && off <= |all|
        invariant buf[..off] == all[..off] && incoming == all[off..]
      {
        var n := Read(buf, off);
        if n.None? {
          return Stalled;
        }
        if n.value == 0 {
          return AtEof;
        }
        assert all[..off] + all[off..][..n.value] == all[..off + n.value];
        off := off + n.value;
      }
      assert buf[..buf.Length] == buf[..];
      return Full;
    }

    /** `send_frame`; a body that is too long fails before anything is written. */
    method SendFrame<F>(codec: Codec<F>, f: F) returns (ok: bool)
      modifies this`outgoing
      ensures ok ==> Framed(codec, f).Some? && outgoing == old(outgoing) + Framed(codec, f).value
      ensures Framed(codec, f).None? ==> outgoing == old(outgoing)
      ensures Framed(codec, f).Some? ==> old(outgoing) <= outgoing <= old(outgoing) + Framed(codec, f).value
    {
      var body := codec.encode(f);
      if |body| > FRAME_LIMIT {
        return false;
      }
      ghost var before := outgoing;
      ok := WriteAllIdle(LengthPrefix(|body|));
      if ok {
        assert before + LengthPrefix(|body|) + body == before + (LengthPrefix(|body|) + body);
        ok := WriteAllIdle(body);
      } else {
        assert before + LengthPrefix(|body|) <= before + Framed(codec, f).value;
      }
    }

    /** `recv_frame`. Unless the stream stalls, the answer is what the bytes say. */
    method RecvFrame<F>(codec: Codec<F>) returns (r: Received<F>)
      modifies this`incoming
      ensures r != Faulty(Io) ==> r == Receive(codec, old(incoming))
      ensures r.Frame? ==> incoming == r.rest
      ensures r.CleanEof? ==> incoming == []
    {
      ghost var all := incoming;
      var prefix := new byte[4];
      var got := ReadExactIdle(prefix);
      if got.Stalled? {
        return Faulty(Io);
      }
      if got.AtEof? {
        return CleanEof;
      }
      var length := LengthOf(prefix[..]);
      SamePrefixSameValue(prefix[..], all, 4);
      if length > FRAME_LIMIT {
        return Faulty(TooLarge);
      }
      var body := new byte[length];
      got := ReadExactIdle(body);
      if got.Stalled? {
        return Faulty(Io);
      }
      if got.AtEof? {
        return Faulty(UnexpectedEof);
      }
      assert body[..] == all[4..4 + length] && incoming == all[4 + length..];
      match codec.decode(body[..]) {
        case None => return Faulty(Undecodable);
        case Some(f) => return Frame(f, incoming);
      }
    }
  }
}
