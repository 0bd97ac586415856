/** Messages ended by a NUL byte, read through a buffer that survives abandoned receives
    (crates/rb-transport/src/proto.rs:38-101, crates/rb-transport/src/server.rs:132-152).

    A body is what JSON makes of a message; it holds no NUL. */
module Delimited {
  import opened Common

  const NUL: byte := 0
  const READ_SIZE: nat := 1024

  predicate NulFree(bodies: seq<Bytes>) {
    forall k :: 0 <= k < |bodies| ==> NUL !in bodies[k]
  }

  function EncodeAll(bodies: seq<Bytes>): Bytes {
    if |bodies| == 0 then [] else bodies[0] + [NUL] + EncodeAll(bodies[1..])
  }

  lemma {:induction false} EncodeOneMore(bodies: seq<Bytes>, body: Bytes)
    ensures EncodeAll(bodies + [body]) == EncodeAll(bodies) + (body + [NUL])
  {
    if |bodies| == 0 {
      assert bodies + [body] == [body] && [body][1..] == [];
    } else {
      EncodeOneMore(bodies[1..], body);
      assert (bodies + [body])[1..] == bodies[1..] + [body];
      assert bodies[0] + [NUL] + (EncodeAll(bodies[1..]) + (body + [NUL])) == EncodeAll(bodies) + (body + [NUL]);
    }
  }

  lemma NulComesAfter(a: Bytes, s: Bytes)
    requires NUL !in a
    ensures (a + [NUL] + s)[|a|] == NUL
    ensures forall k :: 0 <= k < |a| ==> (a + [NUL] + s)[k] != NUL
  {
  }

  /** What comes before the first NUL is determined. */
  lemma SameFirst(a: Bytes, b: Bytes, s: Bytes, t: Bytes)
    requires NUL !in a && NUL !in b && a + [NUL] + s == b + [NUL] + t
    ensures a == b && s == t
  {
    var all := a + [NUL] + s;
    NulComesAfter(a, s);
    NulComesAfter(b, t);
    assert a == all[..|a|] == b;
    assert s == all[|a| + 1..] == t;
  }

  lemma SomethingSent(whole: Bytes, sent: seq<Bytes>, partial: Bytes)
    requires whole == EncodeAll(sent) + partial && NUL in whole && NUL !in partial
    ensures |sent| > 0
  {
  }

  /** If the messages received, the buffer and what is still unread make up what was sent, then they
      are the first messages sent; and when nothing complete is left, they are all of them. */
  lemma {:induction false} ReceivedAreFirst(received: seq<Bytes>, rest: Bytes, sent: seq<Bytes>, partial: Bytes)
    requires NulFree(received) && NulFree(sent) && NUL !in partial
    requires EncodeAll(received) + rest == EncodeAll(sent) + partial
    ensures received <= sent
    ensures NUL !in rest ==> received == sent && rest == partial
  {
    if |received| == 0 {
      assert rest == EncodeAll(sent) + partial;
      if |sent| > 0 {
        assert rest[|sent[0]|] == NUL;
      }
    } else {
      var whole := EncodeAll(received) + rest;
      assert whole == received[0] + [NUL] + (EncodeAll(received[1..]) + rest);
      assert whole[|received[0]|] == NUL;
      SomethingSent(whole, sent, partial);
      assert whole == sent[0] + [NUL] + (EncodeAll(sent[1..]) + partial);
      SameFirst(received[0], sent[0], EncodeAll(received[1..]) + rest, EncodeAll(sent[1..]) + partial);
      ReceivedAreFirst(received[1..], rest, sent[1..], partial);
      assert received == [received[0]] + received[1..] && sent == [sent[0]] + sent[1..];
    }
  }

  datatype Outcome = Message(body: Bytes) | Closed | Abandoned

  class Stream {
    var readBuf: Bytes
    var incoming: Bytes      // still to be read before the end
    var outgoing: Bytes

    ghost function Unconsumed(): Bytes
      reads this
    {
      readBuf + incoming
    }

    /** `write_all`: a failing write leaves some of the bytes written. */
    method WriteAll(bytes: Bytes) returns (written: nat)
      modifies this`outgoing
      ensures written <= |bytes| && outgoing == old(outgoing) + bytes[..written]
    {
      var n: nat :| n <= |bytes|;
      outgoing := outgoing + bytes[..n];
      return n;
    }

    /** `send_client`, `send_server`: the message and its delimiter, or some of it. */
    method Send(body: Bytes) returns (ok: bool, written: nat)
      modifies this`outgoing
      ensures written <= |body| + 1 && outgoing == old(outgoing) + (body + [NUL])[..written]
      ensures ok ==> written == |body| + 1
    {
      written := WriteAll(body);
      assert (body + [NUL])[..written] == body[..written];
      if written < |body| {
        return false, written;
      }
      var delimiter := WriteAll([NUL]);
      written := written + delimiter;
      assert (body + [NUL])[..written] == body + [NUL][..delimiter];
      var flushed: bool := *;
      ok := delimiter == 1 && flushed;
    }

    /** Any number of sends, up to the first that fails: the receiver is sent the first messages and
        perhaps the start of one more. */
    method SendAll(bodies: seq<Bytes>) returns (ok: bool, ghost sent: seq<Bytes>, ghost partial: Bytes)
      requires NulFree(bodies)
      modifies this`outgoing
      ensures sent <= bodies && NUL !in partial && outgoing == old(outgoing) + (EncodeAll(sent) + partial)
      ensures ok ==> sent == bodies && partial == []
    {
      for k := 0 to |bodies|
        invariant outgoing == old(outgoing) + EncodeAll(bodies[..k])
      {
        var body := bodies[k];
        var done, written := Send(body);
        EncodeOneMore(bodies[..k], body);
        assert bodies[..k + 1] == bodies[..k] + [body];
        if written <= |body| {
          assert (body + [NUL])[..written] == body[..written];
          assert outgoing == old(outgoing) + (EncodeAll(bodies[..k]) + body[..written]);
          return false, bodies[..k], body[..written];
        }
        assert (body + [NUL])[..written] == body + [NUL];
        if !done {
          assert EncodeAll(bodies[..k + 1]) + [] == EncodeAll(bodies[..k + 1]);
          return false, bodies[..k + 1], [];
        }
      }
      assert bodies[..|bodies|] == bodies && EncodeAll(bodies) + [] == EncodeAll(bodies);
      return true, bodies, [];
    }

    /** `position` of the delimiter. */
    method Position() returns (at: Option<nat>)
      ensures at.None? ==> NUL !in readBuf
      ensures at.Some? ==> at.value < |readBuf| && readBuf[at.value] == NUL && NUL !in readBuf[..at.value]
    {
      var k := 0;
      while k < |readBuf|
        invariant k <= |readBuf| && NUL !in readBuf[..k]
      {
        if readBuf[k] == NUL {
          return Some(k);
        }
        k := k + 1;
      }
      return None;
    }

    /** `recv_client`, `recv_server`. Between two reads the receive may be abandoned. */
    method Receive() returns (r: Outcome)
      modifies this`readBuf, this`incoming
      ensures r.Message? ==> NUL !in r.body && old(Unconsumed()) == r.body + [NUL] + Unconsumed()
      ensures r.Closed? ==> Unconsumed() == old(Unconsumed()) && NUL !in readBuf && incoming == []
      ensures r.Abandoned? ==> Unconsumed() == old(Unconsumed())
    {
      while true
        invariant Unconsumed() == old(Unconsumed())
        decreases |incoming|
      {
        var at := Position();
        if at.Some? {
          var body := readBuf[..at.value];
          assert readBuf == body + [NUL] + readBuf[at.value + 1..];
          readBuf := readBuf[at.value + 1..];
          return Message(body);
        }
        var abandoned: bool := *;
        if abandoned {
          return Abandoned;
        }
        if |incoming| == 0 {
          return Closed;
        }
        var n: nat :| 1 <= n <= |incoming| && n <= READ_SIZE;
        assert readBuf + incoming == readBuf + incoming[..n] + incoming[n..];
        readBuf, incoming := readBuf + incoming[..n], incoming[n..];
      }
    }

    /** Any number of receives, some of them abandoned: the messages come out as they were sent, in
        order, each once. */
    method ReceiveMany(tries: nat, ghost sent: seq<Bytes>, ghost partial: Bytes) returns (received: seq<Bytes>, closed: bool)
      requires NulFree(sent) && NUL !in partial && Unconsumed() == EncodeAll(sent) + partial
      modifies this`readBuf, this`incoming
      ensures received <= sent
      ensures closed ==> received == sent && readBuf == partial
    {
      received, closed := [], false;
      for k := 0 to tries
        invariant NulFree(received) && EncodeAll(received) + Unconsumed() == EncodeAll(sent) + partial
        invariant closed ==> NUL !in Unconsumed() && incoming == []
      {
        ghost var before := Unconsumed();
        var r := Receive();
        match r {
          case Message(body) =>
            EncodeOneMore(received, body);
            assert EncodeAll(received) + before == (EncodeAll(received) + (body + [NUL])) + Unconsumed();
            received := received + [body];
            closed := false;
          case Closed =>
            closed := true;
          case Abandoned =>
            closed := false;
        }
      }
      ReceivedAreFirst(received, Unconsumed(), sent, partial);
    }
  }
}
