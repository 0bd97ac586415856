/** STUN binding messages: the responder's answer and the walk over its attributes
    (vendored-from-bore/holepunch.rs:1709-1825; sections 6, 15 and 15.2 of RFC 5389). */
module Stun {
  import opened Common

  type Message = Bytes

  datatype Address = V4(ip: nat, port: nat) | V6(ip6: Message, port: nat)

  const BINDING_REQUEST: Message := [0x00, 0x01]
  const BINDING_SUCCESS: Message := [0x01, 0x01]
  const MAGIC_COOKIE: nat := 0x2112A442
  const COOKIE_PORT: nat := 0x2112
  const COOKIE: Message := [0x21, 0x12, 0xA4, 0x42]
  const XOR_MAPPED_ADDRESS: nat := 0x0020

  // ------------------------------------------------------------------- big endian, exclusive or

  function Octets(x: nat, width: nat): (octets: Message)
    ensures |octets| == width
  {
    if width == 0 then [] else Octets(x / 0x100, width - 1) + [(x % 0x100) as byte]
  }

  function ValueOf(octets: Message): nat {
    if |octets| == 0 then 0 else 0x100 * ValueOf(octets[..|octets| - 1]) + octets[|octets| - 1] as nat
  }

  function Limit(width: nat): nat {
    if width == 0 then 1 else 0x100 * Limit(width - 1)
  }

  lemma Limits()
    ensures Limit(2) == 0x1_0000 && Limit(4) == 0x1_0000_0000
  {
    assert Limit(1) == 0x100;
    assert Limit(3) == 0x100 * Limit(2);
  }

  lemma {:induction false} ValueRoundTrip(x: nat, width: nat)
    requires x < Limit(width)
    ensures ValueOf(Octets(x, width)) == x
  {
    if width > 0 {
      ValueRoundTrip(x / 0x100, width - 1);
      assert Octets(x, width)[..width - 1] == Octets(x / 0x100, width - 1);
    }
  }

  function Power2(width: nat): nat {
    if width == 0 then 1 else 2 * Power2(width - 1)
  }

  lemma Powers()
    ensures Power2(8) == 0x100 && Power2(16) == Limit(2) && Power2(32) == Limit(4)
  {
    assert Power2(4) == 0x10;
    assert Power2(8) == 0x10 * Power2(4);
    assert Power2(12) == 0x10 * Power2(8);
    assert Power2(16) == 0x10 * Power2(12);
    assert Power2(20) == 0x10 * Power2(16);
    assert Power2(24) == 0x10 * Power2(20);
    assert Power2(28) == 0x10 * Power2(24);
    assert Power2(32) == 0x10 * Power2(28);
    Limits();
  }

  /** `a ^ b` on words of this many bits, bit by bit. */
  function Xor(a: nat, b: nat, width: nat): (r: nat)
    ensures r < Power2(width)
  {
    if width == 0 then 0 else (a % 2 + b % 2) % 2 + 2 * Xor(a / 2, b / 2, width - 1)
  }

  lemma LowAndHigh(low: nat, high: nat)
    requires low < 2
    ensures (low + 2 * high) / 2 == high && (low + 2 * high) % 2 == low
  {
  }

  lemma {:induction false} XorTwice(a: nat, b: nat, width: nat)
    requires a < Power2(width)
    ensures Xor(Xor(a, b, width), b, width) == a
  {
    if width > 0 {
      var low, high := (a % 2 + b % 2) % 2, Xor(a / 2, b / 2, width - 1);
      XorTwice(a / 2, b / 2, width - 1);
      XorOfBits(low, high, b, width);
      BitTwice(a % 2, b % 2);
    }
  }

  lemma XorOfBits(low: nat, high: nat, b: nat, width: nat)
    requires low < 2 && width > 0
    ensures Xor(low + 2 * high, b, width) == (low + b % 2) % 2 + 2 * Xor(high, b / 2, width - 1)
  {
    LowAndHigh(low, high);
  }

  lemma BitTwice(a: nat, b: nat)
    requires a < 2 && b < 2
    ensures ((a + b) % 2 + b) % 2 == a
  {
  }

  // ---------------------------------------------------------------------- the mapped address

  /** What an IPv6 address is combined with. */
  function Key(txid: Message): (key: Message)
    requires |txid| == 12
    ensures |key| == 16
  {
    COOKIE + txid
  }

  function XorOctet(a: byte, b: byte): byte {
    Powers();
    Xor(a as nat, b as nat, 8) as byte
  }

  function XorAll(a: Message, b: Message): (r: Message)
    requires |a| == |b|
    ensures |r| == |a|
  {
    seq(|a|, i requires 0 <= i < |a| => XorOctet(a[i], b[i]))
  }

  lemma XorAllTwice(a: Message, b: Message)
    requires |a| == |b|
    ensures XorAll(XorAll(a, b), b) == a
  {
    forall i | 0 <= i < |a| ensures XorAll(XorAll(a, b), b)[i] == a[i] {
      Powers();
      XorTwice(a[i] as nat, b[i] as nat, 8);
    }
  }

  function XorMapped(value: Message, txid: Message): Option<Address>
    requires |txid| == 12
  {
    if |value| < 4 then None
    else
      var port := Xor(ValueOf(value[2..4]), COOKIE_PORT, 16);
      if value[1] == 0x01 && |value| >= 8 then Some(V4(Xor(ValueOf(value[4..8]), MAGIC_COOKIE, 32), port))
      else if value[1] == 0x02 && |value| >= 20 then Some(V6(XorAll(value[4..20], Key(txid)), port))
      else None
  }

  method ParseXorMapped(value: Message, txid: Message) returns (r: Option<Address>)
    requires |txid| == 12
    ensures r == XorMapped(value, txid)
  {
    if |value| < 4 {
      return None;
    }
    var port := Xor(ValueOf(value[2..4]), COOKIE_PORT, 16);
    if value[1] == 0x01 && |value| >= 8 {
      return Some(V4(Xor(ValueOf(value[4..8]), MAGIC_COOKIE, 32), port));
    }
    if value[1] == 0x02 && |value| >= 20 {
      var key := Key(txid);
      var addr := new byte[16];
      for i := 0 to 16
        invariant forall k :: 0 <= k < i ==> addr[k] == XorOctet(value[4 + k], key[k])
      {
        addr[i] := XorOctet(value[4 + i], key[i]);
      }
      assert addr[..] == XorAll(value[4..20], key);
      return Some(V6(addr[..], port));
    }
    return None;
  }

  // ------------------------------------------------------------------------------- the walk

  function Word(high: byte, low: byte): nat {
    0x100 * high as nat + low as nat
  }

  lemma TwoOctets(n: nat)
    requires n < 0x1_0000
    ensures Word(Octets(n, 2)[0], Octets(n, 2)[1]) == n
  {
    assert Octets(n, 2) == Octets(n / 0x100, 1) + [(n % 0x100) as byte];
    assert Octets(n / 0x100, 1) == Octets(0, 0) + [(n / 0x100) as byte];
  }

  function PaddedLength(n: nat): nat {
    (n + 3) / 4 * 4
  }

  /** The value of the first mapped-address attribute from `pos` on. */
  function Walk(buf: Message, pos: nat): Option<Message>
    decreases |buf| - pos
  {
    if pos + 4 > |buf| then None
    else
      var length := Word(buf[pos + 2], buf[pos + 3]);
      if pos + 4 + length > |buf| then None
      else if Word(buf[pos], buf[pos + 1]) == XOR_MAPPED_ADDRESS then Some(buf[pos + 4..pos + 4 + length])
      else Walk(buf, pos + 4 + PaddedLength(length))
  }

  predicate IsResponse(buf: Message, txid: Message) {
    |buf| >= 20 && buf[0..2] == BINDING_SUCCESS && buf[4..8] == COOKIE && buf[8..20] == txid
  }

  function Decoded(value: Option<Message>, txid: Message): Option<Address>
    requires |txid| == 12
  {
    if value.Some? then XorMapped(value.value, txid) else None
  }

  function Response(buf: Message, txid: Message): Option<Address>
    requires |txid| == 12
  {
    if IsResponse(buf, txid) then Decoded(Walk(buf, 20), txid) else None
  }

  /** The loop over the attributes. */
  method FindMapped(buf: Message) returns (value: Option<Message>)
    ensures value == Walk(buf, 20)
  {
    var pos := 20;
    while pos + 4 <= |buf|
      invariant Walk(buf, pos) == Walk(buf, 20)
      decreases |buf| - pos
    {
      var length := Word(buf[pos + 2], buf[pos + 3]);
      var start := pos + 4;
      if start + length > |buf| {
        return None;
      }
      if Word(buf[pos], buf[pos + 1]) == XOR_MAPPED_ADDRESS {
        return Some(buf[start..start + length]);
      }
      pos := start + PaddedLength(length);
    }
    return None;
  }

  method ParseResponse(buf: Message, txid: Message) returns (r: Option<Address>)
    requires |txid| == 12
    ensures r == Response(buf, txid)
  {
    if |buf| < 20 || buf[0..2] != BINDING_SUCCESS || buf[4..8] != COOKIE || buf[8..20] != txid {
      return None;
    }
    var value := FindMapped(buf);
    if value.None? {
      return None;
    }
    r := ParseXorMapped(value.value, txid);
  }

  // ------------------------------------------------------------------- messages of attributes

  datatype Attribute = Attribute(kind: nat, value: Message, padding: Message)

  /** A type of two octets, a value that fits, padding to a multiple of four. */
  predicate WellFormed(a: Attribute) {
    a.kind < 0x1_0000 && |a.value| < 0x1_0000 && |a.value| + |a.padding| == PaddedLength(|a.value|)
  }

  function EncodeAttribute(a: Attribute): (octets: Message)
    requires WellFormed(a)
    ensures |octets| == 4 + PaddedLength(|a.value|)
  {
    Octets(a.kind, 2) + Octets(|a.value|, 2) + a.value + a.padding
  }

  predicate AllWellFormed(attributes: seq<Attribute>) {
    forall k :: 0 <= k < |attributes| ==> WellFormed(attributes[k])
  }

  function Parts(attributes: seq<Attribute>): (parts: seq<Message>)
    requires AllWellFormed(attributes)
    ensures |parts| == |attributes|
  {
    if |attributes| == 0 then [] else [EncodeAttribute(attributes[0])] + Parts(attributes[1..])
  }

  function Concat(parts: seq<Message>): Message {
    if |parts| == 0 then [] else parts[0] + Concat(parts[1..])
  }

  function EncodeAttributes(attributes: seq<Attribute>): Message
    requires AllWellFormed(attributes)
  {
    Concat(Parts(attributes))
  }

  /** The first mapped address decides, even if it does not parse. */
  function FirstMapped(attributes: seq<Attribute>): Option<Message> {
    if |attributes| == 0 then None
    else if attributes[0].kind == XOR_MAPPED_ADDRESS then Some(attributes[0].value)
    else FirstMapped(attributes[1..])
  }

  predicate LiesAt(buf: Message, pos: nat, part: Message) {
    pos + |part| <= |buf| && buf[pos..pos + |part|] == part
  }

  /** What the walk reads of an attribute. */
  predicate ReadsAs(buf: Message, pos: nat, a: Attribute) {
    && pos + 4 + |a.value| <= |buf|
    && Word(buf[pos], buf[pos + 1]) == a.kind
    && Word(buf[pos + 2], buf[pos + 3]) == |a.value|
    && buf[pos + 4..pos + 4 + |a.value|] == a.value
  }

  /** The same of the octets of one attribute. */
  predicate Encodes(part: Message, a: Attribute) {
    |part| == 4 + PaddedLength(|a.value|) && ReadsAs(part, 0, a)
  }

  lemma EncodedReads(a: Attribute)
    requires WellFormed(a)
    ensures Encodes(EncodeAttribute(a), a)
  {
    var encoded := EncodeAttribute(a);
    TwoOctets(a.kind);
    TwoOctets(|a.value|);
    assert encoded[0] == Octets(a.kind, 2)[0] && encoded[1] == Octets(a.kind, 2)[1];
    assert encoded[2] == Octets(|a.value|, 2)[0] && encoded[3] == Octets(|a.value|, 2)[1];
    assert encoded[4..4 + |a.value|] == a.value;
  }

  lemma ReadInPlace(buf: Message, pos: nat, part: Message, a: Attribute)
    requires LiesAt(buf, pos, part) && Encodes(part, a)
    ensures ReadsAs(buf, pos, a)
  {
    assert forall i :: 0 <= i < |part| ==> buf[pos + i] == buf[pos..pos + |part|][i] == part[i];
  }

  lemma WalkStep(buf: Message, pos: nat, a: Attribute)
    requires ReadsAs(buf, pos, a)
    ensures Walk(buf, pos) ==
              if a.kind == XOR_MAPPED_ADDRESS then Some(a.value) else Walk(buf, pos + 4 + PaddedLength(|a.value|))
  {
  }

  /** The parts lie one after the other in the message, from `pos` to its end. */
  predicate LaidOut(buf: Message, pos: nat, parts: seq<Message>)
    decreases |parts|
  {
    if |parts| == 0 then pos == |buf| else LiesAt(buf, pos, parts[0]) && LaidOut(buf, pos + |parts[0]|, parts[1..])
  }

  lemma {:induction false} ConcatIsLaidOut(before: Message, parts: seq<Message>, buf: Message)
    requires buf == before + Concat(parts)
    ensures LaidOut(buf, |before|, parts)
    decreases |parts|
  {
    if |parts| > 0 {
      assert buf == (before + parts[0]) + Concat(parts[1..]);
      ConcatIsLaidOut(before + parts[0], parts[1..], buf);
    }
  }

  /** The attributes as the walk reads them, one after the other, from `pos` to the end. */
  predicate AllRead(buf: Message, pos: nat, attributes: seq<Attribute>)
    decreases |attributes|
  {
    if |attributes| == 0 then pos == |buf|
    else ReadsAs(buf, pos, attributes[0]) && AllRead(buf, pos + 4 + PaddedLength(|attributes[0].value|), attributes[1..])
  }

  lemma {:induction false} PartsAreRead(buf: Message, pos: nat, parts: seq<Message>, attributes: seq<Attribute>)
    requires |parts| == |attributes| && forall k :: 0 <= k < |parts| ==> Encodes(parts[k], attributes[k])
    requires LaidOut(buf, pos, parts)
    ensures AllRead(buf, pos, attributes)
    decreases |attributes|
  {
    if |attributes| > 0 {
      ReadInPlace(buf, pos, parts[0], attributes[0]);
      PartsAreRead(buf, pos + |parts[0]|, parts[1..], attributes[1..]);
    }
  }

  lemma {:induction false} PartsEncode(attributes: seq<Attribute>, k: nat)
    requires AllWellFormed(attributes) && k < |attributes|
    ensures Encodes(Parts(attributes)[k], attributes[k])
  {
    if k == 0 {
      EncodedReads(attributes[0]);
    } else {
      PartsEncode(attributes[1..], k - 1);
    }
  }

  /** The walk skips attributes of other types, whatever they hold, and stops at the first mapped
      address. */
  lemma {:induction false} WalkFindsFirst(buf: Message, pos: nat, attributes: seq<Attribute>)
    requires AllRead(buf, pos, attributes)
    ensures Walk(buf, pos) == FirstMapped(attributes)
    decreases |attributes|
  {
    if |attributes| > 0 {
      WalkStep(buf, pos, attributes[0]);
      WalkFindsFirst(buf, pos + 4 + PaddedLength(|attributes[0].value|), attributes[1..]);
    }
  }

  function Header(kind: Message, length: Message, txid: Message): Message {
    kind + length + COOKIE + txid
  }

  /** Parsing a response gives the decoding of its first mapped address; the length in its header
      does not matter. */
  lemma ResponseOfAttributes(length: Message, txid: Message, attributes: seq<Attribute>)
    requires |length| == 2 && |txid| == 12 && AllWellFormed(attributes)
    ensures Response(Header(BINDING_SUCCESS, length, txid) + EncodeAttributes(attributes), txid) == Decoded(FirstMapped(attributes), txid)
  {
    var header := Header(BINDING_SUCCESS, length, txid);
    var buf := header + EncodeAttributes(attributes);
    assert buf[0..2] == BINDING_SUCCESS && buf[4..8] == COOKIE && buf[8..20] == txid;
    ConcatIsLaidOut(header, Parts(attributes), buf);
    forall k | 0 <= k < |attributes| ensures Encodes(Parts(attributes)[k], attributes[k]) {
      PartsEncode(attributes, k);
    }
    PartsAreRead(buf, |header|, Parts(attributes), attributes);
    WalkFindsFirst(buf, |header|, attributes);
  }

  // ----------------------------------------------------------------------------- the responder

  predicate IsRequest(request: Message) {
    |request| >= 20 && request[0..2] == BINDING_REQUEST && request[4..8] == COOKIE
  }

  function MappedValue(ip: nat, port: nat): Message {
    [0, 0x01] + Octets(Xor(port, COOKIE_PORT, 16), 2) + Octets(Xor(ip, MAGIC_COOKIE, 32), 4)
  }

  function MappedAttribute(source: Address): Attribute
    requires source.V4?
  {
    Attribute(XOR_MAPPED_ADDRESS, MappedValue(source.ip, source.port), [])
  }

  /** The second half of `binding_response`. */
  method AppendMapped(message: Message, source: Address) returns (msg: Message)
    requires source.V4?
    ensures msg == message + EncodeAttribute(MappedAttribute(source))
  {
    var value := [0];
    value := value + [0x01];
    value := value + Octets(Xor(source.port, COOKIE_PORT, 16), 2);
    value := value + Octets(Xor(source.ip, MAGIC_COOKIE, 32), 4);
    assert value == MappedValue(source.ip, source.port);
    msg := message + Octets(XOR_MAPPED_ADDRESS, 2);
    msg := msg + Octets(8, 2);
    msg := msg + value;
    assert msg == message + (Octets(XOR_MAPPED_ADDRESS, 2) + Octets(8, 2) + value + []);
  }

  /** `binding_response`, appending to the message. */
  method BindingResponse(request: Message, source: Address) returns (r: Option<Message>)
    ensures r.Some? <==> IsRequest(request) && source.V4?
    ensures r.Some? ==> r.value == Header(BINDING_SUCCESS, Octets(12, 2), request[8..20]) + EncodeAttributes([MappedAttribute(source)])
  {
    if |request| < 20 || request[0..2] != BINDING_REQUEST || request[4..8] != COOKIE || !source.V4? {
      return None;
    }
    var msg := BINDING_SUCCESS;
    msg := msg + Octets(12, 2);
    msg := msg + COOKIE;
    msg := msg + request[8..20];
    msg := AppendMapped(msg, source);
    OneAttribute(MappedAttribute(source));
    return Some(msg);
  }

  lemma OneAttribute(a: Attribute)
    requires WellFormed(a)
    ensures EncodeAttributes([a]) == EncodeAttribute(a)
  {
    assert [a][1..] == [];
    assert Parts([a]) == [EncodeAttribute(a)] && Parts([a])[1..] == [];
    assert Concat([]) == [] && EncodeAttribute(a) + [] == EncodeAttribute(a);
  }

  predicate IsV4(source: Address) {
    source.V4? && source.ip < 0x1_0000_0000 && source.port < 0x1_0000
  }

  lemma WordRoundTrip(x: nat, mask: nat, octets: nat)
    requires octets == 2 || octets == 4
    requires x < Limit(octets)
    ensures Xor(ValueOf(Octets(Xor(x, mask, 8 * octets), octets)), mask, 8 * octets) == x
  {
    Powers();
    ValueRoundTrip(Xor(x, mask, 8 * octets), octets);
    XorTwice(x, mask, 8 * octets);
  }

  lemma MappedValueRoundTrip(source: Address, txid: Message)
    requires |txid| == 12 && IsV4(source)
    ensures XorMapped(MappedValue(source.ip, source.port), txid) == Some(source)
  {
    Limits();
    WordRoundTrip(source.port, COOKIE_PORT, 2);
    WordRoundTrip(source.ip, MAGIC_COOKIE, 4);
    var value := MappedValue(source.ip, source.port);
    assert value[2..4] == Octets(Xor(source.port, COOKIE_PORT, 16), 2);
    assert value[4..8] == Octets(Xor(source.ip, MAGIC_COOKIE, 32), 4);
  }

  /** The client learns the address and the port the responder saw. */
  lemma ClientLearnsItsAddress(txid: Message, source: Address, length: Message)
    requires |txid| == 12 && |length| == 2 && IsV4(source)
    ensures Response(Header(BINDING_SUCCESS, length, txid) + EncodeAttributes([MappedAttribute(source)]), txid) == Some(source)
  {
    ResponseOfAttributes(length, txid, [MappedAttribute(source)]);
    MappedValueRoundTrip(source, txid);
  }

  /** The parser also reads IPv6 addresses, which the responder never sends. */
  lemma SixteenOctetsRoundTrip(source: Address, txid: Message)
    requires |txid| == 12 && source.V6? && |source.ip6| == 16 && source.port < 0x1_0000
    ensures var value := [0, 0x02] + Octets(Xor(source.port, COOKIE_PORT, 16), 2) + XorAll(source.ip6, Key(txid));
            XorMapped(value, txid) == Some(source)
  {
    Limits();
    WordRoundTrip(source.port, COOKIE_PORT, 2);
    var value := [0, 0x02] + Octets(Xor(source.port, COOKIE_PORT, 16), 2) + XorAll(source.ip6, Key(txid));
    assert value[2..4] == Octets(Xor(source.port, COOKIE_PORT, 16), 2);
    assert value[4..20] == XorAll(source.ip6, Key(txid));
    XorAllTwice(source.ip6, Key(txid));
  }
}
