/** Relative paths as they travel in a manifest: every component in hexadecimal, joined by slashes;
    the branches for Unix (vendored-from-bore/transfer.rs:3136-3216, 3257-3263).

    A path is its bytes, and like the program's paths it is compared by its components. */
module PathCodec {
  import opened Common

  type Path = Bytes
  type Name = Bytes
  type Encoded = string

  const SLASH: byte := 0x2F
  const DOT: byte := 0x2E
  datatype Component = RootDir | CurDir | ParentDir | Normal(name: Name)

  datatype PathError = NotNormal | EmptyPart

  // ---------------------------------------------------------------------------- split and join

  /** `split(sep)`: never empty, and one more part than separators. */
  function Split<T(==)>(s: seq<T>, sep: T): (parts: seq<seq<T>>)
    ensures |parts| > 0
  {
    if |s| == 0 then [[]]
    else
      var rest := Split(s[1..], sep);
      if s[0] == sep then [[]] + rest else [[s[0]] + rest[0]] + rest[1..]
  }

  function Join<T>(parts: seq<seq<T>>, sep: T): seq<T> {
    if |parts| == 0 then []
    else if |parts| == 1 then parts[0]
    else parts[0] + [sep] + Join(parts[1..], sep)
  }

  lemma {:induction false} SplitPart<T>(part: seq<T>, s: seq<T>, sep: T)
    requires sep !in part
    ensures Split(part + s, sep) == [part + Split(s, sep)[0]] + Split(s, sep)[1..]
  {
    if |part| == 0 {
      assert part + s == s && part + Split(s, sep)[0] == Split(s, sep)[0];
    } else {
      assert (part + s)[1..] == part[1..] + s;
      SplitPart(part[1..], s, sep);
      assert [part[0]] + (part[1..] + Split(s, sep)[0]) == part + Split(s, sep)[0];
    }
  }

  /** Splitting undoes joining, for parts without the separator. */
  lemma {:induction false} SplitJoin<T>(parts: seq<seq<T>>, sep: T)
    requires |parts| > 0 && forall k :: 0 <= k < |parts| ==> sep !in parts[k]
    ensures Split(Join(parts, sep), sep) == parts
  {
    if |parts| == 1 {
      SplitPart(parts[0], [], sep);
      assert parts[0] + [] == parts[0] && [parts[0]] == parts;
    } else {
      var rest := [sep] + Join(parts[1..], sep);
      SplitJoin(parts[1..], sep);
      SplitPart(parts[0], rest, sep);
      assert rest[1..] == Join(parts[1..], sep);
      assert Split(rest, sep) == [[]] + parts[1..];
      assert parts[0] + [] == parts[0] && [parts[0]] + parts[1..] == parts;
      assert Join(parts, sep) == parts[0] + rest;
    }
  }

  lemma {:induction false} JoinLast<T>(parts: seq<seq<T>>, last: seq<T>, sep: T)
    requires |parts| > 0
    ensures Join(parts + [last], sep) == Join(parts, sep) + [sep] + last
  {
    if |parts| == 1 {
      assert (parts + [last])[1..] == [last];
    } else {
      assert (parts + [last])[1..] == parts[1..] + [last];
      JoinLast(parts[1..], last, sep);
    }
  }

  // ------------------------------------------------------------------------------- hexadecimal

  function HexDigit(n: int): char
    requires 0 <= n < 16
  {
    "0123456789abcdef"[n]
  }

  function DigitValue(c: char): (r: Option<int>)
    ensures r.Some? ==> 0 <= r.value < 16
  {
    if '0' <= c <= '9' then Some(c as int - '0' as int)
    else if 'a' <= c <= 'f' then Some(c as int - 'a' as int + 10)
    else if 'A' <= c <= 'F' then Some(c as int - 'A' as int + 10)
    else None
  }

  /** `hex::encode` */
  function HexEncode(bytes: Bytes): Encoded {
    if |bytes| == 0 then ""
    else [HexDigit(bytes[0] as int / 16), HexDigit(bytes[0] as int % 16)] + HexEncode(bytes[1..])
  }

  /** `hex::decode`: both cases are read, an odd length or any other character is an error. */
  function HexDecode(text: Encoded): Option<Bytes> {
    if |text| == 0 then Some([])
    else if |text| == 1 then None
    else
      var high, low, rest := DigitValue(text[0]), DigitValue(text[1]), HexDecode(text[2..]);
      if high.Some? && low.Some? && rest.Some? then Some([(high.value * 16 + low.value) as byte] + rest.value) else None
  }

  lemma DigitRoundTrip(n: int)
    requires 0 <= n < 16
    ensures DigitValue(HexDigit(n)) == Some(n)
  {
  }

  lemma DigitsRoundTrip(b: byte)
    ensures DigitValue(HexDigit(b as int / 16)) == Some(b as int / 16)
    ensures DigitValue(HexDigit(b as int % 16)) == Some(b as int % 16)
    ensures ((b as int / 16) * 16 + b as int % 16) as byte == b
  {
    DigitRoundTrip(b as int / 16);
    DigitRoundTrip(b as int % 16);
  }

  lemma {:induction false} HexRoundTrip(bytes: Bytes)
    ensures HexDecode(HexEncode(bytes)) == Some(bytes)
  {
    if |bytes| > 0 {
      HexRoundTrip(bytes[1..]);
      assert HexEncode(bytes)[2..] == HexEncode(bytes[1..]);
      DigitsRoundTrip(bytes[0]);
      assert [bytes[0]] + bytes[1..] == bytes;
    }
  }

  lemma {:induction false} HexHasNoSlash(bytes: Bytes)
    ensures '/' !in HexEncode(bytes)
  {
    if |bytes| > 0 {
      HexHasNoSlash(bytes[1..]);
    }
  }

  // ------------------------------------------------------------------------- text and its bytes

  predicate Continues(s: Bytes, k: nat) {
    k < |s| && 0x80 <= s[k] <= 0xBF
  }

  /** How many bytes the well-formed sequence at `k` has; 0 if there is none. */
  function Utf8Width(s: Bytes, k: nat): (width: nat)
    requires k < |s|
    ensures k + width <= |s|
  {
    var b := s[k];
    if b <= 0x7F then 1
    else if 0xC2 <= b <= 0xDF && Continues(s, k + 1) then 2
    else if 0xE0 <= b <= 0xEF && Continues(s, k + 1) && Continues(s, k + 2)
      && (b == 0xE0 ==> s[k + 1] >= 0xA0) && (b == 0xED ==> s[k + 1] <= 0x9F) then 3
    else if 0xF0 <= b <= 0xF4 && Continues(s, k + 1) && Continues(s, k + 2) && Continues(s, k + 3)
      && (b == 0xF0 ==> s[k + 1] >= 0x90) && (b == 0xF4 ==> s[k + 1] <= 0x8F) then 4
    else 0
  }

  predicate Utf8From(s: Bytes, k: nat)
    requires k <= |s|
    decreases |s| - k
  {
    k == |s| || (Utf8Width(s, k) > 0 && Utf8From(s, k + Utf8Width(s, k)))
  }

  /** `from_utf8` succeeds. */
  predicate IsUtf8(s: Bytes) {
    Utf8From(s, 0)
  }

  function ScalarWidth(n: nat): nat {
    if n < 0x80 then 1 else if n < 0x800 then 2 else if n < 0x10000 then 3 else 4
  }

  /** The byte of a scalar value that has `below` more bytes after it: six bits each, and a lead. */
  function ScalarByte(n: nat, lead: bool, below: nat): byte
    requires n < 0x110000 && below < 4 && (lead ==> below == ScalarWidth(n) - 1)
  {
    var bits := if below == 0 then n else if below == 1 then n / 0x40 else if below == 2 then n / 0x1000 else n / 0x40000;
    var mark := if below == 0 then 0 else if below == 1 then 0xC0 else if below == 2 then 0xE0 else 0xF0;
    (if lead then mark + bits else 0x80 + bits % 0x40) as byte
  }

  function ScalarBytes(n: nat): Bytes
    requires n < 0x110000
  {
    seq(ScalarWidth(n), i requires 0 <= i < ScalarWidth(n) => ScalarByte(n, i == 0, ScalarWidth(n) - 1 - i))
  }

  /** The bytes of a string. */
  function TextBytes(text: string): Bytes {
    if |text| == 0 then [] else ScalarBytes(text[0] as int) + TextBytes(text[1..])
  }

  // -------------------------------------------------------------------------------- components

  function EncodeComponent(name: Name): Encoded {
    (if IsUtf8(name) then "u:" else "b:") + HexEncode(name)
  }

  predicate Tagged(encoded: Encoded, tag: char) {
    |encoded| >= 2 && encoded[0] == tag && encoded[1] == ':'
  }

  /** Every string decodes to some component, the unreadable ones to a telling name. */
  function DecodeComponent(encoded: Encoded): Name {
    if Tagged(encoded, 'u') then
      var bytes := HexDecode(encoded[2..]);
      if bytes.Some? && IsUtf8(bytes.value) then bytes.value else TextBytes("_bore_bad_utf8_" + encoded[2..])
    else if Tagged(encoded, 'b') then
      var bytes := HexDecode(encoded[2..]);
      if bytes.Some? then bytes.value else []
    else TextBytes("_bore_invalid_" + encoded)
  }

  lemma ComponentRoundTrip(name: Name)
    ensures DecodeComponent(EncodeComponent(name)) == name
    ensures '/' !in EncodeComponent(name) && |EncodeComponent(name)| > 0
  {
    HexRoundTrip(name);
    HexHasNoSlash(name);
    var tag := if IsUtf8(name) then "u:" else "b:";
    assert tag <= EncodeComponent(name) && tag[0] == EncodeComponent(name)[0];
    assert EncodeComponent(name)[..2] == tag && EncodeComponent(name)[2..] == HexEncode(name);
    assert '/' !in tag;
  }

  // ------------------------------------------------------------------------------------- paths

  /** `Path::components`, for what lies between the slashes: empty parts are skipped, and so is a
      dot, unless the path starts with it. */
  function PartComponents(parts: seq<Bytes>, first: bool): seq<Component> {
    if |parts| == 0 then []
    else
      var rest := PartComponents(parts[1..], false);
      if parts[0] == [] then rest
      else if parts[0] == [DOT] then (if first then [CurDir] + rest else rest)
      else if parts[0] == [DOT, DOT] then [ParentDir] + rest
      else [Normal(parts[0])] + rest
  }

  function Components(path: Path): seq<Component> {
    if |path| == 0 then []
    else if path[0] == SLASH then [RootDir] + PartComponents(Split(path, SLASH), true)
    else PartComponents(Split(path, SLASH), true)
  }

  predicate SamePath(p: Path, q: Path) {
    Components(p) == Components(q)
  }

  predicate AllNormal(components: seq<Component>) {
    forall k :: 0 <= k < |components| ==> components[k].Normal?
  }

  function Names(components: seq<Component>): (names: seq<Name>)
    requires AllNormal(components)
    ensures |names| == |components| && forall k :: 0 <= k < |names| ==> names[k] == components[k].name
  {
    if |components| == 0 then [] else [components[0].name] + Names(components[1..])
  }

  /** What a component of a path can be called. */
  predicate NormalName(name: Name) {
    name != [] && name != [DOT] && name != [DOT, DOT] && SLASH !in name
  }

  predicate NormalNames(names: seq<Name>) {
    forall k :: 0 <= k < |names| ==> NormalName(names[k])
  }

  /** `PathBuf::push` */
  function Push(path: Path, part: Bytes): Path {
    if |part| > 0 && part[0] == SLASH then part
    else if |path| > 0 && path[|path| - 1] != SLASH then path + [SLASH] + part
    else path + part
  }

  function EncodedNames(names: seq<Name>): (parts: seq<Encoded>)
    ensures |parts| == |names|
  {
    if |names| == 0 then [] else [EncodeComponent(names[0])] + EncodedNames(names[1..])
  }

  lemma {:induction false} EncodedAt(names: seq<Name>, k: nat)
    requires k < |names|
    ensures EncodedNames(names)[k] == EncodeComponent(names[k])
  {
    if k > 0 {
      EncodedAt(names[1..], k - 1);
    }
  }

  function EncodeRelative(path: Path): Result<Encoded, PathError> {
    var components := Components(path);
    if AllNormal(components) then Ok(Join(EncodedNames(Names(components)), '/')) else Err(NotNormal)
  }

  /** The path made of the first `k` parts. */
  function PushAll(parts: seq<Encoded>, k: nat): Path
    requires k <= |parts|
  {
    if k == 0 then [] else Push(PushAll(parts, k - 1), DecodeComponent(parts[k - 1]))
  }

  predicate NoEmptyPart(parts: seq<Encoded>) {
    forall k :: 0 <= k < |parts| ==> |parts[k]| > 0
  }

  function DecodeParts(parts: seq<Encoded>): Result<Path, PathError> {
    if NoEmptyPart(parts) then Ok(PushAll(parts, |parts|)) else Err(EmptyPart)
  }

  function DecodeRelative(encoded: Encoded): Result<Path, PathError> {
    if encoded == [] then Ok([]) else DecodeParts(Split(encoded, '/'))
  }

  // ------------------------------------------------------------------------- the two functions

  /** Goes through the components once and stops at the first that is not normal. */
  method EncodeRelativePath(path: Path) returns (r: Result<Encoded, PathError>)
    ensures r == EncodeRelative(path)
  {
    if path == [] {
      return Ok("");
    }
    var components := Components(path);
    var parts: seq<Encoded> := [];
    for k := 0 to |components|
      invariant |parts| == k
      invariant forall j :: 0 <= j < k ==> components[j].Normal? && parts[j] == EncodeComponent(components[j].name)
    {
      if !components[k].Normal? {
        return Err(NotNormal);
      }
      parts := parts + [EncodeComponent(components[k].name)];
    }
    SameParts(parts, Names(components));
    return Ok(Join(parts, '/'));
  }

  lemma SameParts(parts: seq<Encoded>, names: seq<Name>)
    requires |parts| == |names| && forall k :: 0 <= k < |parts| ==> parts[k] == EncodeComponent(names[k])
    ensures parts == EncodedNames(names)
  {
    forall k | 0 <= k < |parts| ensures parts[k] == EncodedNames(names)[k] {
      EncodedAt(names, k);
    }
  }

  /** Pushes one part after the other and stops at the first that is empty. */
  method PushParts(parts: seq<Encoded>) returns (r: Result<Path, PathError>)
    ensures r == DecodeParts(parts)
  {
    var path: Path := [];
    var k := 0;
    while k < |parts|
      invariant k <= |parts| && path == PushAll(parts, k)
      invariant forall j :: 0 <= j < k ==> |parts[j]| > 0
    {
      if |parts[k]| == 0 {
        return Err(EmptyPart);
      }
      assert forall j :: 0 <= j < k + 1 ==> |parts[j]| > 0;
      path := Push(path, DecodeComponent(parts[k]));
      k := k + 1;
    }
    return Ok(path);
  }

  method DecodeRelativePath(encoded: Encoded) returns (r: Result<Path, PathError>)
    ensures r == DecodeRelative(encoded)
  {
    if encoded == [] {
      return Ok([]);
    }
    r := PushParts(Split(encoded, '/'));
  }

  // ------------------------------------------------------------------------------ the round trip

  predicate EndsOpen(path: Path) {
    |path| > 0 && path[|path| - 1] != SLASH
  }

  lemma PushName(names: seq<Name>, k: nat, path: Path)
    requires NormalNames(names) && 0 < k <= |names|
    requires path == Join(names[..k - 1], SLASH) && (k > 1 ==> EndsOpen(path))
    ensures Push(path, names[k - 1]) == Join(names[..k], SLASH) && EndsOpen(Join(names[..k], SLASH))
  {
    assert names[..k] == names[..k - 1] + [names[k - 1]];
    if k > 1 {
      JoinLast(names[..k - 1], names[k - 1], SLASH);
    }
  }

  lemma {:induction false} PushedNames(names: seq<Name>, parts: seq<Encoded>, k: nat)
    requires NormalNames(names) && k <= |names| == |parts|
    requires forall j :: 0 <= j < |names| ==> DecodeComponent(parts[j]) == names[j]
    ensures PushAll(parts, k) == Join(names[..k], SLASH)
    ensures k > 0 ==> EndsOpen(Join(names[..k], SLASH))
  {
    if k > 0 {
      PushedNames(names, parts, k - 1);
      PushName(names, k, PushAll(parts, k - 1));
    }
  }

  lemma {:induction false} PartsAreNames(names: seq<Name>, first: bool)
    requires NormalNames(names)
    ensures var c := PartComponents(names, first);
            |c| == |names| && forall k :: 0 <= k < |names| ==> c[k] == Normal(names[k])
  {
    if |names| > 0 {
      PartsAreNames(names[1..], false);
    }
  }

  /** Joining normal names makes a path of just these components. */
  lemma JoinedComponents(names: seq<Name>)
    requires NormalNames(names)
    ensures AllNormal(Components(Join(names, SLASH))) && Names(Components(Join(names, SLASH))) == names
  {
    if |names| > 0 {
      SplitJoin(names, SLASH);
      PartsAreNames(names, true);
      assert Join(names, SLASH)[0] == names[0][0];
    }
  }

  lemma {:induction false} PartsWithoutSlash(s: Path)
    ensures forall k :: 0 <= k < |Split(s, SLASH)| ==> SLASH !in Split(s, SLASH)[k]
  {
    if |s| > 0 {
      PartsWithoutSlash(s[1..]);
    }
  }

  predicate NamesAreNormal(components: seq<Component>) {
    forall c :: c in components && c.Normal? ==> NormalName(c.name)
  }

  lemma {:induction false} ComponentsAreNormalNames(parts: seq<Bytes>, first: bool)
    requires forall k :: 0 <= k < |parts| ==> SLASH !in parts[k]
    ensures NamesAreNormal(PartComponents(parts, first))
  {
    if |parts| > 0 {
      ComponentsAreNormalNames(parts[1..], false);
    }
  }

  lemma NamesOfPathAreNormal(path: Path)
    requires AllNormal(Components(path))
    ensures NormalNames(Names(Components(path)))
  {
    PartsWithoutSlash(path);
    ComponentsAreNormalNames(Split(path, SLASH), true);
    var components := Components(path);
    assert NamesAreNormal(components);
    forall k | 0 <= k < |components| ensures NormalName(Names(components)[k]) {
      assert components[k] in components;
    }
  }

  /** Encoded names decode to the path they make up. */
  lemma DecodedNames(names: seq<Name>)
    requires NormalNames(names)
    ensures DecodeRelative(Join(EncodedNames(names), '/')) == Ok(Join(names, SLASH))
  {
    var parts := EncodedNames(names);
    if |names| > 0 {
      forall k | 0 <= k < |parts| ensures '/' !in parts[k] && parts[k] != "" && DecodeComponent(parts[k]) == names[k] {
        EncodedAt(names, k);
        ComponentRoundTrip(names[k]);
      }
      SplitJoin(parts, '/');
      assert Join(parts, '/') != "" by { assert Split<char>("", '/') == [""]; }
      PushedNames(names, parts, |names|);
      assert names[..|names|] == names;
    }
  }

  /** `decode(encode(p)) == p` for every path of normal components, whether or not they are UTF-8;
      and exactly these paths can be encoded. */
  lemma PathRoundTrip(path: Path)
    ensures EncodeRelative(path).Ok? <==> AllNormal(Components(path))
    ensures EncodeRelative(path).Ok? ==> DecodeRelative(EncodeRelative(path).value).Ok?
    ensures EncodeRelative(path).Ok? ==> SamePath(DecodeRelative(EncodeRelative(path).value).value, path)
  {
    if AllNormal(Components(path)) {
      var names := Names(Components(path));
      NamesOfPathAreNormal(path);
      DecodedNames(names);
      JoinedComponents(names);
      SameNames(Components(Join(names, SLASH)), Components(path));
    }
  }

  lemma SameNames(c: seq<Component>, d: seq<Component>)
    requires AllNormal(c) && AllNormal(d) && Names(c) == Names(d)
    ensures c == d
  {
    forall k | 0 <= k < |c| ensures c[k] == d[k] {
      assert Names(c)[k] == Names(d)[k];
    }
  }

  /** Two paths have the same encoding exactly when they are the same path. */
  lemma EncodingIsInjective(p: Path, q: Path)
    requires EncodeRelative(p).Ok? && EncodeRelative(q).Ok?
    ensures EncodeRelative(p) == EncodeRelative(q) <==> SamePath(p, q)
  {
    PathRoundTrip(p);
    PathRoundTrip(q);
  }

  // ----------------------------------------------------------------- what decoding does not keep

  /** What the manifest check lets pass: a string that decodes, to normal components only. */
  predicate NamesAPath(encoded: Encoded) {
    DecodeRelative(encoded).Ok? && AllNormal(Components(DecodeRelative(encoded).value))
  }

  predicate NameSamePath(a: Encoded, b: Encoded)
    requires NamesAPath(a) && NamesAPath(b)
  {
    SamePath(DecodeRelative(a).value, DecodeRelative(b).value)
  }

  /** The encoding of what the string decodes to. */
  function Reencoded(encoded: Encoded): Encoded
    requires NamesAPath(encoded)
  {
    EncodeRelative(DecodeRelative(encoded).value).value
  }

  predicate Canonical(encoded: Encoded) {
    NamesAPath(encoded) && Reencoded(encoded) == encoded
  }

  /** Two strings name the same path exactly when they have the same re-encoding, which names it too
      and is canonical. So among canonical strings a path has one name, and a string that is not
      canonical is a second name for its path. */
  lemma SamePathIffSameReencoding(a: Encoded, b: Encoded)
    requires NamesAPath(a) && NamesAPath(b)
    ensures NameSamePath(a, b) <==> Reencoded(a) == Reencoded(b)
    ensures Canonical(a) && Canonical(b) ==> (NameSamePath(a, b) <==> a == b)
    ensures Canonical(Reencoded(a)) && NameSamePath(a, Reencoded(a))
    ensures !Canonical(a) <==> Reencoded(a) != a
  {
    var p := DecodeRelative(a).value;
    EncodingIsInjective(p, DecodeRelative(b).value);
    PathRoundTrip(p);
    EncodingIsInjective(p, DecodeRelative(Reencoded(a)).value);
  }

  /** Canonical are exactly the strings that the sender can write. */
  lemma CanonicalIff(encoded: Encoded)
    ensures Canonical(encoded) <==> exists names :: NormalNames(names) && encoded == Join(EncodedNames(names), '/')
  {
    if Canonical(encoded) {
      var p := DecodeRelative(encoded).value;
      NamesOfPathAreNormal(p);
      assert encoded == Join(EncodedNames(Names(Components(p))), '/');
    }
    if names :| NormalNames(names) && encoded == Join(EncodedNames(names), '/') {
      DecodedNames(names);
      JoinedComponents(names);
    }
  }

  lemma OnePart(part: Encoded, name: Name)
    requires part != "" && '/' !in part && DecodeComponent(part) == name && NormalName(name)
    ensures DecodeRelative(part) == Ok(name)
  {
    SplitJoin([part], '/');
    assert PushAll([part], 1) == Push(PushAll([part], 0), name) == name;
    assert Split(part, '/') == [part] by { assert Join([part], '/') == part; }
  }

  lemma NameAndNothing(part: Encoded, nothing: Encoded, name: Name)
    requires part != "" && '/' !in part && DecodeComponent(part) == name && NormalName(name)
    requires nothing != "" && '/' !in nothing && DecodeComponent(nothing) == []
    ensures DecodeRelative(part + "/" + nothing) == Ok(name + [SLASH])
  {
    var parts := [part, nothing];
    assert parts[1..] == [nothing];
    SplitJoin(parts, '/');
    assert PushAll(parts, 1) == Push(PushAll(parts, 0), name) == name;
    assert PushAll(parts, 2) == Push(name, []) == name + [SLASH];
    assert part + "/" + nothing == Join(parts, '/');
  }

  lemma NormalPath(name: Name)
    requires NormalName(name)
    ensures Components(name) == [Normal(name)]
  {
    SplitJoin([name], SLASH);
    var parts: seq<Bytes> := [name];
    assert Join(parts, SLASH) == name && parts[1..] == [];
    assert PartComponents(parts, true) == [Normal(name)];
  }

  lemma TrailingSlash(name: Name)
    requires NormalName(name)
    ensures SamePath(name + [SLASH], name)
  {
    var two: seq<Bytes> := [name, []];
    var last: seq<Bytes> := [[]];
    SplitJoin(two, SLASH);
    NormalPath(name);
    assert two[1..] == last && last[1..] == [];
    assert name + [SLASH] == Join(two, SLASH);
    assert PartComponents(last, false) == [];
    assert PartComponents(two, true) == [Normal(name)];
  }

  lemma {:induction false} HexTextHasNoSlash(text: Encoded)
    requires HexDecode(text).Some?
    ensures '/' !in text
  {
    if |text| > 0 {
      assert |text| > 1;
      HexTextHasNoSlash(text[2..]);
      assert text[0] != '/' && text[1] != '/' by { assert DigitValue('/') == None; }
      assert text == [text[0], text[1]] + text[2..];
    }
  }

  lemma BytesTag(name: Name, text: Encoded)
    requires HexDecode(text) == Some(name)
    ensures DecodeComponent("b:" + text) == name && '/' !in "b:" + text
  {
    var part := "b:" + text;
    HexTextHasNoSlash(text);
    assert part[0] == 'b' && part[1] == ':' && part[2..] == text;
  }

  lemma ReencodedName(part: Encoded, name: Name)
    requires NormalName(name) && NamesAPath(part) && SamePath(DecodeRelative(part).value, name)
    ensures Reencoded(part) == EncodeComponent(name)
  {
    NormalPath(name);
    assert EncodedNames([name]) == [EncodeComponent(name)];
    assert Names([Normal(name)]) == [name];
  }

  /** A string of one part that decodes to the name, or of that part and one that decodes to nothing. */
  lemma NamesOnePath(part: Encoded, name: Name)
    requires part != "" && '/' !in part && DecodeComponent(part) == name && NormalName(name)
    ensures NamesAPath(part) && Reencoded(part) == EncodeComponent(name)
    ensures NamesAPath(part + "/b:") && Reencoded(part + "/b:") == EncodeComponent(name)
  {
    OnePart(part, name);
    NormalPath(name);
    ReencodedName(part, name);
    WithNothing(part, name);
    TrailingSlash(name);
    ReencodedName(part + "/b:", name);
  }

  lemma WithNothing(part: Encoded, name: Name)
    requires part != "" && '/' !in part && DecodeComponent(part) == name && NormalName(name)
    ensures DecodeRelative(part + "/b:") == Ok(name + [SLASH])
  {
    assert "b:"[2..] == "" && DecodeComponent("b:") == [];
    NameAndNothing(part, "b:", name);
    assert part + "/b:" == part + "/" + "b:";
  }

  /** Every name has several strings: digits may be in either case, a name that is UTF-8 is also read
      under the tag of those that are not, and a component that decodes to nothing disappears. So paths
      must be compared decoded. */
  lemma DecodingIsNotInjective(name: Name, text: Encoded)
    requires NormalName(name) && HexDecode(text) == Some(name)
    ensures var part := EncodeComponent(name);
            && NamesAPath(part) && NamesAPath("b:" + text) && NamesAPath(part + "/b:")
            && NameSamePath(part, "b:" + text) && NameSamePath(part, part + "/b:")
            && Canonical(part) && !Canonical(part + "/b:")
            && (Canonical("b:" + text) <==> !IsUtf8(name) && text == HexEncode(name))
  {
    var part, other := EncodeComponent(name), "b:" + text;
    ComponentRoundTrip(name);
    BytesTag(name, text);
    NamesOnePath(part, name);
    NamesOnePath(other, name);
    SamePathIffSameReencoding(part, other);
    SamePathIffSameReencoding(part, part + "/b:");
    assert part[0] == (if IsUtf8(name) then 'u' else 'b') && part[2..] == HexEncode(name);
    assert other[0] == 'b' && other[2..] == text;
  }
}
