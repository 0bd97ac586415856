/** IPv4 networks in CIDR notation (vendored-from-bore/shared.rs:605-665). */
module Cidr {

  datatype Ipv4Net = Ipv4Net(addr: bv32, prefix: nat)

  /** `from_str` admits no other prefixes. */
  predicate Valid(net: Ipv4Net) {
    net.prefix <= 32
  }

  /** `x << n`, bit by bit. */
  function ShiftLeft(x: bv32, n: nat): bv32 {
    if n == 0 then x else ShiftLeft(x, n - 1) << 1
  }

  function PrefixToMask(prefix: nat): bv32
    requires prefix <= 32
  {
    if prefix == 0 then 0 else ShiftLeft(0xFFFF_FFFF, 32 - prefix)
  }

  function Network(net: Ipv4Net): bv32
    requires Valid(net)
  {
    net.addr & PrefixToMask(net.prefix)
  }

  predicate SameUnder(mask: bv32, x: bv32, y: bv32) {
    x & mask == y & mask
  }

  predicate Contains(net: Ipv4Net, addr: bv32)
    requires Valid(net)
  {
    SameUnder(PrefixToMask(net.prefix), net.addr, addr)
  }

  predicate Overlaps(a: Ipv4Net, b: Ipv4Net)
    requires Valid(a) && Valid(b)
  {
    SameUnder(PrefixToMask(if a.prefix <= b.prefix then a.prefix else b.prefix), a.addr, b.addr)
  }

  lemma ShiftedWithin(x: bv32, y: bv32)
    requires x & y == x
    ensures (x << 1) & (y << 1) == x << 1
  {
  }

  lemma WithinTransitive(x: bv32, y: bv32, z: bv32)
    requires x & y == x && y & z == y
    ensures x & z == x
  {
  }

  lemma {:induction false} ShiftShrinks(n: nat)
    ensures ShiftLeft(0xFFFF_FFFF, n + 1) & ShiftLeft(0xFFFF_FFFF, n) == ShiftLeft(0xFFFF_FFFF, n + 1)
  {
    if n > 0 {
      ShiftShrinks(n - 1);
      ShiftedWithin(ShiftLeft(0xFFFF_FFFF, n), ShiftLeft(0xFFFF_FFFF, n - 1));
    }
  }

  lemma {:induction false} ShiftsAreNested(m: nat, n: nat)
    requires n <= m
    ensures ShiftLeft(0xFFFF_FFFF, m) & ShiftLeft(0xFFFF_FFFF, n) == ShiftLeft(0xFFFF_FFFF, m)
    decreases m
  {
    if n < m {
      ShiftsAreNested(m - 1, n);
      ShiftShrinks(m - 1);
      WithinTransitive(ShiftLeft(0xFFFF_FFFF, m), ShiftLeft(0xFFFF_FFFF, m - 1), ShiftLeft(0xFFFF_FFFF, n));
    }
  }

  /** A shorter prefix masks less. */
  lemma MasksAreNested(p: nat, q: nat)
    requires p <= q <= 32
    ensures PrefixToMask(p) & PrefixToMask(q) == PrefixToMask(p)
  {
    if p > 0 {
      ShiftsAreNested(32 - p, 32 - q);
    }
  }

  lemma SameUnderLess(small: bv32, large: bv32, x: bv32, y: bv32)
    requires small & large == small && SameUnder(large, x, y)
    ensures SameUnder(small, x, y)
  {
  }

  lemma SameUnderIsTransitive(mask: bv32, x: bv32, y: bv32, z: bv32)
    requires SameUnder(mask, y, z)
    ensures SameUnder(mask, x, y) <==> SameUnder(mask, x, z)
  {
  }

  /** The longer-prefixed network lies within the other or apart from it. */
  lemma NestedOrApart(wide: Ipv4Net, narrow: Ipv4Net, addr: bv32)
    requires Valid(wide) && Valid(narrow) && wide.prefix <= narrow.prefix && Contains(narrow, addr)
    ensures Contains(wide, addr) <==> Overlaps(wide, narrow)
  {
    MasksAreNested(wide.prefix, narrow.prefix);
    SameUnderLess(PrefixToMask(wide.prefix), PrefixToMask(narrow.prefix), narrow.addr, addr);
    SameUnderIsTransitive(PrefixToMask(wide.prefix), wide.addr, narrow.addr, addr);
  }

  ghost predicate ShareAddress(a: Ipv4Net, b: Ipv4Net)
    requires Valid(a) && Valid(b)
  {
    exists addr: bv32 :: Contains(a, addr) && Contains(b, addr)
  }

  ghost predicate Within(inner: Ipv4Net, outer: Ipv4Net)
    requires Valid(inner) && Valid(outer)
  {
    forall addr: bv32 :: Contains(inner, addr) ==> Contains(outer, addr)
  }

  lemma ContainsItself(net: Ipv4Net)
    requires Valid(net)
    ensures Contains(net, net.addr) && Contains(net, Network(net))
  {
    MaskedIsSame(PrefixToMask(net.prefix), net.addr);
  }

  lemma MaskedIsSame(mask: bv32, x: bv32)
    ensures SameUnder(mask, x, x) && SameUnder(mask, x, x & mask)
  {
  }

  lemma OverlapIsSymmetric(a: Ipv4Net, b: Ipv4Net)
    requires Valid(a) && Valid(b)
    ensures Overlaps(a, b) <==> Overlaps(b, a)
  {
    SameUnderIsSymmetric(PrefixToMask(if a.prefix <= b.prefix then a.prefix else b.prefix), a.addr, b.addr);
  }

  lemma SameUnderIsSymmetric(mask: bv32, x: bv32, y: bv32)
    ensures SameUnder(mask, x, y) <==> SameUnder(mask, y, x)
  {
  }

  lemma OverlapOfWider(wide: Ipv4Net, narrow: Ipv4Net)
    requires Valid(wide) && Valid(narrow) && wide.prefix <= narrow.prefix
    ensures Overlaps(wide, narrow) <==> ShareAddress(wide, narrow)
    ensures Overlaps(wide, narrow) <==> Within(narrow, wide)
  {
    ContainsItself(narrow);
    NestedOrApart(wide, narrow, narrow.addr);
    forall addr: bv32 | Contains(narrow, addr) ensures Contains(wide, addr) <==> Overlaps(wide, narrow) {
      NestedOrApart(wide, narrow, addr);
    }
  }

  /** Two networks overlap exactly when they share an address; overlapping is symmetric; and of two
      networks that overlap one lies within the other, the one with the longer prefix. */
  lemma OverlapMeansShared(a: Ipv4Net, b: Ipv4Net)
    requires Valid(a) && Valid(b)
    ensures Overlaps(a, b) <==> ShareAddress(a, b)
    ensures Overlaps(a, b) <==> Overlaps(b, a)
    ensures Overlaps(a, b) <==> if a.prefix <= b.prefix then Within(b, a) else Within(a, b)
  {
    OverlapIsSymmetric(a, b);
    if a.prefix <= b.prefix {
      OverlapOfWider(a, b);
    } else {
      OverlapOfWider(b, a);
      ShareIsSymmetric(a, b);
    }
  }

  lemma ShareIsSymmetric(a: Ipv4Net, b: Ipv4Net)
    requires Valid(a) && Valid(b)
    ensures ShareAddress(a, b) <==> ShareAddress(b, a)
  {
    if ShareAddress(a, b) {
      var addr: bv32 :| Contains(a, addr) && Contains(b, addr);
      assert Contains(b, addr) && Contains(a, addr);
    }
    if ShareAddress(b, a) {
      var addr: bv32 :| Contains(b, addr) && Contains(a, addr);
      assert Contains(a, addr) && Contains(b, addr);
    }
  }
}
