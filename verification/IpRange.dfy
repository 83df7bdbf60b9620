/** Client address matching for host entries: CIDR masks, range tests, and IPv4 entries promoted for
    IPv6 clients. An IPv4 address is held by value (after ntohl), an IPv6 address as its 16 bytes. */
module IpRange {
  import opened Options
  import opened Numbers

  datatype Family = Inet | Inet6 | OtherFamily
  datatype SockAddr = V4(addr: bv32) | V6(bytes: seq<bv8>) | Unix {
    function Family(): Family { if V4? then Inet else if V6? then Inet6 else OtherFamily }
    ghost predicate WellFormed() { V6? ==> |bytes| == 16 }
  }

  // ---------------------------------------------------------------------------------------
  // Prefixes of addresses, bit by bit
  // ---------------------------------------------------------------------------------------

  /** Bit i of a byte, the high-order bit being bit 0. */
  ghost predicate ByteBit(a: bv8, i: nat)
    requires i < 8
  {
    (a >> (7 - i)) & 1 == 1
  }

  /** Bit i of an address given by its bytes in network order. */
  ghost predicate Bit(a: seq<bv8>, i: nat)
    requires i < 8 * |a|
  {
    ByteBit(a[i / 8], i % 8)
  }

  /** Section 3.1 of RFC 4632: the first k bits of the two addresses are the same. */
  ghost predicate SamePrefix(a: seq<bv8>, b: seq<bv8>, k: nat)
    requires |a| == |b| && k <= 8 * |a|
  {
    forall i :: 0 <= i < k ==> Bit(a, i) == Bit(b, i)
  }

  /** The bytes of an IPv4 address in network order. */
  function BytesOf(v: bv32): (b: seq<bv8>)
    ensures |b| == 4
  {
    [((v >> 24) & 0xff) as bv8, ((v >> 16) & 0xff) as bv8, ((v >> 8) & 0xff) as bv8, (v & 0xff) as bv8]
  }

  function ValueOf(b: seq<bv8>): bv32
    requires |b| == 4
  {
    (b[0] as bv32 << 24) | (b[1] as bv32 << 16) | (b[2] as bv32 << 8) | (b[3] as bv32)
  }

  lemma BytesOfValue(b: seq<bv8>)
    requires |b| == 4
    ensures BytesOf(ValueOf(b)) == b
  {
  }

  // ---------------------------------------------------------------------------------------
  // Masks
  // ---------------------------------------------------------------------------------------

  function Mask4(bits: nat): bv32
    requires bits <= 32
  {
    if bits > 0 then (0xffff_ffff as bv32) << (32 - bits) else 0
  }

  function MaskByte(bits: int): bv8 {
    if bits <= 0 then 0 else if bits >= 8 then 0xff else (0xff as bv8) << (8 - bits)
  }

  function Mask6(bits: nat): (m: seq<bv8>)
    ensures |m| == 16
  {
    seq(16, i => MaskByte(bits - 8 * i))
  }

  /** SockAddr_cidr_mask, on the text after the slash of a host entry. */
  method CidrMask(numbits: string, family: Family) returns (mask: Option<SockAddr>)
    ensures var bits := Strtol(numbits);
            mask.Some? <==> bits.Some? && 0 <= bits.value &&
                            ((family == Inet && bits.value <= 32) || (family == Inet6 && bits.value <= 128))
    ensures mask.Some? ==> mask.value == if family == Inet then V4(Mask4(Strtol(numbits).value)) else V6(Mask6(Strtol(numbits).value))
  {
    var bits := Strtol(numbits);
    hide Strtol;
    if bits == None { return None; }
    match family
    case Inet =>
      if bits.value < 0 || bits.value > 32 { return None; }
      var maskl: bv32 := 0;
      if bits.value > 0 {
        maskl := (0xffff_ffff as bv32) << (32 - bits.value);
      }
      mask := Some(V4(maskl));
    case Inet6 =>
      var rest := bits.value;
      if rest < 0 || rest > 128 { return None; }
      var m := new bv8[16];
      for i := 0 to 16
        invariant rest == bits.value - 8 * i
        invariant forall k :: 0 <= k < i ==> m[k] == MaskByte(bits.value - 8 * k)
      {
        if rest <= 0 {
          m[i] := 0;
        } else if rest >= 8 {
          m[i] := 0xff;
        } else {
          m[i] := (0xff as bv8) << (8 - rest);
        }
        rest := rest - 8;
      }
      assert m[..] == Mask6(bits.value);
      mask := Some(V6(m[..]));
    case OtherFamily => mask := None;
  }

  // ---------------------------------------------------------------------------------------
  // Range tests
  // ---------------------------------------------------------------------------------------

  predicate InRange4(addr: bv32, netaddr: bv32, netmask: bv32) {
    (addr ^ netaddr) & netmask == 0
  }

  predicate ByteInRange(addr: bv8, netaddr: bv8, netmask: bv8) {
    (addr ^ netaddr) & netmask == 0
  }

  predicate InRange6(addr: seq<bv8>, netaddr: seq<bv8>, netmask: seq<bv8>)
    requires |addr| == |netaddr| == |netmask|
  {
    forall i :: 0 <= i < |addr| ==> ByteInRange(addr[i], netaddr[i], netmask[i])
  }

  method RangeSockAddrInet6(addr: seq<bv8>, netaddr: seq<bv8>, netmask: seq<bv8>) returns (inside: bool)
    requires |addr| == |netaddr| == |netmask| == 16
    ensures inside == InRange6(addr, netaddr, netmask)
  {
    for i := 0 to 16
      invariant forall k :: 0 <= k < i ==> ByteInRange(addr[k], netaddr[k], netmask[k])
    {
      if (addr[i] ^ netaddr[i]) & netmask[i] != 0 { return false; }
    }
    inside := true;
  }

  /** One masked byte compares the leading bits of the byte, as many as the mask has left. */
  lemma ByteMatch(a: bv8, b: bv8, bits: int)
    ensures ByteInRange(a, b, MaskByte(bits)) <==> forall i :: 0 <= i < 8 && i < bits ==> ByteBit(a, i) == ByteBit(b, i)
  {
    ByteMatchBits(a, b, bits);
  }

  lemma ByteMatchBits(a: bv8, b: bv8, bits: int)
    ensures ByteInRange(a, b, MaskByte(bits)) <==>
            (0 < bits ==> ByteBit(a, 0) == ByteBit(b, 0)) && (1 < bits ==> ByteBit(a, 1) == ByteBit(b, 1)) &&
            (2 < bits ==> ByteBit(a, 2) == ByteBit(b, 2)) && (3 < bits ==> ByteBit(a, 3) == ByteBit(b, 3)) &&
            (4 < bits ==> ByteBit(a, 4) == ByteBit(b, 4)) && (5 < bits ==> ByteBit(a, 5) == ByteBit(b, 5)) &&
            (6 < bits ==> ByteBit(a, 6) == ByteBit(b, 6)) && (7 < bits ==> ByteBit(a, 7) == ByteBit(b, 7))
  {
  }

  // The byte-wise test with the mask bytes of a prefix of length k, for addresses of any number of bytes.
  lemma PrefixMatches(addr: seq<bv8>, net: seq<bv8>, mask: seq<bv8>, k: nat)
    requires |addr| == |net| == |mask| && k <= 8 * |addr|
    requires forall j :: 0 <= j < |mask| ==> mask[j] == MaskByte(k - 8 * j)
    ensures InRange6(addr, net, mask) <==> SamePrefix(addr, net, k)
  {
    hide MaskByte, ByteBit, ByteInRange;
    forall j | 0 <= j < |addr|
      ensures ByteInRange(addr[j], net[j], mask[j]) <==>
              forall i :: 0 <= i < 8 && i < k - 8 * j ==> ByteBit(addr[j], i) == ByteBit(net[j], i)
    {
      ByteMatch(addr[j], net[j], k - 8 * j);
    }
    if InRange6(addr, net, mask) {
      forall i | 0 <= i < k ensures Bit(addr, i) == Bit(net, i) {
        var j := i / 8;
        assert ByteInRange(addr[j], net[j], mask[j]);
      }
    }
    if SamePrefix(addr, net, k) {
      forall j | 0 <= j < |addr| ensures ByteInRange(addr[j], net[j], mask[j]) {
        forall i | 0 <= i < 8 && i < k - 8 * j ensures ByteBit(addr[j], i) == ByteBit(net[j], i) {
          assert (8 * j + i) / 8 == j && (8 * j + i) % 8 == i;
          assert Bit(addr, 8 * j + i) == Bit(net, 8 * j + i);
        }
      }
    }
  }

  /** An IPv6 client is in the range of net/k exactly when its first k bits are the network's. */
  lemma Cidr6Matches(addr: seq<bv8>, net: seq<bv8>, k: nat)
    requires |addr| == |net| == 16 && k <= 128
    ensures InRange6(addr, net, Mask6(k)) <==> SamePrefix(addr, net, k)
  {
    PrefixMatches(addr, net, Mask6(k), k);
  }

  // The word test is the four byte tests.
  lemma WordIsBytes(a: bv32, b: bv32, m: bv32)
    ensures InRange4(a, b, m) <==>
            var x, y, z := BytesOf(a), BytesOf(b), BytesOf(m);
            ByteInRange(x[0], y[0], z[0]) && ByteInRange(x[1], y[1], z[1]) &&
            ByteInRange(x[2], y[2], z[2]) && ByteInRange(x[3], y[3], z[3])
  {
  }

  lemma Range4IsBytewise(a: bv32, b: bv32, m: bv32)
    ensures InRange4(a, b, m) <==> InRange6(BytesOf(a), BytesOf(b), BytesOf(m))
  {
    WordIsBytes(a, b, m);
    hide InRange4, ByteInRange, BytesOf;
  }

  lemma Mask4Bytes(k: nat)
    requires k <= 32
    ensures BytesOf(Mask4(k)) == [MaskByte(k), MaskByte(k - 8), MaskByte(k - 16), MaskByte(k - 24)]
  {
  }

  /** An IPv4 client is in the range of net/k exactly when its first k bits are the network's. */
  lemma Cidr4Matches(addr: bv32, net: bv32, k: nat)
    requires k <= 32
    ensures InRange4(addr, net, Mask4(k)) <==> SamePrefix(BytesOf(addr), BytesOf(net), k)
  {
    hide *;
    Range4IsBytewise(addr, net, Mask4(k));
    Mask4Bytes(k);
    PrefixMatches(BytesOf(addr), BytesOf(net), BytesOf(Mask4(k)), k);
  }

  // ---------------------------------------------------------------------------------------
  // IPv4 entries for IPv6 clients
  // ---------------------------------------------------------------------------------------

  /** Section 2.5.5.2 of RFC 4291: ten zero bytes, two of ones, then the IPv4 address. */
  ghost predicate IsV4Mapped(c: seq<bv8>)
    requires |c| == 16
  {
    (forall i :: 0 <= i < 10 ==> c[i] == 0) && c[10] == 0xff && c[11] == 0xff
  }

  function Mapped(v: bv32): (c: seq<bv8>)
    ensures |c| == 16
  {
    seq(10, _ => 0) + [0xff, 0xff] + BytesOf(v)
  }

  function PromotedMask(v: bv32): (c: seq<bv8>)
    ensures |c| == 16
  {
    seq(12, _ => 0xff) + BytesOf(v)
  }

  method PromoteV4ToV6Addr(ip4addr: bv32) returns (addr: seq<bv8>)
    ensures addr == Mapped(ip4addr)
  {
    var a := new bv8[16](_ => 0);
    a[10] := 0xff;
    a[11] := 0xff;
    a[12] := ((ip4addr >> 24) & 0xff) as bv8;
    a[13] := ((ip4addr >> 16) & 0xff) as bv8;
    a[14] := ((ip4addr >> 8) & 0xff) as bv8;
    a[15] := (ip4addr & 0xff) as bv8;
    addr := a[..];
  }

  method PromoteV4ToV6Mask(ip4addr: bv32) returns (mask: seq<bv8>)
    ensures mask == PromotedMask(ip4addr)
  {
    var a := new bv8[16](_ => 0);
    for i := 0 to 12
      invariant forall k :: 0 <= k < i ==> a[k] == 0xff
    {
      a[i] := 0xff;
    }
    a[12] := ((ip4addr >> 24) & 0xff) as bv8;
    a[13] := ((ip4addr >> 16) & 0xff) as bv8;
    a[14] := ((ip4addr >> 8) & 0xff) as bv8;
    a[15] := (ip4addr & 0xff) as bv8;
    mask := a[..];
  }

  /** Promoting the mask of an IPv4 /k gives the mask of an IPv6 /(96 + k). */
  lemma PromotedMaskIsCidr(k: nat)
    requires k <= 32
    ensures PromotedMask(Mask4(k)) == Mask6(96 + k)
  {
    Mask4Bytes(k);
    var p, m := PromotedMask(Mask4(k)), Mask6(96 + k);
    hide BytesOf;
    forall i | 0 <= i < 16 ensures p[i] == m[i] {
      if i >= 12 { assert p[i] == BytesOf(Mask4(k))[i - 12]; }
    }
  }

  lemma FullMask(a: bv8, b: bv8)
    ensures ByteInRange(a, b, 0xff) <==> a == b
  {
  }

  /** An IPv6 client matches a promoted entry exactly when its address is IPv4-mapped and the IPv4
      part matches the entry as it was before promotion; any mask will do. */
  lemma PromotedEntryMatches(client: seq<bv8>, net: bv32, mask: bv32)
    requires |client| == 16
    ensures InRange6(client, Mapped(net), PromotedMask(mask)) <==>
            IsV4Mapped(client) && InRange4(ValueOf(client[12..]), net, mask)
  {
    var n, m, v := Mapped(net), PromotedMask(mask), ValueOf(client[12..]);
    BytesOfValue(client[12..]);
    Range4IsBytewise(v, net, mask);
    FullMaskAll();
    hide ByteInRange, InRange4, BytesOf, ValueOf;
    assert forall i :: 12 <= i < 16 ==> n[i] == BytesOf(net)[i - 12] && m[i] == BytesOf(mask)[i - 12] && client[i] == BytesOf(v)[i - 12];
    assert InRange6(client, n, m) <==>
           (forall i :: 0 <= i < 12 ==> client[i] == n[i]) && InRange6(BytesOf(v), BytesOf(net), BytesOf(mask)) by {
      if InRange6(client, n, m) {
        forall j | 0 <= j < 4 ensures ByteInRange(BytesOf(v)[j], BytesOf(net)[j], BytesOf(mask)[j]) {
          assert ByteInRange(client[j + 12], n[j + 12], m[j + 12]);
        }
        forall i | 0 <= i < 12 ensures client[i] == n[i] {
          assert ByteInRange(client[i], n[i], m[i]);
        }
      }
    }
  }

  lemma FullMaskAll()
    ensures forall a, b :: ByteInRange(a, b, 0xff) <==> a == b
  {
    forall a, b ensures ByteInRange(a, b, 0xff) <==> a == b {
      FullMask(a, b);
    }
  }

  // ---------------------------------------------------------------------------------------
  // The address part of a host entry
  // ---------------------------------------------------------------------------------------

  ghost predicate EntryMatches(client: SockAddr, net: SockAddr, mask: SockAddr)
    requires client.WellFormed() && net.WellFormed() && mask.WellFormed()
  {
    match (client, net, mask)
    case (V4(c), V4(n), V4(m)) => InRange4(c, n, m)
    case (V6(c), V6(n), V6(m)) => InRange6(c, n, m)
    case (V6(c), V4(n), V4(m)) => IsV4Mapped(c) && InRange4(ValueOf(c[12..]), n, m)
    case _ => false
  }

  /** The matching part of a host line whose address and mask have the same family. */
  method MatchHostEntry(client: SockAddr, net: SockAddr, mask: SockAddr) returns (matches: bool)
    requires client.WellFormed() && net.WellFormed() && mask.WellFormed() && net.Family() == mask.Family() && !net.Unix?
    ensures matches == EntryMatches(client, net, mask)
  {
    hide InRange4, ByteInRange, BytesOf, ValueOf;
    var a, m := net, mask;
    if net.Family() != client.Family() {
      if net.V4? && client.V6? {
        var a6 := PromoteV4ToV6Addr(net.addr);
        var m6 := PromoteV4ToV6Mask(mask.addr);
        PromotedEntryMatches(client.bytes, net.addr, mask.addr);
        a, m := V6(a6), V6(m6);
      } else {
        return false;
      }
    }
    if client.V4? {
      matches := InRange4(client.addr, a.addr, m.addr);
    } else if client.V6? {
      matches := RangeSockAddrInet6(client.bytes, a.bytes, m.bytes);
    } else {
      matches := false;
    }
  }

  /** A client gets the same answer from an IPv4 entry whether it comes in over IPv4 or as an
      IPv4-mapped address over IPv6. */
  lemma MappedClientMatchesAlike(v: bv32, net: bv32, mask: bv32)
    ensures EntryMatches(V6(Mapped(v)), V4(net), V4(mask)) <==> EntryMatches(V4(v), V4(net), V4(mask))
  {
    assert Mapped(v)[12..] == BytesOf(v);
    ValueOfBytes(v);
  }

  /** An entry net/k takes the clients whose first k bits are the network's; an IPv4 entry those IPv6 clients
      also whose address is that of such an IPv4 client behind ten zero bytes and two of ones; an IPv6 entry no
      IPv4 client. */
  lemma CidrEntryMatches(v: bv32, net: bv32, c: seq<bv8>, net6: seq<bv8>, k: nat)
    requires |c| == |net6| == 16 && k <= 128
    ensures k <= 32 ==> (EntryMatches(V4(v), V4(net), V4(Mask4(k))) <==> SamePrefix(BytesOf(v), BytesOf(net), k))
    ensures k <= 32 ==> (EntryMatches(V6(c), V4(net), V4(Mask4(k))) <==>
                           SamePrefix(c[12..], BytesOf(net), k) && c[10] == c[11] == 0xff && forall i :: 0 <= i < 10 ==> c[i] == 0)
    ensures EntryMatches(V6(c), V6(net6), V6(Mask6(k))) <==> SamePrefix(c, net6, k)
    ensures !EntryMatches(V4(v), V6(net6), V6(Mask6(k)))
  {
    if k <= 32 {
      Cidr4Matches(v, net, k);
      Cidr4Matches(ValueOf(c[12..]), net, k);
      BytesOfValue(c[12..]);
    }
    Cidr6Matches(c, net6, k);
    hide InRange4, InRange6, BytesOf, ValueOf, Mask4, Mask6, SamePrefix;
  }

  /** The bytes of 10.1.2.3 stand in this order, and 10.1/16 and 10.129/16 share their first eight bits only. */
  lemma NetworkOrder()
    ensures BytesOf(0x0a010203) == [10, 1, 2, 3] && Mask4(8) == 0xff00_0000
    ensures SamePrefix([10, 1], [10, 129], 8) && !SamePrefix([10, 1], [10, 129], 9)
  {
    var a: seq<bv8>, b: seq<bv8> := [10, 1], [10, 129];
    assert a[1] == 1 && b[1] == 129;
    assert ByteBit(129, 0) && !ByteBit(1, 0);
    hide ByteBit;
    assert Bit(a, 8) != Bit(b, 8);
  }

  lemma ValueOfBytes(v: bv32)
    ensures ValueOf(BytesOf(v)) == v
  {
  }
}
