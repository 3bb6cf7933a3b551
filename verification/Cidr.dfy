/** Private networks: which CIDR entries the configuration keeps, and which addresses the
    network policy allows because of them. */
module Cidr {
  import opened Wrappers

  type Byte = bv8

  /** net.IP: 4 or 16 bytes. */
  type Address = a: seq<Byte> | |a| == 4 || |a| == 16 witness [0, 0, 0, 0]

  /** net.IPNet as ParseCIDR returns it: the network number and the length of the mask. */
  datatype Net = Net(ip: Address, prefix: nat)

  // ----- masks

  /** A byte whose first `ones` bits are set. */
  function MaskByte(ones: nat): Byte
    requires ones <= 8
  {
    [0, 128, 192, 224, 240, 248, 252, 254, 255][ones]
  }

  /** Byte `i` of the mask of length `prefix`. */
  function MaskAt(prefix: nat, i: nat): Byte {
    if prefix <= 8 * i then 0 else if prefix >= 8 * i + 8 then 255 else MaskByte(prefix - 8 * i)
  }

  predicate WellFormed(net: Net) {
    && net.prefix <= 8 * |net.ip|
    && forall i :: 0 <= i < |net.ip| ==> net.ip[i] & MaskAt(net.prefix, i) == net.ip[i]
  }

  /** The address, as its own bytes, lies in the network. */
  predicate InNet(net: Net, a: Address) {
    && |a| == |net.ip|
    && forall i :: 0 <= i < |a| ==> a[i] & MaskAt(net.prefix, i) == net.ip[i] & MaskAt(net.prefix, i)
  }

  lemma MaskByteValues(ones: nat)
    requires ones <= 8
    ensures
      var m := MaskByte(ones);
      && (ones == 0 ==> m == 0) && (ones == 1 ==> m == 128) && (ones == 2 ==> m == 192) && (ones == 3 ==> m == 224)
      && (ones == 4 ==> m == 240) && (ones == 5 ==> m == 248) && (ones == 6 ==> m == 252) && (ones == 7 ==> m == 254)
      && (ones == 8 ==> m == 255)
  {
  }

  lemma LongerMaskByte(m: nat, n: nat)
    requires m <= n <= 8
    ensures MaskByte(m) & MaskByte(n) == MaskByte(m)
  {
    MaskByteValues(m);
    MaskByteValues(n);
    hide MaskByte;
  }

  /** A longer mask has all the bits of a shorter one. */
  lemma LongerMask(p: nat, q: nat, i: nat)
    requires p <= q
    ensures MaskAt(p, i) & MaskAt(q, i) == MaskAt(p, i)
  {
    if 8 * i < p && q < 8 * i + 8 {
      LongerMaskByte(p - 8 * i, q - 8 * i);
    }
    hide MaskByte;
    var m := MaskAt(p, i);
    assert m & 0 == 0 && m & 255 == m && m & m == m;
  }

  lemma UnderShorterMask(a: Byte, b: Byte, shorter: Byte, longer: Byte)
    requires shorter & longer == shorter && a & longer == b & longer
    ensures a & shorter == b & shorter
  {
    assert a & shorter == a & (longer & shorter) == (a & longer) & shorter;
    assert b & shorter == b & (longer & shorter) == (b & longer) & shorter;
  }

  // ----- subset

  /** cidrWithinPrivateRoot for one root. */
  predicate Within(candidate: Net, root: Net) {
    |candidate.ip| == |root.ip| && candidate.prefix >= root.prefix && InNet(root, candidate.ip)
  }

  ghost predicate Subset(a: Net, b: Net) {
    forall x: Address :: InNet(a, x) ==> InNet(b, x)
  }

  lemma WithinIsSubset(candidate: Net, root: Net)
    requires Within(candidate, root)
    ensures Subset(candidate, root)
  {
    forall x: Address | InNet(candidate, x)
      ensures InNet(root, x)
    {
      forall i | 0 <= i < |x|
        ensures x[i] & MaskAt(root.prefix, i) == root.ip[i] & MaskAt(root.prefix, i)
      {
        hide MaskAt;
        LongerMask(root.prefix, candidate.prefix, i);
        UnderShorterMask(x[i], candidate.ip[i], MaskAt(root.prefix, i), MaskAt(candidate.prefix, i));
      }
    }
  }

  function BitAt(k: nat): Byte
    requires k < 8
  {
    [128, 64, 32, 16, 8, 4, 2, 1][k]
  }

  lemma FlippedBit(a: Byte, k: nat, p: nat)
    requires k < 8 && p <= 8
    ensures p <= k ==> (a ^ BitAt(k)) & MaskByte(p) == a & MaskByte(p)
    ensures p > k ==> (a ^ BitAt(k)) & MaskByte(p) != a & MaskByte(p)
  {
    MaskByteValues(p);
    BitValues(k);
    hide MaskByte, BitAt;
    var b, m := BitAt(k), MaskByte(p);
    if p <= k {
      assert b & m == 0;
      assert (a ^ b) & m == (a & m) ^ (b & m);
    } else {
      assert b & m == b && b != 0;
      assert (a ^ b) & m == (a & m) ^ (b & m);
      assert (a & m) ^ b != a & m;
    }
  }

  lemma BitValues(k: nat)
    requires k < 8
    ensures
      var b := BitAt(k);
      && (k == 0 ==> b == 128) && (k == 1 ==> b == 64) && (k == 2 ==> b == 32) && (k == 3 ==> b == 16)
      && (k == 4 ==> b == 8) && (k == 5 ==> b == 4) && (k == 6 ==> b == 2) && (k == 7 ==> b == 1)
  {
  }

  /** The address that differs from the network number in the first bit behind the mask. */
  function JustOutside(net: Net): Address
    requires net.prefix < 8 * |net.ip|
  {
    var i := net.prefix / 8;
    net.ip[i := net.ip[i] ^ BitAt(net.prefix % 8)]
  }

  lemma MaskAtPrefix(prefix: nat)
    ensures MaskAt(prefix, prefix / 8) == MaskByte(prefix % 8)
  {
    MaskByteValues(0);
    assert prefix == 8 * (prefix / 8) + prefix % 8;
  }

  lemma JustOutsideIsInside(net: Net)
    requires net.prefix < 8 * |net.ip|
    ensures InNet(net, JustOutside(net))
  {
    hide MaskAt, MaskByte, BitAt;
    MaskAtPrefix(net.prefix);
    FlippedBit(net.ip[net.prefix / 8], net.prefix % 8, net.prefix % 8);
  }

  lemma OneByteApart(root: Net, a: Address, b: Address, i: nat)
    requires InNet(root, a) && |a| == |b| && i < |a|
    requires a[i] & MaskAt(root.prefix, i) != b[i] & MaskAt(root.prefix, i)
    ensures !InNet(root, b)
  {
    hide MaskAt;
  }

  lemma MaskAtByte(prefix: nat, i: nat, ones: nat)
    requires 8 * i < prefix && ones == (if prefix >= 8 * i + 8 then 8 else prefix - 8 * i)
    ensures MaskAt(prefix, i) == MaskByte(ones)
  {
  }

  lemma JustOutsideDiffers(net: Net, ones: nat)
    requires net.prefix < 8 * |net.ip| && net.prefix % 8 < ones <= 8
    ensures |JustOutside(net)| == |net.ip|
    ensures net.ip[net.prefix / 8] & MaskByte(ones) != JustOutside(net)[net.prefix / 8] & MaskByte(ones)
  {
    hide MaskByte, BitAt;
    FlippedBit(net.ip[net.prefix / 8], net.prefix % 8, ones);
  }

  lemma JustOutsideIsDistinguished(net: Net, root: Net)
    requires |net.ip| == |root.ip| && net.prefix < root.prefix <= 8 * |root.ip| && InNet(root, net.ip)
    ensures !InNet(root, JustOutside(net))
  {
    hide MaskAt, MaskByte, JustOutside, InNet;
    var i := net.prefix / 8;
    assert net.prefix == 8 * i + net.prefix % 8;
    var ones := if root.prefix >= 8 * i + 8 then 8 else root.prefix - 8 * i;
    JustOutsideDiffers(net, ones);
    MaskAtByte(root.prefix, i, ones);
    OneByteApart(root, net.ip, JustOutside(net), i);
  }

  lemma ContainsItself(net: Net)
    ensures InNet(net, net.ip)
  {
  }

  /** The configuration's test is exactly the subset test. */
  lemma WithinExactly(candidate: Net, root: Net)
    requires WellFormed(candidate) && WellFormed(root)
    ensures Within(candidate, root) <==> Subset(candidate, root)
  {
    if Within(candidate, root) {
      WithinIsSubset(candidate, root);
    } else if Subset(candidate, root) {
      ContainsItself(candidate);
      assert InNet(root, candidate.ip);
      JustOutsideIsInside(candidate);
      JustOutsideIsDistinguished(candidate, root);
      assert false;
    }
  }

  // ----- configuration

  /** 10.0.0.0/8, 172.16.0.0/12, 192.168.0.0/16 (RFC 1918, section 3) and fc00::/7 (RFC
      4193, section 3.1). */
  const ROOTS: seq<Net> := [
    Net([10, 0, 0, 0], 8), Net([172, 16, 0, 0], 12), Net([192, 168, 0, 0], 16),
    Net([0xfc, 0, 0, 0, 0, 0, 0, 0, 0, 0, 0, 0, 0, 0, 0, 0], 7)]

  predicate WithinPrivateRoot(candidate: Net) {
    exists k :: 0 <= k < |ROOTS| && Within(candidate, ROOTS[k])
  }

  datatype Error = InvalidCIDR | NotPrivate

  /** ParseCIDR is not modelled beyond the shape of what it returns. */
  type Parser = string -> Option<Net>

  predicate Keeps(parse: Parser, text: string) {
    parse(text).Some? && WithinPrivateRoot(parse(text).value)
  }

  method CidrWithinPrivateRoot(candidate: Net) returns (within: bool)
    ensures within <==> WithinPrivateRoot(candidate)
  {
    for k := 0 to |ROOTS|
      invariant forall j :: 0 <= j < k ==> !Within(candidate, ROOTS[j])
    {
      if Within(candidate, ROOTS[k]) {
        return true;
      }
    }
    return false;
  }

  /** The entries of one environment variable, already split and trimmed.  They are accepted
      if and only if each parses and lies in a private root, and each network is kept once. */
  method LoadAllowedPrivateCIDRs(parse: Parser, entries: seq<string>) returns (r: Result<seq<Net>, Error>)
    ensures r.Ok? <==> forall i :: 0 <= i < |entries| ==> Keeps(parse, entries[i])
    ensures r.Err? ==>
      exists i :: 0 <= i < |entries|
                  && r.error == (if parse(entries[i]).None? then InvalidCIDR else NotPrivate)
                  && !Keeps(parse, entries[i]) && forall j :: 0 <= j < i ==> Keeps(parse, entries[j])
    ensures r.Ok? ==>
      && (forall net :: net in r.value <==> exists i :: 0 <= i < |entries| && parse(entries[i]) == Some(net))
      && (forall i, j :: 0 <= i < j < |r.value| ==> r.value[i] != r.value[j])
  {
    hide WithinPrivateRoot;
    var result: seq<Net> := [];
    var seen: set<Net> := {};
    for n := 0 to |entries|
      invariant forall i :: 0 <= i < n ==> Keeps(parse, entries[i])
      invariant forall net :: net in seen <==> net in result
      invariant forall net :: net in result <==> exists i :: 0 <= i < n && parse(entries[i]) == Some(net)
      invariant forall i, j :: 0 <= i < j < |result| ==> result[i] != result[j]
    {
      var network := parse(entries[n]);
      if network.None? {
        return Err(InvalidCIDR);
      }
      var within := CidrWithinPrivateRoot(network.value);
      if !within {
        return Err(NotPrivate);
      }
      if network.value !in seen {
        seen := seen + {network.value};
        result := result + [network.value];
      }
    }
    return Ok(result);
  }

  // ----- the policy

  function To4(a: Address): Option<Address> {
    if |a| == 4 then Some(a)
    else if a[..12] == [0, 0, 0, 0, 0, 0, 0, 0, 0, 0, 0xff, 0xff] then Some(a[12..])
    else None
  }

  /** Addresses are compared in their shortest form. */
  function Short(a: Address): Address {
    if To4(a).Some? then To4(a).value else a
  }

  /** net.IPNet.Contains: both sides shortened, the mask cut to the bytes that are left. */
  predicate Contains(net: Net, a: Address) {
    var number, x := Short(net.ip), Short(a);
    && |x| == |number|
    && forall i :: 0 <= i < |x| ==>
         AgreeUnder(number[i], x[i], MaskAt(net.prefix, i + |net.ip| - |number|))
  }

  predicate AgreeUnder(a: Byte, b: Byte, mask: Byte) {
    a & mask == b & mask
  }

  /** net.IP.IsPrivate. */
  predicate IsPrivate(a: Address) {
    var x := Short(a);
    if |x| == 4 then x[0] == 10 || (x[0] == 172 && x[1] & 0xf0 == 16) || (x[0] == 192 && x[1] == 168)
    else x[0] & 0xfe == 0xfc
  }

  predicate IsLoopback(a: Address) {
    var x := Short(a);
    if |x| == 4 then x[0] == 127 else x == [0, 0, 0, 0, 0, 0, 0, 0, 0, 0, 0, 0, 0, 0, 0, 1]
  }

  /** Unspecified, link-local or multicast. */
  predicate IsSpecial(a: Address) {
    var x := Short(a);
    if |x| == 4 then x == [0, 0, 0, 0] || (x[0] == 169 && x[1] == 254) || x[0] & 0xf0 == 0xe0
    else x == [0, 0, 0, 0, 0, 0, 0, 0, 0, 0, 0, 0, 0, 0, 0, 0] || (x[0] == 0xfe && x[1] & 0xc0 == 0x80) || x[0] == 0xff
  }

  predicate AddressAllowed(allowed: seq<Net>, allowLoopback: bool, a: Address) {
    if IsSpecial(a) then false
    else if IsLoopback(a) then allowLoopback
    else if !IsPrivate(a) then true
    else exists k :: 0 <= k < |allowed| && Contains(allowed[k], a)
  }

  datatype Rejection = NoAddresses | Rejected

  /** ResolveAllowed, from the resolved addresses on: all of them or none. */
  function ResolveAllowed(allowed: seq<Net>, allowLoopback: bool, addresses: seq<Address>): (r: Result<seq<Address>, Rejection>)
    ensures r.Ok? <==> addresses != [] && forall i :: 0 <= i < |addresses| ==> AddressAllowed(allowed, allowLoopback, addresses[i])
    ensures r.Ok? ==> r.value == addresses
  {
    if addresses == [] then Err(NoAddresses)
    else if forall i :: 0 <= i < |addresses| ==> AddressAllowed(allowed, allowLoopback, addresses[i]) then Ok(addresses)
    else Err(Rejected)
  }

  /** A kept network matches private addresses only, so configuration never opens anything
      that is not private. */
  lemma KeptMatchesOnlyPrivate(net: Net, a: Address)
    requires WellFormed(net) && WithinPrivateRoot(net) && Contains(net, a)
    ensures IsPrivate(a)
  {
    var k :| 0 <= k < |ROOTS| && Within(net, ROOTS[k]);
    KeptIsNotMapped(net, k);
    ShortIsShort(a);
    ContainsIsInNet(net, a);
    WithinIsSubset(net, ROOTS[k]);
    hide Contains, MaskAt, To4, Short, Within, InNet, ROOTS;
    RootsArePrivate(k, Short(a));
    PrivateIsShort(a);
  }

  lemma ContainsIsInNet(net: Net, a: Address)
    requires Short(net.ip) == net.ip && Contains(net, a)
    ensures InNet(net, Short(a))
  {
    hide MaskAt, Short;
  }

  lemma PrivateIsShort(a: Address)
    ensures IsPrivate(Short(a)) <==> IsPrivate(a)
  {
    ShortIsShort(a);
    hide Short;
  }

  lemma RootsArePrivate(k: nat, x: Address)
    requires k < |ROOTS| && InNet(ROOTS[k], x) && Short(x) == x
    ensures IsPrivate(x)
  {
  }

  /** The only 16-byte root does not hold IPv4-mapped addresses. */
  lemma KeptIsNotMapped(net: Net, k: nat)
    requires k < |ROOTS| && Within(net, ROOTS[k])
    ensures Short(net.ip) == net.ip
  {
    if |net.ip| == 16 {
      assert ROOTS[k].ip[0] == 0xfc && ROOTS[k].prefix == 7;
      assert MaskAt(7, 0) == 254;
      assert net.ip[0] & 254 == 0xfc & 254;
      assert net.ip[0] != 0;
      assert net.ip[..12][0] == net.ip[0];
    }
  }

  lemma ShortIsShort(a: Address)
    ensures Short(Short(a)) == Short(a)
  {
  }

  /** Concatenating two allow-lists allows what either allows. */
  lemma ConcatenationIsUnion(first: seq<Net>, second: seq<Net>, allowLoopback: bool, a: Address)
    ensures AddressAllowed(first + second, allowLoopback, a)
            <==> AddressAllowed(first, allowLoopback, a) || AddressAllowed(second, allowLoopback, a)
  {
    hide Contains, IsSpecial, IsLoopback, IsPrivate;
    forall k | 0 <= k < |first|
      ensures (first + second)[k] == first[k]
    {
    }
    forall k | 0 <= k < |second|
      ensures (first + second)[|first| + k] == second[k]
    {
    }
  }

  /** What kept entries change: exactly the private, not special addresses inside one of
      them become reachable. */
  lemma KeptEntriesAllowExactly(kept: seq<Net>, allowLoopback: bool, a: Address)
    requires forall k :: 0 <= k < |kept| ==> WellFormed(kept[k]) && WithinPrivateRoot(kept[k])
    ensures AddressAllowed(kept, allowLoopback, a) <==>
      || AddressAllowed([], allowLoopback, a)
      || (!IsSpecial(a) && !IsLoopback(a) && exists k :: 0 <= k < |kept| && Contains(kept[k], a))
  {
    hide Contains, IsSpecial, IsLoopback, IsPrivate, WithinPrivateRoot, WellFormed;
    forall k | 0 <= k < |kept| && Contains(kept[k], a)
      ensures IsPrivate(a)
    {
      KeptMatchesOnlyPrivate(kept[k], a);
    }
  }

  // ----- the verdict by address ranges

  datatype Verdict = Never | WithLoopback | WithEntry | Always

  /** IPv4: 0.0.0.0, 169.254.0.0/16 and 224.0.0.0/4; 127.0.0.0/8; 10.0.0.0/8, 172.16.0.0/12
      and 192.168.0.0/16; the rest. */
  function Range4(a: Byte, b: Byte, c: Byte, d: Byte): Verdict {
    if a == b == c == d == 0 || (a == 169 && b == 254) || 224 <= a <= 239 then Never
    else if a == 127 then WithLoopback
    else if a == 10 || (a == 172 && 16 <= b <= 31) || (a == 192 && b == 168) then WithEntry
    else Always
  }

  /** IPv6: ::, fe80::/10 and ff00::/8; ::1; fc00::/7; the rest. */
  function Range6(a: Address): Verdict
    requires |a| == 16
  {
    var first, second := a[0], a[1];
    if a == [0, 0, 0, 0, 0, 0, 0, 0, 0, 0, 0, 0, 0, 0, 0, 0] || (first == 254 && 128 <= second <= 191) || first == 255 then Never
    else if a == [0, 0, 0, 0, 0, 0, 0, 0, 0, 0, 0, 0, 0, 0, 0, 1] then WithLoopback
    else if first == 252 || first == 253 then WithEntry
    else Always
  }

  /** IPv4-mapped addresses (::ffff:0:0/96) fall in the range of the IPv4 address. */
  function RangeOf(a: Address): Verdict {
    if |a| == 4 then Range4(a[0], a[1], a[2], a[3])
    else if a[..12] == [0, 0, 0, 0, 0, 0, 0, 0, 0, 0, 255, 255] then Range4(a[12], a[13], a[14], a[15])
    else Range6(a)
  }

  /** The policy's answer for one address, whatever the allow-list. */
  lemma VerdictByRange(allowed: seq<Net>, allowLoopback: bool, a: Address)
    ensures
      ResolveAllowed(allowed, allowLoopback, [a]).Ok? <==>
        match RangeOf(a)
        case Never => false
        case WithLoopback => allowLoopback
        case WithEntry => exists k :: 0 <= k < |allowed| && Contains(allowed[k], a)
        case Always => true
  {
    hide Contains;
    assert [a][0] == a;
    if |a| == 4 {
      Tests4(a);
    } else if a[..12] == [0, 0, 0, 0, 0, 0, 0, 0, 0, 0, 0xff, 0xff] {
      TestsMapped(a);
    } else {
      Tests6(a);
    }
    hide RangeOf, IsSpecial, IsLoopback, IsPrivate;
  }

  ghost predicate TestsAgree(a: Address) {
    RangeOf(a) == if IsSpecial(a) then Never else if IsLoopback(a) then WithLoopback
                  else if IsPrivate(a) then WithEntry else Always
  }

  lemma Tests4(x: Address)
    requires |x| == 4
    ensures TestsAgree(x)
  {
    Bytes(x[0]);
    Bytes(x[1]);
    assert x == [x[0], x[1], x[2], x[3]];
  }

  lemma TestsMapped(a: Address)
    requires |a| == 16 && a[..12] == [0, 0, 0, 0, 0, 0, 0, 0, 0, 0, 0xff, 0xff]
    ensures TestsAgree(a)
  {
    var x := a[12..];
    Tests4(x);
    hide Range4;
    assert x[0] == a[12] && x[1] == a[13] && x[2] == a[14] && x[3] == a[15];
    assert Short(a) == x == Short(x);
    hide Short, To4;
  }

  lemma Tests6(a: Address)
    requires |a| == 16 && a[..12] != [0, 0, 0, 0, 0, 0, 0, 0, 0, 0, 0xff, 0xff]
    ensures TestsAgree(a)
  {
    assert Short(a) == a;
    hide Short, To4, Range4;
    Bytes(a[0]);
    Bytes(a[1]);
  }

  /** The masks the tests use are ranges of byte values. */
  lemma Bytes(b: Byte)
    ensures b & 0xf0 == 16 <==> 16 <= b <= 31
    ensures b & 0xf0 == 0xe0 <==> 224 <= b <= 239
    ensures b & 0xc0 == 0x80 <==> 128 <= b <= 191
    ensures b & 0xfe == 0xfc <==> b == 252 || b == 253
  {
  }

  // ----- Contains by bits

  /** Bit `j` of an address, counted from the left. */
  predicate Bit(a: Address, j: nat)
    requires j < 8 * |a|
  {
    a[j / 8] & BitAt(j % 8) != 0
  }

  function And(a: Byte, b: Byte): Byte { a & b }

  function Or(a: Byte, b: Byte): Byte { a | b }

  predicate SameBit(a: Byte, b: Byte, k: nat)
    requires k < 8
  {
    And(a, BitAt(k)) == And(b, BitAt(k))
  }

  predicate SameUnder(a: Byte, b: Byte, ones: nat)
    requires ones <= 8
  {
    And(a, MaskByte(ones)) == And(b, MaskByte(ones))
  }

  lemma NextMask(k: nat)
    requires k < 8
    ensures MaskByte(k + 1) == Or(MaskByte(k), BitAt(k))
  {
    MaskByteValues(k);
    MaskByteValues(k + 1);
    BitValues(k);
    hide MaskByte, BitAt;
  }

  lemma SplitMask(a: Byte, m: Byte, t: Byte)
    ensures And(a, Or(m, t)) == Or(And(a, m), And(a, t))
    ensures And(And(a, Or(m, t)), m) == And(a, m)
    ensures And(And(a, Or(m, t)), t) == And(a, t)
  {
  }

  lemma OneMoreBit(a: Byte, b: Byte, k: nat)
    requires k < 8
    ensures SameUnder(a, b, k + 1) <==> SameUnder(a, b, k) && SameBit(a, b, k)
  {
    hide And, Or, MaskByte, BitAt;
    NextMask(k);
    SplitMask(a, MaskByte(k), BitAt(k));
    SplitMask(b, MaskByte(k), BitAt(k));
  }

  lemma {:induction false} SameBits(a: Byte, b: Byte, ones: nat)
    requires ones <= 8
    ensures SameUnder(a, b, ones) <==> forall k :: 0 <= k < ones ==> SameBit(a, b, k)
  {
    if ones == 0 {
      MaskByteValues(0);
      hide MaskByte;
    } else {
      hide SameUnder, SameBit;
      SameBits(a, b, ones - 1);
      OneMoreBit(a, b, ones - 1);
    }
  }

  predicate SameByte(net: Net, a: Address, i: nat)
    requires i < |a| == |net.ip|
  {
    And(a[i], MaskAt(net.prefix, i)) == And(net.ip[i], MaskAt(net.prefix, i))
  }

  lemma BitIsSame(a: Address, b: Address, j: nat)
    requires |a| == |b| && j < 8 * |a|
    ensures Bit(a, j) == Bit(b, j) <==> SameBit(a[j / 8], b[j / 8], j % 8)
  {
    BitValues(j % 8);
    hide BitAt;
  }

  lemma ByteIsUnder(net: Net, a: Address, i: nat, ones: nat)
    requires |a| == |net.ip| && net.prefix <= 8 * |a| && i < |a|
    requires ones == if net.prefix <= 8 * i then 0 else if net.prefix >= 8 * i + 8 then 8 else net.prefix - 8 * i
    ensures SameByte(net, a, i) <==> SameUnder(a[i], net.ip[i], ones)
  {
    hide And, MaskByte;
    MaskByteValues(ones);
    assert MaskAt(net.prefix, i) == MaskByte(ones);
  }

  lemma ByteBits(net: Net, a: Address, i: nat)
    requires |a| == |net.ip| && net.prefix <= 8 * |a| && i < |a|
    ensures SameByte(net, a, i) <==>
      forall j :: 8 * i <= j < 8 * i + 8 && j < net.prefix ==> Bit(a, j) == Bit(net.ip, j)
  {
    hide SameByte, SameUnder, SameBit, Bit;
    var ones := if net.prefix <= 8 * i then 0 else if net.prefix >= 8 * i + 8 then 8 else net.prefix - 8 * i;
    ByteIsUnder(net, a, i, ones);
    SameBits(a[i], net.ip[i], ones);
    forall j | 8 * i <= j < 8 * i + 8 && j < net.prefix
      ensures j / 8 == i && 0 <= j - 8 * i < ones
      ensures Bit(a, j) == Bit(net.ip, j) <==> SameBit(a[i], net.ip[i], j - 8 * i)
    {
      assert j / 8 == i && j % 8 == j - 8 * i;
      BitIsSame(a, net.ip, j);
    }
    if forall j :: 8 * i <= j < 8 * i + 8 && j < net.prefix ==> Bit(a, j) == Bit(net.ip, j) {
      forall k | 0 <= k < ones
        ensures SameBit(a[i], net.ip[i], k)
      {
        assert Bit(a, 8 * i + k) == Bit(net.ip, 8 * i + k);
      }
    }
  }

  lemma InNetByBytes(net: Net, a: Address)
    requires |a| == |net.ip|
    ensures InNet(net, a) <==> forall i :: 0 <= i < |a| ==> SameByte(net, a, i)
  {
    hide MaskAt;
    if forall i :: 0 <= i < |a| ==> SameByte(net, a, i) {
      forall i | 0 <= i < |a|
        ensures a[i] & MaskAt(net.prefix, i) == net.ip[i] & MaskAt(net.prefix, i)
      {
        assert SameByte(net, a, i);
      }
    }
  }

  /** InNet compares the first `prefix` bits and nothing else. */
  lemma InNetByBits(net: Net, a: Address)
    requires |a| == |net.ip| && net.prefix <= 8 * |a|
    ensures InNet(net, a) <==> forall j :: 0 <= j < net.prefix ==> Bit(a, j) == Bit(net.ip, j)
  {
    InNetByBytes(net, a);
    hide InNet, SameByte, Bit;
    forall i | 0 <= i < |a|
      ensures SameByte(net, a, i) <==>
        forall j :: 8 * i <= j < 8 * i + 8 && j < net.prefix ==> Bit(a, j) == Bit(net.ip, j)
    {
      ByteBits(net, a, i);
    }
    if forall i :: 0 <= i < |a| ==> SameByte(net, a, i) {
      forall j | 0 <= j < net.prefix
        ensures Bit(a, j) == Bit(net.ip, j)
      {
        assert j == 8 * (j / 8) + j % 8 && SameByte(net, a, j / 8);
      }
    }
  }

  /** An entry contains an address if and only if the address, an IPv4-mapped one taken as
      IPv4, has the entry's width and its first `prefix` bits. */
  lemma ContainsByBits(net: Net, a: Address)
    requires net.prefix <= 8 * |net.ip|
    requires |net.ip| == 16 ==> net.ip[..12] != [0, 0, 0, 0, 0, 0, 0, 0, 0, 0, 0xff, 0xff]
    ensures Contains(net, a) <==>
      var mapped := |a| == 16 && a[..12] == [0, 0, 0, 0, 0, 0, 0, 0, 0, 0, 0xff, 0xff];
      var x := if mapped then a[12..] else a;
      |x| == |net.ip| && forall j :: 0 <= j < net.prefix ==> Bit(x, j) == Bit(net.ip, j)
  {
    var x := Short(a);
    if |x| == |net.ip| {
      InNetByBits(net, x);
    }
    hide MaskAt, Bit;
  }

  /** An entry whose network number is IPv4-mapped counts as the IPv4 entry its last 32 bits
      give. */
  lemma MappedEntry(net: Net, a: Address)
    requires |net.ip| == 16 && net.ip[..12] == [0, 0, 0, 0, 0, 0, 0, 0, 0, 0, 0xff, 0xff]
    ensures Contains(net, a) <==> Contains(Net(net.ip[12..], if net.prefix < 96 then 0 else net.prefix - 96), a)
  {
    var four := Net(net.ip[12..], if net.prefix < 96 then 0 else net.prefix - 96);
    var x := Short(a);
    hide Short, MaskAt;
    ShortOfMapped(net);
    if |x| == 4 {
      forall i | 0 <= i < 4
        ensures AgreeUnder(net.ip[12..][i], x[i], MaskAt(net.prefix, i + 12)) == AgreeUnder(four.ip[i], x[i], MaskAt(four.prefix, i))
      {
        MaskTail(net.prefix, i);
      }
      ContainsAt(net, a);
      ContainsAt(four, a);
    }
    hide AgreeUnder;
  }

  lemma ShortOfMapped(net: Net)
    requires |net.ip| == 16 && net.ip[..12] == [0, 0, 0, 0, 0, 0, 0, 0, 0, 0, 0xff, 0xff]
    ensures Short(net.ip) == net.ip[12..] && Short(net.ip[12..]) == net.ip[12..]
  {
  }

  lemma ContainsAt(net: Net, a: Address)
    requires |Short(a)| == |Short(net.ip)| == 4
    ensures
      var number, x := Short(net.ip), Short(a);
      Contains(net, a) <==>
        && AgreeUnder(number[0], x[0], MaskAt(net.prefix, |net.ip| - 4)) && AgreeUnder(number[1], x[1], MaskAt(net.prefix, |net.ip| - 3))
        && AgreeUnder(number[2], x[2], MaskAt(net.prefix, |net.ip| - 2)) && AgreeUnder(number[3], x[3], MaskAt(net.prefix, |net.ip| - 1))
  {
    hide Short, MaskAt, AgreeUnder;
  }

  lemma MaskTail(prefix: nat, i: nat)
    ensures MaskAt(prefix, i + 12) == MaskAt(if prefix < 96 then 0 else prefix - 96, i)
  {
  }

  /** The roots hold exactly the addresses that need an entry. */
  lemma RootsAreExactlyPrivate(x: Address)
    requires |x| == 16 ==> x[..12] != [0, 0, 0, 0, 0, 0, 0, 0, 0, 0, 0xff, 0xff]
    ensures RangeOf(x).WithEntry? <==> exists k :: 0 <= k < |ROOTS| && InNet(ROOTS[k], x)
  {
    hide InNet, ROOTS;
    assert |ROOTS| == 4 by {
      RootCount();
    }
    if |x| == 4 {
      Roots4(x);
      Bytes(x[1]);
      hide Range6;
    } else {
      Root6(x);
      hide RangeOf;
    }
  }

  lemma RootCount()
    ensures |ROOTS| == 4
  {
  }

  lemma Roots4(x: Address)
    requires |x| == 4
    ensures InNet(ROOTS[0], x) <==> x[0] == 10
    ensures InNet(ROOTS[1], x) <==> x[0] == 172 && x[1] & 240 == 16
    ensures InNet(ROOTS[2], x) <==> x[0] == 192 && x[1] == 168
    ensures !InNet(ROOTS[3], x)
  {
    RootMasks();
    hide MaskAt;
    Ends(x[0]);
    Ends(x[1]);
    Ends(x[2]);
    Ends(x[3]);
  }

  lemma Root6(x: Address)
    requires |x| == 16 && x[..12] != [0, 0, 0, 0, 0, 0, 0, 0, 0, 0, 0xff, 0xff]
    ensures RangeOf(x).WithEntry? <==> InNet(ROOTS[3], x)
    ensures !InNet(ROOTS[0], x) && !InNet(ROOTS[1], x) && !InNet(ROOTS[2], x)
  {
    RootMasks();
    Bytes(x[0]);
  }

  lemma Ends(b: Byte)
    ensures b & 0 == 0 && b & 255 == b
  {
  }

  lemma RootMasks()
    ensures MaskAt(8, 0) == 255 && MaskAt(8, 1) == MaskAt(8, 2) == MaskAt(8, 3) == 0
    ensures MaskAt(12, 0) == 255 && MaskAt(12, 1) == 240 && MaskAt(12, 2) == MaskAt(12, 3) == 0
    ensures MaskAt(16, 0) == MaskAt(16, 1) == 255 && MaskAt(16, 2) == MaskAt(16, 3) == 0
    ensures MaskAt(7, 0) == 254 && forall i: nat :: i >= 1 ==> MaskAt(7, i) == 0
  {
    MaskByteValues(4);
    MaskByteValues(7);
  }
}
