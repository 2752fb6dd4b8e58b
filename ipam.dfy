/**
 * The bitmap IP address allocator of network/ipam.go.
 *
 * Each subnet, keyed by its CIDR text ("a.b.c.d/n", section 3.1 of RFC 4632), owns a
 * string of '0'/'1' characters, one per host index. `Allocate` takes the first free
 * index and turns it into an IPv4 address with byte-wise, wrapping arithmetic, writing
 * the address into the caller's subnet IP itself; `Release` undoes the arithmetic on
 * the address (again in place) and clears the bit.
 *
 * The allocation file is the field `subnets` of `IPAM`: what `load` would read and what
 * `dump` writes. Whether `load` fails and whether `dump` succeeds are parameters.
 */
module Ipam {
  import opened Wrappers
  import opened Text

  type byte = b: int | 0 <= b < 256

  function Pow2(k: nat): (r: nat)
    ensures r >= 1
  {
    if k == 0 then 1 else 2 * Pow2(k - 1)
  }

  /** 256 to the power k, for k an octet position. */
  function Pow256(k: nat): (r: nat)
    ensures r >= 1
  {
    if k == 0 then 1 else 256 * Pow256(k - 1)
  }

  // ---------------------------------------------------------------------------
  // Addresses, masks and the subnet key
  // ---------------------------------------------------------------------------

  /** How many of the 8 bits of octet `i` (0 = most significant) a /`ones` prefix covers. */
  function PrefixBits(ones: nat, i: nat): (k: nat)
    ensures k <= 8
  {
    if ones <= 8 * i then 0 else if ones >= 8 * i + 8 then 8 else ones - 8 * i
  }

  lemma DivMulBelow(b: nat, p: nat)
    requires p > 0
    ensures 0 <= (b / p) * p <= b
  {
    assert b == (b / p) * p + b % p;
  }

  /** Keeps the `k` high bits of a byte. */
  function MaskByte(b: byte, k: nat): (r: byte)
    requires k <= 8
  {
    DivMulBelow(b, Pow2(8 - k));
    (b / Pow2(8 - k)) * Pow2(8 - k)
  }

  /** `ip.Mask(CIDRMask(ones, 32))`: the network address of `ip` under a /`ones` prefix. */
  function Mask(ip: seq<byte>, ones: nat): (r: seq<byte>)
    requires |ip| == 4
    ensures |r| == 4
  {
    [MaskByte(ip[0], PrefixBits(ones, 0)), MaskByte(ip[1], PrefixBits(ones, 1)),
     MaskByte(ip[2], PrefixBits(ones, 2)), MaskByte(ip[3], PrefixBits(ones, 3))]
  }

  /** `net.IP.String()` of a 4-byte address: dotted decimal. */
  function IPString(ip: seq<byte>): string
    requires |ip| == 4
  {
    Itoa(ip[0]) + "." + Itoa(ip[1]) + "." + Itoa(ip[2]) + "." + Itoa(ip[3])
  }

  /** `(*net.IPNet).String()`: the map key of a subnet. The IP is printed as stored. */
  function CidrString(ip: seq<byte>, ones: nat): string
    requires |ip| == 4
  {
    IPString(ip) + "/" + Itoa(ones)
  }

  /** An IPv4 subnet as Go's `*net.IPNet`: a 4-byte IP slice (shared, mutable) and a prefix. */
  class IPNet {
    var ip: array<byte>
    const ones: nat

    ghost predicate Valid()
      reads this
    {
      ip.Length == 4 && ones <= 32
    }

    constructor (addr: seq<byte>, prefix: nat)
      requires |addr| == 4 && prefix <= 32
      ensures Valid() && fresh(ip) && ip[..] == addr && ones == prefix
    {
      ip := new byte[4](i requires 0 <= i < 4 reads {} => addr[i]);
      ones := prefix;
    }

    /** `Mask.Size()`'s `bits - ones`: the number of host bits. */
    function HostBits(): nat
      reads this
      requires Valid()
    {
      32 - ones
    }

    function String(): string
      reads this, ip
      requires Valid()
    {
      CidrString(ip[..], ones)
    }
  }

  // ---------------------------------------------------------------------------
  // The bitmap and the index <-> address arithmetic
  // ---------------------------------------------------------------------------

  /** The lowest free ('0') position of a bitmap. */
  function FirstZero(bitmap: string): (r: Option<nat>)
    ensures r.Some? ==> r.value < |bitmap| && bitmap[r.value] == '0'
    ensures r.Some? ==> forall j :: 0 <= j < r.value ==> bitmap[j] != '0'
    ensures r.None? ==> forall j :: 0 <= j < |bitmap| ==> bitmap[j] != '0'
    decreases |bitmap|
  {
    if bitmap == [] then None
    else if bitmap[0] == '0' then Some(0)
    else match FirstZero(bitmap[1..])
      case None => None
      case Some(k) => Some(k + 1)
  }

  /** The map `load` leaves behind: the stored one, or the fresh empty map when it failed. */
  function Loaded(stored: map<string, string>, loadErr: Option<string>): map<string, string>
  {
    if loadErr.None? then stored else map[]
  }

  /**
   * The map after lines 90-93: a subnet seen for the first time gets 2^hostBits free
   * positions; an existing entry, and every other subnet, is kept as it is.
   */
  function WithSubnet(m: map<string, string>, key: string, hostBits: nat): (r: map<string, string>)
    ensures key in r && r[key] == (if key in m then m[key] else Repeat('0', Pow2(hostBits)))
    ensures forall k :: k in m ==> k in r && (k != key ==> r[k] == m[k])
    ensures forall k :: k in r ==> k in m || k == key
  {
    if key in m then m else m[key := Repeat('0', Pow2(hostBits))]
  }

  /** `uint8(c >> (8*k))`: octet `k` of an index, counted from the least significant. */
  function Octet(c: nat, k: nat): byte
    requires k < 4
  {
    if k == 0 then c % 256
    else if k == 1 then (c / 0x100) % 256
    else if k == 2 then (c / 0x1_0000) % 256
    else (c / 0x100_0000) % 256
  }

  /**
   * The address `Allocate` computes for index `c` (lines 104-110): octet i of the network
   * address gets octet 3-i of `c` added modulo 256, then the last octet is incremented
   * modulo 256 to skip the subnet address. No carry crosses octets.
   */
  function AllocatedAddress(net: seq<byte>, c: nat): (ip: seq<byte>)
    requires |net| == 4
    ensures |ip| == 4
  {
    [(net[0] + Octet(c, 3)) % 256, (net[1] + Octet(c, 2)) % 256, (net[2] + Octet(c, 1)) % 256,
     ((net[3] + Octet(c, 0)) % 256 + 1) % 256]
  }

  /** `releaseIP[3] -= 1` on a byte slice. */
  function Decrement(ip: seq<byte>): (r: seq<byte>)
    requires |ip| == 4
    ensures |r| == 4
  {
    ip[3 := (ip[3] as int - 1) % 256]
  }

  /** The index `Release` computes (lines 131-136): octet differences modulo 256, weighted. */
  function ReleaseIndex(net: seq<byte>, ip: seq<byte>): nat
    requires |net| == 4 && |ip| == 4
  {
    ((ip[0] as int - net[0]) % 256) * 0x100_0000 + ((ip[1] as int - net[1]) % 256) * 0x1_0000
    + ((ip[2] as int - net[2]) % 256) * 0x100 + (ip[3] as int - net[3]) % 256
  }

  /**
   * The sum the loop of lines 133-135 has built after `n` rounds: the rounds go from the
   * last octet (weight 1) to the first (weight 2^24).
   */
  function PartialIndex(net: seq<byte>, ip: seq<byte>, n: nat): nat
    requires |net| == 4 && |ip| == 4 && n <= 4
  {
    if n == 0 then 0
    else PartialIndex(net, ip, n - 1) + ((ip[4 - n] as int - net[4 - n]) % 256) * Pow256(n - 1)
  }

  /** After four rounds the loop has summed every term of `ReleaseIndex`. */
  lemma PartialIndexComplete(net: seq<byte>, ip: seq<byte>)
    requires |net| == 4 && |ip| == 4
    ensures PartialIndex(net, ip, 4) == ReleaseIndex(net, ip)
  {
    var d0, d1, d2, d3 := (ip[0] as int - net[0]) % 256, (ip[1] as int - net[1]) % 256,
                          (ip[2] as int - net[2]) % 256, (ip[3] as int - net[3]) % 256;
    assert Pow256(0) == 1 && Pow256(1) == 256 && Pow256(2) == 65536 && Pow256(3) == 16777216;
    assert PartialIndex(net, ip, 1) == d3 * Pow256(0);
    assert PartialIndex(net, ip, 2) == PartialIndex(net, ip, 1) + d2 * Pow256(1);
    assert PartialIndex(net, ip, 3) == PartialIndex(net, ip, 2) + d1 * Pow256(2);
    assert PartialIndex(net, ip, 4) == PartialIndex(net, ip, 3) + d0 * Pow256(3);
  }

  lemma ByteDifference(a: byte, o: byte)
    ensures (((a + o) % 256) - a) % 256 == o
  {
  }

  lemma IncrementDecrement(x: byte)
    ensures ((((x + 1) % 256) - 1) % 256) == x
  {
  }

  /** An index below 2^32 is the weighted sum of its four octets. */
  lemma OctetsRebuild(c: nat)
    requires c < Pow256(4)
    ensures Octet(c, 3) * 0x100_0000 + Octet(c, 2) * 0x1_0000 + Octet(c, 1) * 0x100 + Octet(c, 0) == c
  {
    assert Pow256(4) == 4294967296;
    var q1 := c / 256;
    var q2 := q1 / 256;
    var q3 := q2 / 256;
    assert c == q1 * 256 + c % 256;
    assert q1 == q2 * 256 + q1 % 256;
    assert q2 == q3 * 256 + q2 % 256;
    assert c / 0x1_0000 == q2 && c / 0x100_0000 == q3;
    assert q3 < 256;
  }


  /**
   * Round trip of the index arithmetic: decrementing the address computed for index `c`
   * and taking its octet-wise difference to the same network address gives `c` back, for
   * every index a 32-bit address space can hold and every network address.
   */
  lemma ReleaseUndoesAllocate(net: seq<byte>, c: nat)
    requires |net| == 4 && c < Pow256(4)
    ensures ReleaseIndex(net, Decrement(AllocatedAddress(net, c))) == c
  {
    ReleasedDifferences(net, c);
    var ip := Decrement(AllocatedAddress(net, c));
    assert ReleaseIndex(net, ip) == Octet(c, 3) as int * 0x100_0000 + Octet(c, 2) as int * 0x1_0000
      + Octet(c, 1) as int * 0x100 + Octet(c, 0) as int;
    OctetsRebuild(c);
  }

  /** Each octet difference `Release` takes is the octet `Allocate` added. */
  lemma ReleasedDifferences(net: seq<byte>, c: nat)
    requires |net| == 4
    ensures var ip := Decrement(AllocatedAddress(net, c));
      && (ip[0] as int - net[0]) % 256 == Octet(c, 3) && (ip[1] as int - net[1]) % 256 == Octet(c, 2)
      && (ip[2] as int - net[2]) % 256 == Octet(c, 1) && (ip[3] as int - net[3]) % 256 == Octet(c, 0)
  {
    IncrementDecrement((net[3] as int + Octet(c, 0)) % 256);
    ByteDifference(net[0], Octet(c, 3));
    ByteDifference(net[1], Octet(c, 2));
    ByteDifference(net[2], Octet(c, 1));
    ByteDifference(net[3], Octet(c, 0));
  }





  /** Distinct indices never yield the same address (a consequence of the round trip). */
  lemma AllocatedAddressInjective(net: seq<byte>, c1: nat, c2: nat)
    requires |net| == 4 && c1 < Pow256(4) && c2 < Pow256(4)
    requires AllocatedAddress(net, c1) == AllocatedAddress(net, c2)
    ensures c1 == c2
  {
    ReleaseUndoesAllocate(net, c1);
    ReleaseUndoesAllocate(net, c2);
  }

  /**
   * Consequence of the carry-free increment: in 10.0.0.0/24 (and in any wider subnet)
   * index 255 is handed out as 10.0.0.0, the subnet address the increment meant to skip.
   */
  lemma Index255IsSubnetAddress()
    ensures AllocatedAddress([10, 0, 0, 0], 255) == [10, 0, 0, 0]
  {
    assert Octet(255, 0) == 255 && Octet(255, 1) == 0 && Octet(255, 2) == 0 && Octet(255, 3) == 0;
  }

  /**
   * Consequence of the "+1" on the last index: 10.0.0.0/30 has 4 positions, and the
   * fourth is handed out as 10.0.0.4, which lies outside the subnet.
   */
  lemma LastIndexLeavesSubnet()
    ensures AllocatedAddress([10, 0, 0, 0], 3) == [10, 0, 0, 4]
    ensures Mask([10, 0, 0, 4], 30) != [10, 0, 0, 0]
  {
    assert Octet(3, 0) == 3 && Octet(3, 1) == 0 && Octet(3, 2) == 0 && Octet(3, 3) == 0;
    assert PrefixBits(30, 3) == 6 && Pow2(2) == 4;
    assert MaskByte(4, 6) == 4;
  }

  /** 2^j for 1 <= j <= 8 is at least 2 and divides 256. */
  lemma Pow2Divides256(j: nat)
    requires 1 <= j <= 8
    ensures Pow2(j) >= 2 && 256 % Pow2(j) == 0
  {
    assert Pow2(1) == 2 && Pow2(2) == 4 && Pow2(3) == 8 && Pow2(4) == 16;
    assert Pow2(5) == 32 && Pow2(6) == 64 && Pow2(7) == 128 && Pow2(8) == 256;
  }

  lemma MulMonotone(a: int, b: int, p: nat)
    ensures a <= b ==> a * p <= b * p
  {
  }

  /** Euclidean division is fixed by its bounds. */
  lemma DivUnique(n: int, p: nat, q: int)
    requires p > 0 && q * p <= n < q * p + p
    ensures n / p == q
  {
    var d := n / p;
    assert n == d * p + n % p;
    if d > q {
      assert (q + 1) * p == q * p + p;
      MulMonotone(q + 1, d, p);
    } else if d < q {
      MulMonotone(d + 1, q, p);
    }
  }

  /** Adding one to a byte aligned on `p` stays below 256 and keeps the aligned part. */
  lemma AlignedSuccessor(b: byte, p: nat)
    requires p >= 2 && 256 % p == 0 && (b / p) * p == b
    ensures b + 1 < 256 && ((b + 1) / p) * p == b
  {
    var q := b / p;
    var r := 256 / p;
    assert 256 == r * p + 256 % p;
    MulMonotone(r, q, p);
    assert q <= r - 1;
    MulMonotone(q, r - 1, p);
    assert (r - 1) * p == r * p - p;
    DivUnique(b + 1, p, q);
  }

  /**
   * The first address of a subnet with at least one host bit, before any position is
   * taken, is the network address plus one: it lies in the subnet, and decrementing it
   * gives the network address back.
   */
  lemma GatewayInSubnet(net: seq<byte>, ones: nat)
    requires |net| == 4 && ones <= 31 && Mask(net, ones) == net
    ensures Mask(AllocatedAddress(net, 0), ones) == net
    ensures Decrement(AllocatedAddress(net, 0)) == net
  {
    var k := PrefixBits(ones, 3);
    var p := Pow2(8 - k);
    Pow2Divides256(8 - k);
    assert MaskByte(net[3], k) == net[3];
    AlignedSuccessor(net[3], p);
    var g := AllocatedAddress(net, 0);
    assert g == net[3 := net[3] + 1];
    assert MaskByte(g[3], k) == net[3];
  }






  // ---------------------------------------------------------------------------
  // The allocator
  // ---------------------------------------------------------------------------

  /** The scan of lines 96-97: the first free position of the bitmap, if any. */
  method FindFree(bitmap: string) returns (r: Option<nat>)
    ensures r == FirstZero(bitmap)
  {
    var c := 0;
    while c < |bitmap| && bitmap[c] != '0'
      invariant 0 <= c <= |bitmap|
      invariant forall j :: 0 <= j < c ==> bitmap[j] != '0'
    {
      c := c + 1;
    }
    r := if c < |bitmap| then Some(c) else None;
  }

  /** Lines 104-110: the index's octets are added into `ip` in place, then the last is bumped. */
  method AddIndex(ip: array<byte>, c: nat)
    requires ip.Length == 4
    modifies ip
    ensures ip[..] == AllocatedAddress(old(ip[..]), c)
  {
    var t := 4;
    while t > 0
      invariant 0 <= t <= 4
      invariant forall j :: 0 <= j < 4 - t ==> ip[j] == (old(ip[j]) + Octet(c, 3 - j)) % 256
      invariant forall j :: 4 - t <= j < 4 ==> ip[j] == old(ip[j])
    {
      ip[4 - t] := (ip[4 - t] + Octet(c, t - 1)) % 256;
      t := t - 1;
    }
    ip[3] := (ip[3] as int + 1) % 256;
  }

  /** Lines 131-136: the index `Release` reads off an address. */
  method IndexOf(net: seq<byte>, ip: array<byte>) returns (c: nat)
    requires |net| == 4 && ip.Length == 4
    ensures c == ReleaseIndex(net, ip[..])
  {
    c := 0;
    var t := 4;
    while t > 0
      invariant 0 <= t <= 4
      invariant c == PartialIndex(net, ip[..], 4 - t)
    {
      c := c + ((ip[t - 1] as int - net[t - 1]) % 256) * Pow256(4 - t);
      t := t - 1;
    }
    PartialIndexComplete(net, ip[..]);
  }

  class IPAM {
    /** The contents of the allocation file: CIDR key -> bitmap. */
    var subnets: map<string, string>

    constructor ()
      ensures subnets == map[]
    {
      subnets := map[];
    }

    /**
     * `Allocate(subnet)`. The result IP is `subnet.IP` itself, so the caller's subnet
     * address is overwritten with the allocated one; nil when every position is taken.
     * The error is the `load` error, returned although the allocation still happened;
     * a failed `dump` is not reported.
     */
    method Allocate(subnet: IPNet, loadErr: Option<string>, dumpOk: bool)
      returns (ip: array?<byte>, err: Option<string>)
      requires subnet.Valid()
      modifies this, subnet.ip
      ensures subnet.Valid()
      ensures err == loadErr
      ensures
        var key := CidrString(old(subnet.ip[..]), subnet.ones);
        var m := WithSubnet(Loaded(old(subnets), loadErr), key, 32 - subnet.ones);
        match FirstZero(m[key])
        case None =>
          && ip == null
          && subnet.ip[..] == old(subnet.ip[..])
          && subnets == (if dumpOk then m else old(subnets))
        case Some(c) =>
          && ip == subnet.ip
          && ip[..] == AllocatedAddress(old(subnet.ip[..]), c)
          && subnets == (if dumpOk then m[key := m[key][c := '1']] else old(subnets))
    {
      var key := subnet.String();
      var working := WithSubnet(Loaded(subnets, loadErr), key, subnet.HostBits());
      var bitmap := working[key];
      var free := FindFree(bitmap);
      ip := null;
      if free.Some? {
        working := working[key := bitmap[free.value := '1']];
        ip := subnet.ip;
        AddIndex(ip, free.value);
      }
      if dumpOk {
        subnets := working;
      }
      err := loadErr;
    }

    /**
     * `Release(subnet, ipaddr)`. The subnet is re-parsed from its text, so its address is
     * masked to the network address; `ipaddr` is decremented in place (it may be the
     * subnet's own IP); the computed position is cleared. The result is always nil;
     * `panicked` is a Go index-out-of-range panic, raised when the position lies beyond
     * the bitmap, in particular whenever `load` failed.
     */
    method Release(subnet: IPNet, ipaddr: array<byte>, loadErr: Option<string>, dumpOk: bool)
      returns (panicked: bool, err: Option<string>)
      requires subnet.Valid() && ipaddr.Length == 4
      modifies this, ipaddr
      ensures err == None
      ensures ipaddr[..] == Decrement(old(ipaddr[..]))
      ensures
        var net := Mask(old(subnet.ip[..]), subnet.ones);
        var key := CidrString(net, subnet.ones);
        var m := Loaded(old(subnets), loadErr);
        var bitmap := if key in m then m[key] else "";
        var c := ReleaseIndex(net, Decrement(old(ipaddr[..])));
        && (panicked <==> c >= |bitmap|)
        && subnets == (if panicked || !dumpOk then old(subnets) else m[key := bitmap[c := '0']])
    {
      var net := Mask(subnet.ip[..], subnet.ones);
      var key := CidrString(net, subnet.ones);
      var working := Loaded(subnets, loadErr);
      ghost var before := ipaddr[..];
      ipaddr[3] := (ipaddr[3] as int - 1) % 256;
      assert ipaddr[..] == Decrement(before);
      var c := IndexOf(net, ipaddr);
      var bitmap := if key in working then working[key] else "";
      if c >= |bitmap| {
        panicked := true;
      } else {
        panicked := false;
        working := working[key := bitmap[c := '0']];
        if dumpOk {
          subnets := working;
        }
      }
      err := None;
    }
  }

  /**
   * How the network driver uses the allocator (network/network.go, which is not part of
   * this model): the gateway is allocated from a freshly parsed subnet, so the allocation
   * overwrites that subnet's IP, and is later released by passing the subnet together
   * with that same IP slice. For a subnet not yet in the file, with at least one host bit,
   * the pair restores both the fresh bitmap and the subnet address.
   */
  method GatewayRoundTrip(ipam: IPAM, subnet: IPNet)
    requires subnet.Valid() && subnet.ones <= 31 && Mask(subnet.ip[..], subnet.ones) == subnet.ip[..]
    requires CidrString(subnet.ip[..], subnet.ones) !in ipam.subnets
    modifies ipam, subnet.ip
    ensures subnet.ip[..] == old(subnet.ip[..])
    ensures ipam.subnets ==
      WithSubnet(old(ipam.subnets), CidrString(old(subnet.ip[..]), subnet.ones), 32 - subnet.ones)
  {
    ghost var net := subnet.ip[..];
    ghost var key := CidrString(net, subnet.ones);
    ghost var zeros := Repeat('0', Pow2(32 - subnet.ones));
    assert FirstZero(zeros) == Some(0) by {
      assert zeros[0] == '0';
    }
    GatewayInSubnet(net, subnet.ones);
    var gateway, _ := ipam.Allocate(subnet, None, true);
    assert gateway == subnet.ip;
    var panicked, _ := ipam.Release(subnet, subnet.ip, None, true);
    ReleaseUndoesAllocate(net, 0);
    assert !panicked;
    assert zeros[0 := '1'][0 := '0'] == zeros;
  }

  lemma {:induction false} Pow2Monotone(a: nat, b: nat)
    requires a <= b
    ensures Pow2(a) <= Pow2(b)
    decreases b
  {
    if a < b {
      Pow2Monotone(a, b - 1);
    }
  }

  /**
   * Round trip of the two operations over the same network address: releasing the address
   * `Allocate` returned restores the subnet's bitmap to what it held before the allocation
   * (a subnet seen for the first time keeps its fresh all-free bitmap), for every free
   * position, provided the stored bitmap has the size this allocator gives it.
   */
  method AllocateThenRelease(ipam: IPAM, subnet: IPNet) returns (ip: array?<byte>)
    requires subnet.Valid() && Mask(subnet.ip[..], subnet.ones) == subnet.ip[..]
    requires var key := CidrString(subnet.ip[..], subnet.ones);
             key in ipam.subnets ==> |ipam.subnets[key]| == Pow2(32 - subnet.ones)
    modifies ipam, subnet.ip
    ensures
      var key := CidrString(old(subnet.ip[..]), subnet.ones);
      var m := WithSubnet(old(ipam.subnets), key, 32 - subnet.ones);
      ip != null ==> ipam.subnets == m
  {
    ghost var net := subnet.ip[..];
    ghost var key := CidrString(net, subnet.ones);
    ghost var m := WithSubnet(ipam.subnets, key, 32 - subnet.ones);
    var network := new IPNet(subnet.ip[..], subnet.ones);
    var loadErr;
    ip, loadErr := ipam.Allocate(subnet, None, true);
    if ip != null {
      ghost var c := FirstZero(m[key]).value;
      ghost var bitmap := m[key][c := '1'];
      assert ipam.subnets == m[key := bitmap];
      assert ip[..] == AllocatedAddress(net, c);
      assert network.ip[..] == net && network.ones == subnet.ones;
      IndexBelowAddressSpace(m[key], subnet.ones, c);
      ReleaseUndoesAllocate(net, c);
      var panicked, _ := ipam.Release(network, ip, None, true);
      assert !panicked;
      assert bitmap[c := '0'] == m[key];
      assert m[key := bitmap][key := m[key]] == m;
    }
  }

  /** A position of a bitmap of 2^(32-ones) entries fits in 32 bits. */
  lemma IndexBelowAddressSpace(bitmap: string, ones: nat, c: nat)
    requires ones <= 32 && |bitmap| == Pow2(32 - ones) && c < |bitmap|
    ensures c < Pow256(4)
  {
    Pow2Monotone(32 - ones, 32);
    assert Pow2(8) == 256 && Pow2(16) == 65536 && Pow2(24) == 16777216 && Pow2(32) == 4294967296;
    assert Pow256(1) == 256 && Pow256(2) == 65536 && Pow256(3) == 16777216 && Pow256(4) == 4294967296;
  }
}
