/** Resource admission: the outbound, the L3 tunnel and the TCP tunnel each match destinations
    against the resource list in code of their own. */
module Resources {
  import opened Bytes

  type IP = seq<Byte>

  const V4_PREFIX: IP := [0, 0, 0, 0, 0, 0, 0, 0, 0, 0, 255, 255]

  /** net.IP.To4 */
  function To4(ip: IP): (r: Option<IP>)
    ensures r.Some? ==> |r.value| == 4
  {
    if |ip| == 4 then Some(ip)
    else if |ip| == 16 && ip[..12] == V4_PREFIX then Some(ip[12..])
    else None
  }

  /** net.IPv4: the 16-byte form of an IPv4 address. */
  function Mapped(v4: IP): (ip: IP)
    requires |v4| == 4
    ensures |ip| == 16 && To4(ip) == Some(v4)
  {
    assert (V4_PREFIX + v4)[..12] == V4_PREFIX && (V4_PREFIX + v4)[12..] == v4;
    V4_PREFIX + v4
  }

  lemma MappedUnique(ip: IP)
    requires |ip| == 16 && To4(ip).Some?
    ensures ip == Mapped(To4(ip).value)
  {
    assert ip == ip[..12] + ip[12..];
  }

  // ---------------------------------------------------------------------------------
  // bytes.Compare

  datatype Order = Less | Equal | Greater

  function Compare(a: seq<Byte>, b: seq<Byte>): (o: Order)
  {
    if a == [] && b == [] then Equal
    else if a == [] then Less
    else if b == [] then Greater
    else if a[0] < b[0] then Less
    else if a[0] > b[0] then Greater
    else Compare(a[1..], b[1..])
  }

  function Pow256(n: nat): (p: nat)
    ensures p > 0
  {
    if n == 0 then 1 else 256 * Pow256(n - 1)
  }

  /** The number a byte string stands for, most significant byte first. */
  function Number(s: seq<Byte>): (n: nat)
  {
    if s == [] then 0 else s[0] * Pow256(|s| - 1) + Number(s[1..])
  }

  lemma {:induction false} NumberBound(s: seq<Byte>)
    ensures Number(s) < Pow256(|s|)
    decreases |s|
  {
    if s != [] {
      NumberBound(s[1..]);
      MulMonotone(s[0], 255, Pow256(|s| - 1));
    }
  }

  /** Between byte strings of one length the lexicographic order is the numeric one. */
  lemma {:induction false} CompareNumeric(a: seq<Byte>, b: seq<Byte>)
    requires |a| == |b|
    ensures Compare(a, b) == if Number(a) < Number(b) then Less else if Number(a) > Number(b) then Greater else Equal
    decreases |a|
  {
    if a != [] {
      var unit := Pow256(|a| - 1);
      CompareNumeric(a[1..], b[1..]);
      NumberBound(a[1..]);
      NumberBound(b[1..]);
      if a[0] < b[0] {
        HeadDecides(a[0], b[0], unit, Number(a[1..]), Number(b[1..]));
      } else if a[0] > b[0] {
        HeadDecides(b[0], a[0], unit, Number(b[1..]), Number(a[1..]));
      }
    }
  }

  lemma HeadDecides(x: nat, y: nat, unit: nat, s: nat, t: nat)
    requires x < y && s < unit
    ensures x * unit + s < y * unit + t
  {
    MulMonotone(x + 1, y, unit);
    assert (x + 1) * unit == x * unit + unit;
  }

  lemma {:induction false} ComparePrefix(p: seq<Byte>, a: seq<Byte>, b: seq<Byte>)
    ensures Compare(p + a, p + b) == Compare(a, b)
    decreases |p|
  {
    if p == [] {
      assert p + a == a && p + b == b;
    } else {
      assert (p + a)[1..] == p[1..] + a && (p + b)[1..] == p[1..] + b;
      ComparePrefix(p[1..], a, b);
    }
  }

  // ---------------------------------------------------------------------------------
  // The three matchers

  datatype Resource = Resource(
    ipMin: IP, ipMax: IP, portMin: int, portMax: int, protocol: string, appID: string, nodeGroupID: string)

  predicate PortAndProtocol(r: Resource, port: int, network: string)
  {
    r.portMin <= port <= r.portMax && (r.protocol == network || r.protocol == "all")
  }

  predicate Between(ip: IP, lo: IP, hi: IP)
  {
    Compare(ip, lo) != Less && Compare(ip, hi) != Greater
  }

  /** The resource of a resolved domain name. */
  datatype DomainResource = DomainResource(portMin: int, portMax: int, protocol: string, appID: string, nodeGroupID: string)

  /** How the outbound tests a resource: on four-byte addresses. */
  predicate Admits(r: Resource, v4: IP, port: int, network: string)
  {
    && To4(r.ipMin).Some? && To4(r.ipMax).Some? && Between(v4, To4(r.ipMin).value, To4(r.ipMax).value)
    && PortAndProtocol(r, port, network)
  }

  /** How the L3 tunnel tests it: on the sixteen-byte form, against the bounds as they are;
      ICMP has no port. */
  predicate Routes(r: Resource, dst: IP, port: int, protocol: string)
  {
    && Between(dst, r.ipMin, r.ipMax) && (r.protocol == protocol || r.protocol == "all")
    && (protocol == "icmp" || r.portMin <= port <= r.portMax)
  }

  /** How the TCP tunnel tests it. */
  predicate Serves(r: Resource, v4: IP, port: int)
  {
    match (To4(r.ipMin), To4(r.ipMax))
    case (Some(lo), Some(hi)) =>
      if Compare(v4, lo) == Less || Compare(v4, hi) == Greater then false
      else if port < r.portMin || port > r.portMax then false
      else r.protocol == "tcp" || r.protocol == "all"
    case _ => false
  }

  lemma ServesIsAdmits(r: Resource, v4: IP, port: int)
    ensures Serves(r, v4, port) <==> Admits(r, v4, port, "tcp")
  {
  }

  predicate DomainFits(d: DomainResource, port: int, network: string)
  {
    d.portMin <= port <= d.portMax && (d.protocol == network || d.protocol == "all")
  }

  ghost predicate SomeAdmits(resources: seq<Resource>, v4: IP, port: int, network: string)
  {
    exists i :: 0 <= i < |resources| && Admits(resources[i], v4, port, network)
  }

  /** The outbound lets a connection to a resolved address through. */
  ghost predicate Passes(domain: Option<DomainResource>, resources: seq<Resource>, v4: IP, port: int, network: string)
  {
    (domain.Some? && DomainFits(domain.value, port, network)) || SomeAdmits(resources, v4, port, network)
  }

  /** The TCP tunnel has a resource to send with such a connection. */
  ghost predicate TcpServes(domain: Option<DomainResource>, resources: seq<Resource>, v4: IP, port: int)
  {
    domain.Some? || exists i :: 0 <= i < |resources| && Serves(resources[i], v4, port)
  }

  /** matchesResources: the resource of the resolved name first, then the IP list. */
  method MatchesResources(domain: Option<DomainResource>, resources: seq<Resource>, v4: IP, port: int, network: string)
    returns (found: bool)
    ensures found <==> Passes(domain, resources, v4, port, ResourceNetwork(network))
  {
    if domain.Some? {
      if DomainFits(domain.value, port, ResourceNetwork(network)) { return true; }
    }
    for i := 0 to |resources|
      invariant forall j :: 0 <= j < i ==> !Admits(resources[j], v4, port, ResourceNetwork(network))
    {
      if Admits(resources[i], v4, port, ResourceNetwork(network)) { return true; }
    }
    return false;
  }

  function ResourceNetwork(network: string): (r: string)
  {
    if network == "tcp4" then "tcp" else if network == "udp4" then "udp" else network
  }

  /** The search of processIPV4: the first resource that fits. */
  method FindRoute(resources: seq<Resource>, dst: IP, port: int, protocol: string) returns (found: Option<nat>)
    ensures found.None? ==> forall i :: 0 <= i < |resources| ==> !Routes(resources[i], dst, port, protocol)
    ensures found.Some? ==>
              && found.value < |resources| && Routes(resources[found.value], dst, port, protocol)
              && forall i :: 0 <= i < found.value ==> !Routes(resources[i], dst, port, protocol)
  {
    for i := 0 to |resources|
      invariant forall j :: 0 <= j < i ==> !Routes(resources[j], dst, port, protocol)
    {
      if Routes(resources[i], dst, port, protocol) { return Some(i); }
    }
    return None;
  }

  /** tcpResourceFor: the resource of the resolved name, else the last of the list that fits. */
  method TcpResourceFor(domain: Option<DomainResource>, resources: seq<Resource>, ip: IP, port: int)
    returns (appID: string, nodeGroupID: string, found: Option<nat>)
    ensures domain.Some? ==> found.None? && appID == domain.value.appID && nodeGroupID == domain.value.nodeGroupID
    ensures domain.None? && found.None? ==>
              && appID == nodeGroupID == ""
              && (To4(ip).Some? ==> forall i :: 0 <= i < |resources| ==> !Serves(resources[i], To4(ip).value, port))
    ensures found.Some? ==>
              && To4(ip).Some? && found.value < |resources| && Serves(resources[found.value], To4(ip).value, port)
              && appID == resources[found.value].appID && nodeGroupID == resources[found.value].nodeGroupID
              && forall i :: found.value < i < |resources| ==> !Serves(resources[i], To4(ip).value, port)
    ensures To4(ip).Some? ==> (domain.Some? || found.Some? <==> TcpServes(domain, resources, To4(ip).value, port))
  {
    appID, nodeGroupID, found := "", "", None;
    if domain.Some? { return domain.value.appID, domain.value.nodeGroupID, None; }
    if To4(ip).None? { return; }
    var v4 := To4(ip).value;
    for i := 0 to |resources|
      invariant found.None? ==> appID == nodeGroupID == "" && forall j :: 0 <= j < i ==> !Serves(resources[j], v4, port)
      invariant found.Some? ==>
                  && found.value < i && Serves(resources[found.value], v4, port)
                  && appID == resources[found.value].appID && nodeGroupID == resources[found.value].nodeGroupID
                  && forall j :: found.value < j < i ==> !Serves(resources[j], v4, port)
    {
      if Serves(resources[i], v4, port) {
        appID, nodeGroupID, found := resources[i].appID, resources[i].nodeGroupID, Some(i);
      }
    }
  }

  // ---------------------------------------------------------------------------------
  // Agreement

  /** Sixteen-byte IPv4 bounds. */
  predicate MappedBounds(r: Resource)
  {
    |r.ipMin| == 16 && To4(r.ipMin).Some? && |r.ipMax| == 16 && To4(r.ipMax).Some?
  }

  /** What the client's parser lets into its list: single addresses and blocks have IPv4 bounds,
      but of a range only the lower one is checked. */
  predicate ParsedBounds(r: Resource)
  {
    |r.ipMin| == 16 && To4(r.ipMin).Some? && |r.ipMax| == 16
  }

  /** On IPv4 bounds the tests of the outbound, the TCP tunnel and the L3 tunnel are the numeric one. */
  lemma MatchersAgree(r: Resource, v4: IP, port: int, network: string)
    requires MappedBounds(r) && |v4| == 4 && network != "icmp"
    ensures Admits(r, v4, port, network) <==> Routes(r, Mapped(v4), port, network)
    ensures network == "tcp" ==> (Serves(r, v4, port) <==> Routes(r, Mapped(v4), port, network))
    ensures Admits(r, v4, port, network) <==>
              && Number(To4(r.ipMin).value) <= Number(v4) <= Number(To4(r.ipMax).value)
              && PortAndProtocol(r, port, network)
  {
    var lo, hi := To4(r.ipMin).value, To4(r.ipMax).value;
    MappedUnique(r.ipMin);
    MappedUnique(r.ipMax);
    ComparePrefix(V4_PREFIX, v4, lo);
    ComparePrefix(V4_PREFIX, v4, hi);
    CompareNumeric(v4, lo);
    CompareNumeric(v4, hi);
    ServesIsAdmits(r, v4, port);
  }

  /** A range that ends in an IPv6 address is nothing to the outbound and a range of sixteen-byte
      numbers to the L3 tunnel. */
  lemma MixedRange(r: Resource, v4: IP, port: int, network: string)
    requires ParsedBounds(r) && To4(r.ipMax).None? && |v4| == 4 && network != "icmp"
    ensures !Admits(r, v4, port, network)
    ensures Routes(r, Mapped(v4), port, network) <==>
              Number(r.ipMin) <= Number(Mapped(v4)) <= Number(r.ipMax) && PortAndProtocol(r, port, network)
  {
    CompareNumeric(Mapped(v4), r.ipMin);
    CompareNumeric(Mapped(v4), r.ipMax);
  }

  /** So on whatever the parser lets in, the outbound admits exactly what the L3 tunnel routes by
      resources that end in an IPv4 address. */
  lemma ParsedAgree(r: Resource, v4: IP, port: int, network: string)
    requires ParsedBounds(r) && |v4| == 4 && network != "icmp"
    ensures Admits(r, v4, port, network) <==> Routes(r, Mapped(v4), port, network) && To4(r.ipMax).Some?
  {
    if To4(r.ipMax).Some? {
      MatchersAgree(r, v4, port, network);
    } else {
      MixedRange(r, v4, port, network);
    }
  }

  /** The range from 0.0.0.0 to the last IPv6 address: the L3 tunnel routes every destination by
      it, the outbound admits none. */
  lemma MixedRangeSplits(v4: IP, port: int)
    requires |v4| == 4 && 0 <= port <= 65535
    ensures var last: IP := [255, 255, 255, 255, 255, 255, 255, 255, 255, 255, 255, 255, 255, 255, 255, 255];
            var r := Resource(Mapped([0, 0, 0, 0]), last, 0, 65535, "all", "", "");
            ParsedBounds(r) && Routes(r, Mapped(v4), port, "tcp") && !Admits(r, v4, port, "tcp")
  {
    var zero: IP := [0, 0, 0, 0];
    ComparePrefix(V4_PREFIX, v4, zero);
    CompareNumeric(v4, zero);
    assert Number(zero) == 0 by {
      assert zero[1..] == [0, 0, 0] && zero[1..][1..] == [0, 0] && zero[1..][1..][1..] == [0];
    }
    assert Mapped(v4)[0] == 0;
  }

  /** So on a list of such resources the outbound admits a destination exactly when the L3
      tunnel has a route for it. */
  lemma ListsAgree(resources: seq<Resource>, v4: IP, port: int, network: string)
    requires |v4| == 4 && network != "icmp" && forall i :: 0 <= i < |resources| ==> MappedBounds(resources[i])
    ensures (exists i :: 0 <= i < |resources| && Admits(resources[i], v4, port, network))
            <==> (exists i :: 0 <= i < |resources| && Routes(resources[i], Mapped(v4), port, network))
  {
    forall i | 0 <= i < |resources|
      ensures Admits(resources[i], v4, port, network) <==> Routes(resources[i], Mapped(v4), port, network)
    {
      MatchersAgree(resources[i], v4, port, network);
    }
  }

  /** The same for the lists the parser makes. */
  lemma ParsedListsAgree(resources: seq<Resource>, v4: IP, port: int, network: string)
    requires |v4| == 4 && network != "icmp" && forall i :: 0 <= i < |resources| ==> ParsedBounds(resources[i])
    ensures (exists i :: 0 <= i < |resources| && Admits(resources[i], v4, port, network))
            <==> (exists i :: 0 <= i < |resources| && Routes(resources[i], Mapped(v4), port, network) && To4(resources[i].ipMax).Some?)
  {
    forall i | 0 <= i < |resources|
      ensures Admits(resources[i], v4, port, network) <==> Routes(resources[i], Mapped(v4), port, network) && To4(resources[i].ipMax).Some?
    {
      ParsedAgree(resources[i], v4, port, network);
    }
  }

  // ---------------------------------------------------------------------------------
  // Static DNS records

  /** The resource made for the address of a static DNS record. */
  function Static(v4: IP): (r: Resource)
  {
    Resource(v4, v4, 0, 65535, "all", "", "")
  }

  /** The outbound's list: the client's own, then one resource per IPv4 record. */
  function WithStatic(own: seq<Resource>, records: seq<IP>): (r: seq<Resource>)
    ensures own <= r
  {
    if records == [] then own
    else
      var last := To4(records[|records| - 1]);
      WithStatic(own, records[..|records| - 1]) + if last.Some? then [Static(last.value)] else []
  }

  /** addStaticDNSResources; the records come in any order. */
  method AddStaticDNSResources(own: seq<Resource>, records: seq<IP>) returns (r: seq<Resource>)
    ensures r == WithStatic(own, records)
  {
    r := own;
    for i := 0 to |records|
      invariant r == WithStatic(own, records[..i])
    {
      assert records[..i + 1][..i] == records[..i];
      if To4(records[i]).Some? {
        r := r + [Static(To4(records[i]).value)];
      }
    }
    assert records[..|records|] == records;
  }

  ghost predicate Recorded(records: seq<IP>, v4: IP)
  {
    exists i :: 0 <= i < |records| && To4(records[i]) == Some(v4)
  }

  ghost predicate SomeRoutes(resources: seq<Resource>, v4: IP, port: int, network: string)
    requires |v4| == 4
  {
    exists i :: 0 <= i < |resources| && Routes(resources[i], Mapped(v4), port, network)
  }

  /** A record's resource admits its own address and no other. */
  lemma StaticAdmits(a: IP, v4: IP, port: int, network: string)
    requires |a| == |v4| == 4 && 0 <= port <= 65535
    ensures Admits(Static(a), v4, port, network) <==> v4 == a
  {
    CompareNumeric(v4, a);
    if Number(v4) == Number(a) {
      CompareEqual(v4, a);
    }
  }

  lemma {:induction false} CompareEqual(a: seq<Byte>, b: seq<Byte>)
    requires Compare(a, b) == Equal
    ensures a == b
    decreases |a|
  {
    if a != [] {
      CompareEqual(a[1..], b[1..]);
      assert a == [a[0]] + a[1..] && b == [b[0]] + b[1..];
    }
  }

  lemma SnocAdmits(resources: seq<Resource>, r: Resource, v4: IP, port: int, network: string)
    ensures SomeAdmits(resources + [r], v4, port, network) <==> SomeAdmits(resources, v4, port, network) || Admits(r, v4, port, network)
  {
    var all := resources + [r];
    if SomeAdmits(resources, v4, port, network) {
      var i :| 0 <= i < |resources| && Admits(resources[i], v4, port, network);
      assert all[i] == resources[i];
    }
    if Admits(r, v4, port, network) {
      assert all[|resources|] == r;
    }
  }

  lemma {:induction false} WithStaticAdmits(own: seq<Resource>, records: seq<IP>, v4: IP, port: int, network: string)
    requires |v4| == 4 && 0 <= port <= 65535
    ensures SomeAdmits(WithStatic(own, records), v4, port, network) <==> SomeAdmits(own, v4, port, network) || Recorded(records, v4)
    decreases |records|
  {
    if records != [] {
      var n := |records| - 1;
      var front, last := records[..n], To4(records[n]);
      WithStaticAdmits(own, front, v4, port, network);
      assert Recorded(records, v4) <==> Recorded(front, v4) || last == Some(v4) by {
        assert forall i :: 0 <= i < n ==> front[i] == records[i];
      }
      if last.Some? {
        SnocAdmits(WithStatic(own, front), Static(last.value), v4, port, network);
        StaticAdmits(last.value, v4, port, network);
      } else {
        assert WithStatic(own, front) + [] == WithStatic(own, front);
      }
    }
  }

  /** In resource-route mode the outbound admits exactly what the L3 tunnel, which keeps the
      client's own list, has a route for, and the addresses of static records. */
  lemma StaticAdmission(own: seq<Resource>, records: seq<IP>, v4: IP, port: int, network: string)
    requires |v4| == 4 && 0 <= port <= 65535 && network != "icmp"
    requires forall i :: 0 <= i < |own| ==> MappedBounds(own[i])
    ensures SomeAdmits(WithStatic(own, records), v4, port, network) <==> SomeRoutes(own, v4, port, network) || Recorded(records, v4)
  {
    WithStaticAdmits(own, records, v4, port, network);
    ListsAgree(own, v4, port, network);
  }

  /** The same on any list the parser makes: of the client's own resources those that end in an
      IPv4 address count. */
  lemma ParsedAdmission(own: seq<Resource>, records: seq<IP>, v4: IP, port: int, network: string)
    requires |v4| == 4 && 0 <= port <= 65535 && network != "icmp"
    requires forall i :: 0 <= i < |own| ==> ParsedBounds(own[i])
    ensures SomeAdmits(WithStatic(own, records), v4, port, network) <==>
              || (exists i :: 0 <= i < |own| && Routes(own[i], Mapped(v4), port, network) && To4(own[i].ipMax).Some?)
              || Recorded(records, v4)
  {
    WithStaticAdmits(own, records, v4, port, network);
    ParsedListsAgree(own, v4, port, network);
  }

  /** So a record outside the client's own resources passes the outbound, but no route of the L3 tunnel
      covers it, and the TCP tunnel has a resource for it only if the resolved name brings its own. */
  lemma StaticOnly(domain: Option<DomainResource>, own: seq<Resource>, records: seq<IP>, v4: IP, port: int)
    requires |v4| == 4 && 0 <= port <= 65535 && Recorded(records, v4)
    requires forall j :: 0 <= j < |own| ==> ParsedBounds(own[j])
    requires !SomeRoutes(own, v4, port, "tcp")
    ensures Passes(domain, WithStatic(own, records), v4, port, "tcp")
    ensures TcpServes(domain, own, v4, port) <==> domain.Some?
  {
    ParsedAdmission(own, records, v4, port, "tcp");
    forall i | 0 <= i < |own|
      ensures !Serves(own[i], v4, port)
    {
      ParsedAgree(own[i], v4, port, "tcp");
      ServesIsAdmits(own[i], v4, port);
    }
  }

  /** In general: what passes the outbound without a resource of the TCP tunnel is a recorded address,
      for a name without a resource, that no entry of the client's list ending in IPv4 routes. */
  lemma UnservedIff(domain: Option<DomainResource>, own: seq<Resource>, records: seq<IP>, v4: IP, port: int)
    requires |v4| == 4 && 0 <= port <= 65535 && forall j :: 0 <= j < |own| ==> ParsedBounds(own[j])
    ensures Passes(domain, WithStatic(own, records), v4, port, "tcp") && !TcpServes(domain, own, v4, port) <==>
              && domain.None? && Recorded(records, v4)
              && !exists i :: 0 <= i < |own| && Routes(own[i], Mapped(v4), port, "tcp") && To4(own[i].ipMax).Some?
  {
    ParsedAdmission(own, records, v4, port, "tcp");
    forall i | 0 <= i < |own|
      ensures Serves(own[i], v4, port) <==> Routes(own[i], Mapped(v4), port, "tcp") && To4(own[i].ipMax).Some?
    {
      ParsedAgree(own[i], v4, port, "tcp");
      ServesIsAdmits(own[i], v4, port);
    }
  }

  // ---------------------------------------------------------------------------------
  // IPv4 packets

  const IPV4_HEADER: nat := 20

  function HeaderLen(p: seq<Byte>): (n: nat)
    requires |p| >= 1
  {
    p[0] % 16 * 4
  }

  function TotalLen(p: seq<Byte>): (n: nat)
    requires |p| >= 4
  {
    BE16(p[2], p[3])
  }

  /** IPv4Packet.Valid, which compares lengths in sixteen bits. */
  predicate ValidPacket(p: seq<Byte>)
  {
    && |p| >= IPV4_HEADER && p[0] / 16 == 4
    && HeaderLen(p) >= IPV4_HEADER && TotalLen(p) >= HeaderLen(p) && Low16(|p|) >= TotalLen(p)
  }

  function Payload(p: seq<Byte>): (r: seq<Byte>)
    requires ValidPacket(p)
    ensures |r| == TotalLen(p) - HeaderLen(p) && |r| + IPV4_HEADER <= |p|
  {
    assert Low16(|p|) <= |p|;
    p[HeaderLen(p)..TotalLen(p)]
  }

  /** Up to 65535 bytes the check is that of section 3.1 of RFC 791; a longer buffer passes only
      if the low sixteen bits of its length still cover the packet. */
  lemma ValidExactly(p: seq<Byte>)
    requires |p| >= IPV4_HEADER
    ensures |p| <= 0xFFFF ==>
              (ValidPacket(p) <==> p[0] / 16 == 4 && p[0] % 16 >= 5 && HeaderLen(p) <= TotalLen(p) <= |p|)
    ensures |p| == 0x1_0000 ==> !ValidPacket(p)
  {
  }

  predicate ValidTcp(p: seq<Byte>)
  {
    |p| >= 20
  }

  predicate ValidUdp(p: seq<Byte>)
  {
    |p| >= 8 && Low16(|p|) >= BE16(p[4], p[5])
  }

  datatype Refusal = BadPacket | BadTransport | UnsupportedProtocol | NotFound

  /** Protocol and destination port of a packet; ICMP has none. */
  function Flow(p: seq<Byte>): (r: Result<(string, int), Refusal>)
    ensures r.Ok? ==> ValidPacket(p) && (r.value.0 == "icmp" <==> r.value.1 == -1) && r.value.1 <= 0xFFFF
  {
    if !ValidPacket(p) then Err(BadPacket)
    else match p[9]
      case 6 =>
        var t := Payload(p);
        if ValidTcp(t) then Ok(("tcp", BE16(t[2], t[3]) as int)) else Err(BadTransport)
      case 17 =>
        var t := Payload(p);
        if ValidUdp(t) then Ok(("udp", BE16(t[2], t[3]) as int)) else Err(BadTransport)
      case 1 => Ok(("icmp", -1))
      case _ => Err(UnsupportedProtocol)
  }

  function DestinationIP(p: seq<Byte>): (ip: IP)
    requires ValidPacket(p)
    ensures ip == Mapped(p[16..20])
  {
    Mapped(p[16..20])
  }

  /** processIPV4 up to the write: the resource the packet goes to. */
  method ProcessIPV4(resources: seq<Resource>, p: seq<Byte>) returns (r: Result<nat, Refusal>)
    ensures Flow(p).Err? ==> r == Err(Flow(p).error)
    ensures Flow(p).Ok? ==>
              var (protocol, port) := Flow(p).value;
              match r
              case Ok(i) =>
                && i < |resources| && Routes(resources[i], DestinationIP(p), port, protocol)
                && forall j :: 0 <= j < i ==> !Routes(resources[j], DestinationIP(p), port, protocol)
              case Err(e) => e == NotFound && forall j :: 0 <= j < |resources| ==> !Routes(resources[j], DestinationIP(p), port, protocol)
  {
    var flow := Flow(p);
    if flow.Err? { return Err(flow.error); }
    var found := FindRoute(resources, DestinationIP(p), flow.value.1, flow.value.0);
    r := if found.Some? then Ok(found.value) else Err(NotFound);
  }

  /** A UDP or TCP packet finds a resource that ends in an IPv4 address exactly when the outbound
      would admit its destination. */
  lemma PacketAdmitted(resources: seq<Resource>, p: seq<Byte>)
    requires Flow(p).Ok? && Flow(p).value.0 != "icmp" && forall i :: 0 <= i < |resources| ==> ParsedBounds(resources[i])
    ensures var (protocol, port) := Flow(p).value;
            (exists i :: 0 <= i < |resources| && Admits(resources[i], p[16..20], port, protocol))
            <==> (exists i :: 0 <= i < |resources| && Routes(resources[i], DestinationIP(p), port, protocol) && To4(resources[i].ipMax).Some?)
  {
    ParsedListsAgree(resources, p[16..20], Flow(p).value.1, Flow(p).value.0);
  }
}
