/** Synchronisation of the system routes of the TUN interface (src/route.rs). */
module RouteSync {
  import opened Base
  import opened Sequences
  import opened Net

  /** A system route; its prefix length comes from the system and may be out of range. */
  datatype Route = Route(destination: Ip, prefix: nat, ifIndex: Option<nat>, table: nat, metric: Option<nat>)

  const MAIN_TABLE: nat := 254

  function NetOf(r: Route): Option<IpNet> {
    if r.prefix <= Width(r.destination.family) then Some(IpNet(r.destination, r.prefix)) else None
  }

  function NewRoute(net: IpNet, tun: nat): Route {
    Route(net.addr, net.len, Some(tun), MAIN_TABLE, None)
  }

  // ----- prefix arithmetic ---------------------------------------------------------

  /** The /1 half of a family's address space whose first bit is `top`. */
  function Half(family: Family, top: bool): IpNet {
    IpNet(Extend(family, [top], false), 1)
  }

  datatype Halves = Halves(low: IpNet, high: IpNet)

  function SplitDefault(net: IpNet): Option<Halves> {
    if net.len != 0 then None else Some(Halves(Half(net.addr.family, false), Half(net.addr.family, true)))
  }

  /** Only a /0 is split; its halves share no address and together hold exactly its addresses. */
  lemma SplitIsExactAndDisjoint(net: IpNet, ip: Ip)
    ensures SplitDefault(net).Some? <==> net.len == 0
    ensures net.len == 0 ==>
              var s := SplitDefault(net).value;
              && (Contains(net, ip) <==> Contains(s.low, ip) || Contains(s.high, ip))
              && !(Contains(s.low, ip) && Contains(s.high, ip))
              && s.low.len == 1 && s.high.len == 1
              && forall k :: 1 <= k < Width(net.addr.family) ==> !s.low.addr.bits[k] && !s.high.addr.bits[k]
  {
    if net.len == 0 {
      var s := SplitDefault(net).value;
      assert s.low.addr.bits[..1] == [false] && s.high.addr.bits[..1] == [true];
      assert ip.bits[..1] == [ip.bits[0]] && net.addr.bits[..0] == [];
      assert Canonical(s.low).bits == [false] && Canonical(s.high).bits == [true];
      assert [ip.bits[0]] <= ip.bits;
      assert ip.bits[0] || !ip.bits[0];
    }
  }

  function Pieces(net: IpNet): set<IpNet> {
    if SplitDefault(net).Some? then {SplitDefault(net).value.low, SplitDefault(net).value.high} else {net}
  }

  function Expanded(allowed: seq<IpNet>): set<IpNet> {
    set i, net | 0 <= i < |allowed| && net in Pieces(allowed[i]) :: net
  }

  method ExpandAllowedPrefixes(allowed: seq<IpNet>) returns (result: set<IpNet>)
    ensures result == Expanded(allowed)
  {
    result := {};
    for i := 0 to |allowed|
      invariant forall net :: net in result <==> exists k :: 0 <= k < i && net in Pieces(allowed[k])
    {
      var net := allowed[i];
      if net.len == 0 {
        match SplitDefault(net) {
          case Some(s) => result := result + {s.low, s.high};
          case None => assert false;
        }
      } else {
        result := result + {net};
      }
    }
  }

  predicate Covered(nets: set<IpNet>, ip: Ip) {
    exists net :: net in nets && Contains(net, ip)
  }

  predicate CoveredBySome(nets: seq<IpNet>, ip: Ip) {
    exists i :: 0 <= i < |nets| && Contains(nets[i], ip)
  }

  /** Splitting default routes changes no address's membership. */
  lemma ExpansionKeepsAddresses(allowed: seq<IpNet>, ip: Ip)
    ensures Covered(Expanded(allowed), ip) <==> CoveredBySome(allowed, ip)
  {
    if Covered(Expanded(allowed), ip) {
      var net :| net in Expanded(allowed) && Contains(net, ip);
      var i :| 0 <= i < |allowed| && net in Pieces(allowed[i]);
      SplitIsExactAndDisjoint(allowed[i], ip);
    }
    if CoveredBySome(allowed, ip) {
      var i :| 0 <= i < |allowed| && Contains(allowed[i], ip);
      SplitIsExactAndDisjoint(allowed[i], ip);
      assert exists net :: net in Pieces(allowed[i]) && Contains(net, ip);
    }
  }

  // ----- desired and protected routes ------------------------------------------------

  predicate OnLink(tunAddrs: seq<IpNet>, net: IpNet) {
    exists i :: 0 <= i < |tunAddrs| && ContainsNet(Trunc(tunAddrs[i]), net)
  }

  function Desired(tunAddrs: seq<IpNet>, allowed: seq<IpNet>): set<IpNet> {
    set net | net in Expanded(allowed) && !OnLink(tunAddrs, net)
  }

  /** Every allowed address is routed by a desired route or lies in a TUN prefix, and nothing else is routed. */
  lemma DesiredCoversAllowed(tunAddrs: seq<IpNet>, allowed: seq<IpNet>, ip: Ip)
    ensures CoveredBySome(allowed, ip) ==> Covered(Desired(tunAddrs, allowed), ip) || CoveredBySome(tunAddrs, ip)
    ensures Covered(Desired(tunAddrs, allowed), ip) ==> CoveredBySome(allowed, ip)
  {
    ExpansionKeepsAddresses(allowed, ip);
    if CoveredBySome(allowed, ip) && !Covered(Desired(tunAddrs, allowed), ip) {
      var net :| net in Expanded(allowed) && Contains(net, ip);
      assert OnLink(tunAddrs, net);
      var i :| 0 <= i < |tunAddrs| && ContainsNet(Trunc(tunAddrs[i]), net);
      TruncKeepsPrefix(tunAddrs[i]);
      assert Contains(tunAddrs[i], ip);
    }
  }

  /** 255.255.255.255/32. */
  function LimitedBroadcast(): IpNet {
    HostNet(Extend(V4, [], true))
  }

  /** The routes a system keeps for one address of an interface. */
  function KernelNets(addr: IpNet): set<IpNet> {
    {Trunc(addr), HostNet(addr.addr)}
    + if addr.addr.family.V4? && addr.len <= 30 then {HostNet(Network(addr)), HostNet(Broadcast(addr))} else {}
  }

  function KernelRoutes(tunAddrs: seq<IpNet>): set<IpNet> {
    {LimitedBroadcast()} + (set i, net | 0 <= i < |tunAddrs| && net in KernelNets(tunAddrs[i]) :: net)
  }

  const LINK_LOCAL: seq<bool> := [true, true, true, true, true, true, true, false, true, false]
  const MULTICAST: seq<bool> := [true, true, true, true, true, true, true, true]

  predicate IsIpv6KernelRoute(net: IpNet) {
    net.addr.family.V6? && (LINK_LOCAL <= Network(net).bits || MULTICAST <= Network(net).bits)
  }

  /** Decided by the prefix's own bits: all of ff, or fe80::/10 with missing bits read as zero (fe80::/9 counts too). */
  lemma KernelRangeIsPrefix(net: IpNet)
    ensures IsIpv6KernelRoute(net) <==>
              net.addr.family.V6? && (LINK_LOCAL <= net.addr.bits[..net.len] + Zeros(10) || MULTICAST <= net.addr.bits[..net.len])
  {
    var bits, kept := Network(net).bits, net.addr.bits[..net.len];
    assert forall i :: 0 <= i < net.len ==> bits[i] == kept[i];
    assert MULTICAST[7] && LINK_LOCAL[8];
    if net.addr.family.V6? && LINK_LOCAL <= bits {
      assert net.len > 8;
    }
  }

  lemma OctetIsAllOnes(b: seq<bool>)
    requires |b| == 8
    ensures Octet(b) == 0xFF <==> b[0] && b[1] && b[2] && b[3] && b[4] && b[5] && b[6] && b[7]
    ensures Octet(b) == 0xFE <==> b[0] && b[1] && b[2] && b[3] && b[4] && b[5] && b[6] && !b[7]
  {
  }

  lemma TopTwoBits(b: seq<bool>)
    requires |b| == 8
    ensures Octet(b) / 64 == 2 <==> b[0] && !b[1]
  {
    var low := 32 * Bit(b[2]) + 16 * Bit(b[3]) + 8 * Bit(b[4]) + 4 * Bit(b[5]) + 2 * Bit(b[6]) + Bit(b[7]);
    assert Octet(b) == 64 * (2 * Bit(b[0]) + Bit(b[1])) + low && 0 <= low < 64;
    assert Octet(b) / 64 == 2 * Bit(b[0]) + Bit(b[1]);
  }

  lemma StartsMulticast(bits: seq<bool>)
    requires |bits| >= 16
    ensures MULTICAST <= bits <==> bits[0] && bits[1] && bits[2] && bits[3] && bits[4] && bits[5] && bits[6] && bits[7]
  {
    assert MULTICAST <= bits <==> bits[..8] == MULTICAST;
  }

  lemma StartsLinkLocal(bits: seq<bool>)
    requires |bits| >= 16
    ensures LINK_LOCAL <= bits <==>
              bits[0] && bits[1] && bits[2] && bits[3] && bits[4] && bits[5] && bits[6] && !bits[7] && bits[8] && !bits[9]
  {
    assert LINK_LOCAL <= bits <==> bits[..10] == LINK_LOCAL;
  }

  /** The network's first address starts with fe80::/10 or with ff00::/8. */
  lemma {:induction false} KernelRangeByBytes(net: IpNet)
    ensures var b := AddressBytes(Network(net));
            IsIpv6KernelRoute(net) <==> net.addr.family.V6? && ((b[0] == 0xFE && b[1] / 64 == 2) || b[0] == 0xFF)
  {
    var ip := Network(net);
    OctetIsAllOnes(ByteBits(ip, 0));
    TopTwoBits(ByteBits(ip, 1));
    StartsMulticast(ip.bits);
    StartsLinkLocal(ip.bits);
  }

  /** The network fe80::/9 is protected although half of its addresses lie outside fe80::/10. */
  lemma WiderThanLinkLocal(ip: Ip)
    requires ip.family.V6? && LINK_LOCAL[..9] <= ip.bits && ip.bits[9]
    ensures var net := IpNet(Extend(V6, LINK_LOCAL[..9], false), 9);
            IsIpv6KernelRoute(net) && Contains(net, ip) && !(LINK_LOCAL <= ip.bits)
  {
    var net := IpNet(Extend(V6, LINK_LOCAL[..9], false), 9);
    assert net.addr.bits[..9] == LINK_LOCAL[..9];
    var bits := Network(net).bits;
    assert forall i :: 0 <= i < 9 ==> bits[i] == LINK_LOCAL[i];
    assert bits[..10] == LINK_LOCAL;
    assert LINK_LOCAL[9] != ip.bits[9];
  }

  function Zeros(n: nat): (z: seq<bool>)
    ensures |z| == n
  {
    seq(n, _ => false)
  }

  predicate Protected(tunAddrs: seq<IpNet>, net: IpNet) {
    net in KernelRoutes(tunAddrs) || IsIpv6KernelRoute(net)
  }

  // ----- what the system keeps, by addresses ---------------------------------------------

  /** The address shares the network's first bits. */
  predicate Member(net: IpNet, ip: Ip) {
    ip.family == net.addr.family && forall k :: 0 <= k < net.len ==> ip.bits[k] == net.addr.bits[k]
  }

  /** All bits of the address past the network's length are `v`. */
  predicate HostBits(net: IpNet, ip: Ip, v: bool) {
    forall k :: net.len <= k < |ip.bits| ==> ip.bits[k] == v
  }

  ghost predicate SameMembers(a: IpNet, b: IpNet) {
    forall ip :: Member(a, ip) <==> Member(b, ip)
  }

  ghost predicate OnlyMember(net: IpNet, x: Ip) {
    forall ip :: Member(net, ip) <==> ip == x
  }

  /** The first or the last address of the network. */
  predicate IsEdge(net: IpNet, x: Ip) {
    Member(net, x) && (HostBits(net, x, false) || HostBits(net, x, true))
  }

  /** The network is one the system keeps for an interface address. */
  ghost predicate KeptFor(addr: IpNet, net: IpNet) {
    || (SameMembers(net, addr) && HostBits(net, net.addr, false))
    || OnlyMember(net, addr.addr)
    || (addr.addr.family.V4? && addr.len <= 30 && exists x :: IsEdge(addr, x) && OnlyMember(net, x))
  }

  predicate IsLimitedBroadcast(x: Ip) {
    x.family.V4? && forall k :: 0 <= k < 32 ==> x.bits[k]
  }

  ghost predicate SystemKeeps(tunAddrs: seq<IpNet>, net: IpNet) {
    || (exists i :: 0 <= i < |tunAddrs| && KeptFor(tunAddrs[i], net))
    || (exists x :: IsLimitedBroadcast(x) && OnlyMember(net, x))
  }

  function Flipped(ip: Ip, k: nat): (r: Ip)
    requires k < |ip.bits|
    ensures r.family == ip.family && r.bits[k] != ip.bits[k] && forall i :: 0 <= i < |ip.bits| && i != k ==> r.bits[i] == ip.bits[i]
  {
    Ip(ip.family, ip.bits[k := !ip.bits[k]])
  }

  /** A shorter prefix has a member the longer one lacks. */
  lemma {:induction false} Outside(a: IpNet, b: IpNet) returns (ip: Ip)
    requires a.len < b.len && b.len <= Width(a.addr.family)
    ensures Member(a, ip) && !Member(b, ip)
  {
    ip := if Member(b, a.addr) then Flipped(a.addr, a.len) else a.addr;
  }

  lemma {:induction false} SameMembersSameLength(a: IpNet, b: IpNet)
    requires SameMembers(a, b)
    ensures a.len == b.len && Member(b, a.addr)
  {
    assert Member(a, a.addr) && Member(b, b.addr);
    if a.len < b.len {
      var ip := Outside(a, b);
    } else if b.len < a.len {
      var ip := Outside(b, a);
    }
  }

  lemma {:induction false} SameMembersIsTrunc(net: IpNet, addr: IpNet)
    ensures SameMembers(net, addr) && HostBits(net, net.addr, false) <==> net == Trunc(addr)
  {
    if SameMembers(net, addr) && HostBits(net, net.addr, false) {
      SameMembersSameLength(net, addr);
      assert net.addr.bits == Network(addr).bits;
    }
  }

  lemma {:induction false} OnlyMemberIsHost(net: IpNet, x: Ip)
    ensures OnlyMember(net, x) <==> net == HostNet(x)
  {
    if OnlyMember(net, x) {
      assert Member(net, net.addr);
      if net.len < Width(x.family) {
        assert Member(net, Flipped(net.addr, net.len));
      }
    }
    if net == HostNet(x) {
      forall ip
        ensures Member(net, ip) <==> ip == x
      {
        if Member(net, ip) {
          assert ip.bits == x.bits;
        }
      }
    }
  }

  lemma {:induction false} EdgeIsNetworkOrBroadcast(addr: IpNet, x: Ip)
    ensures IsEdge(addr, x) <==> x == Network(addr) || x == Broadcast(addr)
  {
    if IsEdge(addr, x) {
      assert HostBits(addr, x, false) ==> x.bits == Network(addr).bits;
      assert HostBits(addr, x, true) ==> x.bits == Broadcast(addr).bits;
    }
    assert Member(addr, Network(addr)) && Member(addr, Broadcast(addr));
  }

  lemma {:induction false} KeptForIff(addr: IpNet, net: IpNet)
    ensures KeptFor(addr, net) <==> net in KernelNets(addr)
  {
    SameMembersIsTrunc(net, addr);
    OnlyMemberIsHost(net, addr.addr);
    OnlyMemberIsHost(net, Network(addr));
    OnlyMemberIsHost(net, Broadcast(addr));
    EdgeIsNetworkOrBroadcast(addr, Network(addr));
    EdgeIsNetworkOrBroadcast(addr, Broadcast(addr));
    if x :| IsEdge(addr, x) && OnlyMember(net, x) {
      EdgeIsNetworkOrBroadcast(addr, x);
    }
  }

  lemma {:induction false} LimitedBroadcastIff(net: IpNet)
    ensures (exists x :: IsLimitedBroadcast(x) && OnlyMember(net, x)) <==> net == LimitedBroadcast()
  {
    var all := Extend(V4, [], true);
    OnlyMemberIsHost(net, all);
    assert IsLimitedBroadcast(all);
    if x :| IsLimitedBroadcast(x) && OnlyMember(net, x) {
      assert x.bits == all.bits;
    }
  }

  /**
    The protected networks, by their members: for every TUN address its network and
    the address itself, for an IPv4 network of up to 30 bits also its first and
    last address, and 255.255.255.255.
   */
  lemma {:induction false} KernelRoutesBySense(tunAddrs: seq<IpNet>, net: IpNet)
    ensures net in KernelRoutes(tunAddrs) <==> SystemKeeps(tunAddrs, net)
  {
    LimitedBroadcastIff(net);
    forall i | 0 <= i < |tunAddrs|
      ensures KeptFor(tunAddrs[i], net) <==> net in KernelNets(tunAddrs[i])
    {
      KeptForIff(tunAddrs[i], net);
    }
  }

  /** Some address of the network lies outside the other. */
  ghost predicate Beyond(net: IpNet, other: IpNet) {
    exists ip :: Member(net, ip) && !Member(other, ip)
  }

  lemma {:induction false} InsideIff(outer: IpNet, inner: IpNet)
    ensures ContainsNet(outer, inner) <==> !Beyond(inner, outer)
  {
    var a, b := Canonical(outer).bits, Canonical(inner).bits;
    if ContainsNet(outer, inner) {
      assert forall k :: 0 <= k < outer.len ==> outer.addr.bits[k] == a[k] == b[k] == inner.addr.bits[k];
    } else {
      assert Member(inner, inner.addr);
      if Member(outer, inner.addr) {
        assert outer.len <= inner.len ==> a <= b;
        var ip := Outside(inner, outer);
      }
    }
  }

  /** The wanted networks: the expanded ones that reach beyond every TUN network. */
  lemma {:induction false} DesiredReachesBeyond(tunAddrs: seq<IpNet>, allowed: seq<IpNet>, net: IpNet)
    ensures net in Desired(tunAddrs, allowed) <==>
              net in Expanded(allowed) && forall i :: 0 <= i < |tunAddrs| ==> Beyond(net, tunAddrs[i])
  {
    forall i | 0 <= i < |tunAddrs|
      ensures ContainsNet(Trunc(tunAddrs[i]), net) <==> !Beyond(net, tunAddrs[i])
    {
      TruncKeepsPrefix(tunAddrs[i]);
      InsideIff(tunAddrs[i], net);
    }
  }

  // ----- the route table --------------------------------------------------------------

  /** The routes of other interfaces, in order. */
  function Others(tun: nat): Route -> seq<Route> {
    (r: Route) => if r.ifIndex == Some(tun) then [] else [r]
  }

  predicate OnTun(r: Route, tun: nat) {
    r.ifIndex == Some(tun) && NetOf(r).Some?
  }

  function TunNets(routes: seq<Route>, tun: nat): set<IpNet> {
    set r | r in routes && OnTun(r, tun) :: NetOf(r).value
  }

  datatype Request = Request(tun: nat, tunAddrs: seq<IpNet>, allowed: seq<IpNet>)

  function Wanted(q: Request): set<IpNet> {
    Desired(q.tunAddrs, q.allowed)
  }

  /** A route the synchroniser removes. */
  predicate Stale(q: Request, r: Route) {
    OnTun(r, q.tun) && NetOf(r).value !in Wanted(q) && !Protected(q.tunAddrs, NetOf(r).value)
  }

  /** Nothing to do: what is wanted is there and everything there is wanted or protected. */
  predicate InSync(q: Request, routes: seq<Route>) {
    Wanted(q) <= TunNets(routes, q.tun) && NoneStale(q, routes)
  }

  predicate NoneStale(q: Request, routes: seq<Route>) {
    forall r :: r in routes ==> !Stale(q, r)
  }

  function Without(routes: seq<Route>, r: Route): seq<Route> {
    if routes == [] then []
    else if routes[0] == r then routes[1..]
    else [routes[0]] + Without(routes[1..], r)
  }

  lemma {:induction false} WithoutFacts(routes: seq<Route>, r: Route, tun: nat)
    requires r.ifIndex == Some(tun)
    ensures multiset(Without(routes, r)) == multiset(routes) - multiset{r}
    ensures FlatMap(Others(tun), Without(routes, r)) == FlatMap(Others(tun), routes)
  {
    if routes != [] {
      var head, tail := routes[0], routes[1..];
      assert routes == [head] + tail;
      FlatMapAppend(Others(tun), [head], tail);
      FlatMapOne(Others(tun), head);
      if head != r {
        WithoutFacts(tail, r, tun);
        FlatMapAppend(Others(tun), [head], Without(tail, r));
      }
    }
  }

  /** The system's table; `works(k)` says whether the k-th change succeeds. */
  class Handle {
    const works: nat -> bool
    const lists: bool
    var routes: seq<Route>
    var ops: nat

    constructor (routes: seq<Route>, works: nat -> bool, lists: bool)
      ensures this.routes == routes && this.works == works && this.lists == lists && ops == 0
    {
      this.routes, this.works, this.lists, ops := routes, works, lists, 0;
    }

    method Add(r: Route)
      modifies this
      ensures ops == old(ops) + 1
      ensures routes == if works(old(ops)) then old(routes) + [r] else old(routes)
    {
      if works(ops) {
        routes := routes + [r];
      }
      ops := ops + 1;
    }

    method Delete(r: Route)
      modifies this
      ensures ops == old(ops) + 1
      ensures routes == if works(old(ops)) then Without(old(routes), r) else old(routes)
    {
      if works(ops) {
        routes := Without(routes, r);
      }
      ops := ops + 1;
    }
  }

  /** Every change from the k-th on succeeds. */
  ghost predicate AllWork(works: nat -> bool, from: nat) {
    forall k: nat :: k >= from ==> works(k)
  }

  /** What a pass that may fail anywhere still guarantees while it removes routes. */
  ghost predicate Swept(q: Request, listing: seq<Route>, routes: seq<Route>) {
    && FlatMap(Others(q.tun), routes) == FlatMap(Others(q.tun), listing)
    && forall r :: multiset(routes)[r] <= multiset(listing)[r] && (!Stale(q, r) ==> multiset(routes)[r] == multiset(listing)[r])
  }

  /** At most the stale routes not yet looked at are left. */
  ghost predicate OnlyAhead(q: Request, listing: seq<Route>, i: nat, routes: seq<Route>)
    requires i <= |listing|
  {
    forall r :: Stale(q, r) ==> multiset(routes)[r] <= multiset(listing[i..])[r]
  }

  lemma {:induction false} SweptStep(q: Request, listing: seq<Route>, r: Route, routes: seq<Route>)
    requires Swept(q, listing, routes) && Stale(q, r)
    ensures Swept(q, listing, Without(routes, r))
  {
    WithoutFacts(routes, r, q.tun);
  }

  lemma {:induction false} AheadStep(q: Request, listing: seq<Route>, i: nat, routes: seq<Route>, routes': seq<Route>)
    requires i < |listing| && OnlyAhead(q, listing, i, routes)
    requires routes' == if Stale(q, listing[i]) then Without(routes, listing[i]) else routes
    ensures OnlyAhead(q, listing, i + 1, routes')
  {
    assert listing[i..] == [listing[i]] + listing[i+1..];
    if Stale(q, listing[i]) {
      WithoutFacts(routes, listing[i], q.tun);
    }
  }

  /** The wanted net of one listed TUN route, if it has one. */
  function Found(q: Request, r: Route): set<IpNet> {
    if OnTun(r, q.tun) && NetOf(r).value in Wanted(q) then {NetOf(r).value} else {}
  }

  lemma FoundOneMore(q: Request, listing: seq<Route>, i: nat)
    requires i < |listing|
    ensures Wanted(q) * TunNets(listing[..i+1], q.tun) == Wanted(q) * TunNets(listing[..i], q.tun) + Found(q, listing[i])
  {
    assert listing[..i+1] == listing[..i] + [listing[i]];
  }

  /** Looks at one listed route: notes it when wanted, keeps it when protected, else deletes it. */
  method Visit(q: Request, route: Route, desired: set<IpNet>, kernel: set<IpNet>, h: Handle) returns (found: set<IpNet>)
    requires desired == Wanted(q) && kernel == KernelRoutes(q.tunAddrs)
    modifies h
    ensures found == Found(q, route)
    ensures h.ops == old(h.ops) + if Stale(q, route) then 1 else 0
    ensures h.routes == if Stale(q, route) && h.works(old(h.ops)) then Without(old(h.routes), route) else old(h.routes)
  {
    found := {};
    match NetOf(route) {
      case None =>
      case Some(net) =>
        if route.ifIndex == Some(q.tun) {
          if net in desired {
            found := {net};
          } else if net in kernel || IsIpv6KernelRoute(net) {
          } else {
            h.Delete(route);
          }
        }
    }
  }

  /** Deletes the stale routes of a listing and returns the wanted nets it saw. */
  method DeleteStale(q: Request, desired: set<IpNet>, kernel: set<IpNet>, h: Handle) returns (existing: set<IpNet>)
    requires desired == Wanted(q) && kernel == KernelRoutes(q.tunAddrs)
    modifies h
    ensures existing == Wanted(q) * TunNets(old(h.routes), q.tun)
    ensures Swept(q, old(h.routes), h.routes)
    ensures old(h.ops) <= h.ops
    ensures AllWork(h.works, old(h.ops)) ==> NoneStale(q, h.routes)
    ensures NoneStale(q, old(h.routes)) ==> h.routes == old(h.routes) && h.ops == old(h.ops)
  {
    var listing := h.routes;
    existing := {};
    for i := 0 to |listing|
      invariant old(h.ops) <= h.ops
      invariant existing == Wanted(q) * TunNets(listing[..i], q.tun)
      invariant Swept(q, listing, h.routes)
      invariant AllWork(h.works, old(h.ops)) ==> OnlyAhead(q, listing, i, h.routes)
      invariant NoneStale(q, listing) ==> h.routes == listing && h.ops == old(h.ops)
    {
      ghost var before := h.routes;
      var found := Visit(q, listing[i], desired, kernel, h);
      FoundOneMore(q, listing, i);
      existing := existing + found;
      if Stale(q, listing[i]) {
        SweptStep(q, listing, listing[i], before);
      }
      if AllWork(h.works, old(h.ops)) {
        AheadStep(q, listing, i, before, h.routes);
      }
    }
    assert listing[..|listing|] == listing;
    assert listing[|listing|..] == [];
  }

  /** `after` is `before` with wanted TUN routes appended. */
  ghost predicate Grown(q: Request, before: seq<Route>, after: seq<Route>) {
    && before <= after
    && FlatMap(Others(q.tun), after) == FlatMap(Others(q.tun), before)
    && forall r :: r in after && r !in before ==>
         OnTun(r, q.tun) && NetOf(r).value in Wanted(q) && r.table == 254 && r.metric.None?
  }

  lemma {:induction false} GrowStep(q: Request, before: seq<Route>, mid: seq<Route>, net: IpNet)
    requires Grown(q, before, mid) && net in Wanted(q)
    ensures Grown(q, before, mid + [NewRoute(net, q.tun)])
  {
    var r := NewRoute(net, q.tun);
    FlatMapAppend(Others(q.tun), mid, [r]);
    FlatMapOne(Others(q.tun), r);
  }

  /** Adds every wanted net that was not there, in any order. */
  method AddMissing(q: Request, desired: set<IpNet>, existing: set<IpNet>, h: Handle)
    requires desired == Wanted(q) && existing <= desired
    modifies h
    ensures Grown(q, old(h.routes), h.routes) && old(h.ops) <= h.ops
    ensures existing == desired ==> h.ops == old(h.ops) && h.routes == old(h.routes)
    ensures AllWork(h.works, old(h.ops)) ==> Wanted(q) - existing <= TunNets(h.routes, q.tun)
  {
    var todo := desired;
    while todo != {}
      invariant todo <= desired && old(h.ops) <= h.ops && Grown(q, old(h.routes), h.routes)
      invariant existing == desired ==> h.ops == old(h.ops) && h.routes == old(h.routes)
      invariant AllWork(h.works, old(h.ops)) ==> forall net :: net in desired && net !in todo && net !in existing ==> NewRoute(net, q.tun) in h.routes
      decreases todo
    {
      var net :| net in todo;
      if net !in existing {
        GrowStep(q, old(h.routes), h.routes, net);
        h.Add(NewRoute(net, q.tun));
      }
      todo := todo - {net};
    }
    AddedNets(q, existing, h.routes, AllWork(h.works, old(h.ops)));
  }

  lemma AddedNets(q: Request, existing: set<IpNet>, routes: seq<Route>, allWork: bool)
    requires allWork ==> forall net :: net in Wanted(q) && net !in existing ==> NewRoute(net, q.tun) in routes
    ensures allWork ==> Wanted(q) - existing <= TunNets(routes, q.tun)
  {
    forall net | allWork && net in Wanted(q) - existing
      ensures net in TunNets(routes, q.tun)
    {
      assert NetOf(NewRoute(net, q.tun)) == Some(net);
    }
  }

  // ----- one synchronisation -----------------------------------------------------------

  datatype SyncError = InterfaceLookup | ListFailed

  /** The protected nets the TUN already has. */
  function KeptNets(q: Request, routes: seq<Route>): set<IpNet> {
    set net | net in TunNets(routes, q.tun) && Protected(q.tunAddrs, net)
  }

  /** What a run with failures anywhere keeps, and what one without them establishes. */
  ghost predicate Synced(q: Request, before: seq<Route>, after: seq<Route>, allWork: bool) {
    && FlatMap(Others(q.tun), after) == FlatMap(Others(q.tun), before)
    && (forall r :: r in before && !Stale(q, r) ==> r in after)
    && TunNets(after, q.tun) <= TunNets(before, q.tun) + Wanted(q)
    && (forall r :: r in after && r !in before ==> OnTun(r, q.tun) && NetOf(r).value in Wanted(q) && r.table == 254 && r.metric.None?)
    && (allWork ==> InSync(q, after))
    && (allWork ==> TunNets(after, q.tun) == Wanted(q) + KeptNets(q, before))
  }

  lemma {:induction false} PassesCompose(q: Request, before: seq<Route>, mid: seq<Route>, after: seq<Route>, existing: set<IpNet>, allWork: bool)
    requires Swept(q, before, mid) && existing == Wanted(q) * TunNets(before, q.tun)
    requires Grown(q, mid, after)
    requires allWork ==> NoneStale(q, mid) && Wanted(q) - existing <= TunNets(after, q.tun)
    ensures Synced(q, before, after, allWork)
  {
    assert forall r :: r in before <==> multiset(before)[r] > 0;
    assert forall r :: r in mid <==> multiset(mid)[r] > 0;
    assert forall r :: r in mid ==> r in after;
    assert forall r :: r in before && !Stale(q, r) ==> r in mid;
    assert existing <= TunNets(after, q.tun);
    if allWork {
      var kept := KeptNets(q, before);
      forall net
        ensures net in TunNets(after, q.tun) <==> net in Wanted(q) || net in kept
      {
        if net in TunNets(after, q.tun) {
          var r :| r in after && OnTun(r, q.tun) && NetOf(r).value == net;
          assert r !in mid || !Stale(q, r);
        }
        if net in kept {
          var r :| r in before && OnTun(r, q.tun) && NetOf(r).value == net;
          assert !Stale(q, r);
        }
      }
    }
  }

  lemma {:induction false} SyncedBySense(q: Request, before: seq<Route>, after: seq<Route>, allWork: bool)
    requires Synced(q, before, after, allWork)
    ensures forall r :: r in before && OnTun(r, q.tun) && SystemKeeps(q.tunAddrs, NetOf(r).value) ==> r in after
    ensures allWork ==>
              forall r :: r in after && OnTun(r, q.tun) && r.destination.family.V4? ==>
                NetOf(r).value in Wanted(q) || SystemKeeps(q.tunAddrs, NetOf(r).value)
  {
    forall r | (r in before || r in after) && OnTun(r, q.tun)
      ensures NetOf(r).value in KernelRoutes(q.tunAddrs) <==> SystemKeeps(q.tunAddrs, NetOf(r).value)
    {
      KernelRoutesBySense(q.tunAddrs, NetOf(r).value);
    }
  }

  /**
    Synchronises the table with a request. Routes of other interfaces, and TUN
    routes that are wanted or protected, survive every failure; without failures
    the TUN has exactly the wanted routes and the protected ones it already had,
    and a table in that state costs no operation.
   */
  method SyncTunRoutes(resolved: Option<nat>, tunAddrs: seq<IpNet>, allowed: seq<IpNet>, h: Handle)
    returns (result: Result<(), SyncError>)
    modifies h
    ensures result.Ok? <==> resolved.Some? && h.lists
    ensures result.Err? ==> h.routes == old(h.routes) && h.ops == old(h.ops)
    ensures result.Ok? ==>
              var q := Request(resolved.value, tunAddrs, allowed);
              && Synced(q, old(h.routes), h.routes, AllWork(h.works, old(h.ops)))
              && (InSync(q, old(h.routes)) ==> h.routes == old(h.routes) && h.ops == old(h.ops))
              && (forall r :: r in old(h.routes) && OnTun(r, q.tun) && SystemKeeps(tunAddrs, NetOf(r).value) ==> r in h.routes)
              && (AllWork(h.works, old(h.ops)) ==>
                    forall r :: r in h.routes && OnTun(r, q.tun) && r.destination.family.V4? ==>
                      NetOf(r).value in Wanted(q) || SystemKeeps(tunAddrs, NetOf(r).value))
  {
    match resolved {
      case None =>
        return Err(InterfaceLookup);
      case Some(tun) =>
        if !h.lists {
          return Err(ListFailed);
        }
        ghost var q := Request(tun, tunAddrs, allowed);
        var expanded := ExpandAllowedPrefixes(allowed);
        var desired := set net | net in expanded && !OnLink(tunAddrs, net);
        var kernel := KernelRoutes(tunAddrs);
        var existing := DeleteStale(Request(tun, tunAddrs, allowed), desired, kernel, h);
        ghost var mid := h.routes;
        AddMissing(Request(tun, tunAddrs, allowed), desired, existing, h);
        PassesCompose(q, old(h.routes), mid, h.routes, existing, AllWork(h.works, old(h.ops)));
        SyncedBySense(q, old(h.routes), h.routes, AllWork(h.works, old(h.ops)));
        return Ok(());
    }
  }

  /** Two synchronisations in a row: when the first one's changes all succeed, the second makes none. */
  method SyncAgain(tun: nat, tunAddrs: seq<IpNet>, allowed: seq<IpNet>, h: Handle)
    returns (routes: seq<Route>, ops: nat)
    requires h.lists
    modifies h
    ensures AllWork(h.works, old(h.ops)) ==> h.ops == ops && h.routes == routes
  {
    var first := SyncTunRoutes(Some(tun), tunAddrs, allowed, h);
    routes, ops := h.routes, h.ops;
    var second := SyncTunRoutes(Some(tun), tunAddrs, allowed, h);
  }
}
