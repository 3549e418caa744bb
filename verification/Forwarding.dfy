/** Where a packet goes once the control plane has settled (src/orch.rs, src/router.rs). */
module Forwarding {
  import opened Base
  import opened Net
  import opened Sequences
  import opened Peers
  import opened PeerRules
  import opened Orch
  import opened ControlPlane
  import opened Downstream
  import opened Ttl
  import opened Metrics
  import Ingress
  import Layout
  import Routing

  // ----- the promise, without tables -------------------------------------------------------------

  /** The peer is connected and allowed the prefix. */
  ghost predicate Serves(peers: map<string, PeerEntry>, id: string, n: Prefix) {
    id in peers && peers[id].bounds != [] && Routing.Allows(peers[id].config, n)
  }

  ghost predicate Served(peers: map<string, PeerEntry>, n: Prefix) {
    exists id :: Serves(peers, id, n)
  }

  /** No prefix is served by two peers. */
  ghost predicate Uncontested(peers: map<string, PeerEntry>) {
    forall a, b, n :: Serves(peers, a, n) && Serves(peers, b, n) ==> a == b
  }

  ghost predicate Claimed(peers: map<string, PeerEntry>, l: Local, n: Prefix) {
    Served(peers, n) || Routing.IsLocal(l.addrs, n)
  }

  /** The longest claimed prefix that contains the address. */
  ghost predicate Best(peers: map<string, PeerEntry>, l: Local, dst: Ip, n: Prefix) {
    && Claimed(peers, l, n) && InPrefix(n, dst)
    && forall m :: Claimed(peers, l, m) && InPrefix(m, dst) && m != n ==> |m.bits| < |n.bits|
  }

  /** The byte of the header that counts hops down: the TTL of IPv4, the hop limit of IPv6. */
  function HopsLeft(p: Ingress.Packet): byte
    requires |p| > 8
  {
    if p[0] / 16 == 4 then p[8] else p[7]
  }

  /** A packet bound for a sender: decremented, and turned back to the TUN when its hops run out. */
  function Sent(p: Ingress.Packet, tx: Chan, input: Chan): (Ingress.Outlet, Ingress.Item)
    requires |p| > 8
  {
    if tx == input then (Ingress.To(input), Ingress.Item(p, false))
    else if HopsLeft(p) <= 1 then (Ingress.To(input), Ingress.Item(Decremented(p), true))
    else (Ingress.To(tx), Ingress.Item(Decremented(p), false))
  }

  /** What becomes of a packet whose best prefix is `n`. */
  ghost predicate Leaves(peers: map<string, PeerEntry>, l: Local, n: Prefix, p: Ingress.Packet, out: (Ingress.Outlet, Ingress.Item))
    requires |p| > 8
  {
    if Served(peers, n) then exists id :: Serves(peers, id, n) && out == Sent(p, peers[id].bounds[0].tx, l.input)
    else out == (Ingress.To(l.input), Ingress.Item(p, false))
  }

  /** What becomes of a packet for `dst`. */
  ghost predicate Forwards(peers: map<string, PeerEntry>, l: Local, dst: Ip, p: Ingress.Packet, out: (Ingress.Outlet, Ingress.Item))
    requires |p| > 8
  {
    if exists n :: Claimed(peers, l, n) && InPrefix(n, dst)
    then exists n :: Best(peers, l, dst, n) && Leaves(peers, l, n, p, out)
    else out == (Ingress.Discard(NoRoute), Ingress.Item(p, false))
  }

  /** What becomes of any packet: one with a destination in its header goes there, and exactly the others are malformed. */
  ghost predicate Handles(peers: map<string, PeerEntry>, l: Local, p: Ingress.Packet, out: (Ingress.Outlet, Ingress.Item)) {
    && (forall dst :: Layout.Addressed(p, dst) ==> |p| > 8 && Forwards(peers, l, dst, p, out))
    && (out.0 == Ingress.Discard(InvalidIpVersion) <==> forall dst :: !Layout.Addressed(p, dst))
    && (out.0 == Ingress.Discard(InvalidIpVersion) ==> out.1 == Ingress.Item(p, false))
  }

  // ----- the table keeps it -------------------------------------------------------------------------

  /** The table routes every claimed prefix, served ones to their peer's sender, and no other. */
  ghost predicate Routes(table: Routing.Trie, peers: map<string, PeerEntry>, l: Local) {
    && (forall n :: n in table <==> Claimed(peers, l, n))
    && (forall n, id :: Serves(peers, id, n) ==> n in table && table[n].tx == peers[id].bounds[0].tx)
    && (forall n :: n in table && !Served(peers, n) ==> table[n].tx == l.input)
  }

  /** The values of a map can be listed. */
  lemma {:induction false} Listing(configs: map<string, Peer>) returns (listing: seq<Peer>)
    ensures ListsValues(listing, configs)
    decreases configs.Keys
  {
    if configs == map[] {
      listing := [];
    } else {
      var id :| id in configs;
      var rest := configs - {id};
      var front := Listing(rest);
      listing := front + [configs[id]];
      forall p
        ensures p in listing <==> p in configs.Values
      {
        assert p in front <==> p in rest.Values;
        if p in configs.Values {
          var x :| x in configs && configs[x] == p;
          assert x != id ==> x in rest && rest[x] == p;
        }
      }
    }
  }

  lemma {:induction false} OwnsIsServes(peers: map<string, PeerEntry>, listing: seq<Peer>, id: string, n: Prefix)
    requires KeyedById(Configs(peers)) && ListsValues(listing, Configs(peers))
    ensures Routing.Owns(listing, Senders(peers), id, n) <==> Serves(peers, id, n)
  {
    var configs := Configs(peers);
    if Serves(peers, id, n) {
      assert configs[id] in configs.Values && configs[id] in listing;
    }
    if Routing.Owns(listing, Senders(peers), id, n) {
      var q :| q in listing && q.id == id && Routing.Allows(q, n);
      assert q in configs.Values;
      var x :| x in configs && configs[x] == q;
      assert x == id;
    }
  }

  lemma {:induction false} UncontestedIsUndisputed(peers: map<string, PeerEntry>, listing: seq<Peer>)
    requires KeyedById(Configs(peers)) && ListsValues(listing, Configs(peers))
    ensures Uncontested(peers) <==> !Routing.Disputed(listing, Senders(peers))
  {
    forall id, n
      ensures Routing.Owns(listing, Senders(peers), id, n) <==> Serves(peers, id, n)
    {
      OwnsIsServes(peers, listing, id, n);
    }
  }

  lemma {:induction false} MadeRoutes(peers: map<string, PeerEntry>, listing: seq<Peer>, l: Local, table: Routing.Trie)
    requires KeyedById(Configs(peers)) && ListsValues(listing, Configs(peers)) && TableFor(peers, listing, l) == Ok(table)
    ensures Routes(table, peers, l)
  {
    forall id, n
      ensures Routing.Owns(listing, Senders(peers), id, n) <==> Serves(peers, id, n)
    {
      OwnsIsServes(peers, listing, id, n);
    }
    Routing.MadeFacts(listing, Senders(peers), l.addrs, l.input);
  }

  lemma {:induction false} MatchIsBest(table: Routing.Trie, peers: map<string, PeerEntry>, l: Local, dst: Ip)
    requires Routes(table, peers, l)
    ensures match Routing.Lookup(table, dst)
            case Some(m) => Best(peers, l, dst, m.prefix) && m.prefix in table && m.entry == table[m.prefix]
            case None => forall n :: Claimed(peers, l, n) ==> !InPrefix(n, dst)
  {
    Routing.LookupIsLongestMatch(table, dst);
  }

  lemma {:induction false} RouteLeaves(
    table: Routing.Trie, peers: map<string, PeerEntry>, l: Local, m: Routing.RouteMatch, p: Ingress.Packet)
    requires Routes(table, peers, l) && m.prefix in table && m.entry == table[m.prefix]
    requires |p| > 8 && OldTtl(p) == Some(HopsLeft(p))
    ensures Leaves(peers, l, m.prefix, p, Ingress.RouteTo(Ingress.Context(table, l.input), Some(m), p))
  {
    if Served(peers, m.prefix) {
      var id :| Serves(peers, id, m.prefix);
      assert m.entry.tx == peers[id].bounds[0].tx;
    }
  }

  lemma {:induction false} TableForwards(table: Routing.Trie, peers: map<string, PeerEntry>, l: Local, p: Ingress.Packet, dst: Ip)
    requires Routes(table, peers, l) && Ingress.ExtractDstIp(p) == Some(dst)
    ensures |p| > 8 && Forwards(peers, l, dst, p, Ingress.RouteOne(Ingress.Context(table, l.input), p))
  {
    MatchIsBest(table, peers, l, dst);
    match Routing.Lookup(table, dst)
    case None =>
    case Some(m) => RouteLeaves(table, peers, l, m, p);
  }

  lemma {:induction false} MalformedHasNoDestination(p: Ingress.Packet)
    ensures Ingress.ExtractDstIp(p).None? <==> forall dst :: !Layout.Addressed(p, dst)
  {
    if Ingress.ExtractDstIp(p).Some? {
      Layout.ExtractedWasPut(p);
    } else {
      forall dst
        ensures !Layout.Addressed(p, dst)
      {
        Layout.ExtractsDestination(p, dst);
      }
    }
  }

  lemma {:induction false} RoutedIsNotMalformed(x: Ingress.Context, p: Ingress.Packet)
    ensures Ingress.RouteOne(x, p).0 == Ingress.Discard(InvalidIpVersion) <==> Ingress.ExtractDstIp(p).None?
    ensures Ingress.ExtractDstIp(p).None? ==> Ingress.RouteOne(x, p).1 == Ingress.Item(p, false)
  {
    Ingress.DestinationImpliesTtl(p);
  }

  lemma {:induction false} TableHandles(table: Routing.Trie, peers: map<string, PeerEntry>, l: Local, p: Ingress.Packet)
    requires Routes(table, peers, l)
    ensures Handles(peers, l, p, Ingress.RouteOne(Ingress.Context(table, l.input), p))
  {
    var out := Ingress.RouteOne(Ingress.Context(table, l.input), p);
    MalformedHasNoDestination(p);
    RoutedIsNotMalformed(Ingress.Context(table, l.input), p);
    forall dst | Layout.Addressed(p, dst)
      ensures |p| > 8 && Forwards(peers, l, dst, p, out)
    {
      Layout.ExtractsDestination(p, dst);
      TableForwards(table, peers, l, p, dst);
    }
  }

  lemma {:induction false} SettledRoutes(run: seq<World>, moves: seq<Move>, configs: map<string, Peer>, p: Params, l: Local, i: nat)
    requires ValidPeerMap(configs) && IsHistory(run, moves, configs, p, l) && i < |run|
    requires Quiescent(run[i].sys) && run[i].toRouter == [] && Uncontested(run[i].sys.orch.peers)
    ensures Routes(run[i].table, run[i].sys.orch.peers, l)
  {
    var peers := run[i].sys.orch.peers;
    InnerAgrees(run, moves, configs, p, l, i);
    var listing := Listing(Configs(peers));
    UncontestedIsUndisputed(peers, listing);
    RouterHasCurrentTableIffUndisputed(run, moves, configs, p, l, i, listing);
    MadeRoutes(peers, listing, l, run[i].table);
  }

  /**
    In every run, once nothing is queued for the resolver, the orchestrator or the
    router and no prefix is served by two peers, the router sends every packet to
    the oldest connection of the peer that serves the longest prefix claimed for
    the destination in its header, and drops exactly what has no such header.
   */
  lemma {:induction false} PacketsReachTheirPeer(
    run: seq<World>, moves: seq<Move>, configs: map<string, Peer>, p: Params, l: Local, i: nat, packet: Ingress.Packet)
    requires ValidPeerMap(configs) && IsHistory(run, moves, configs, p, l) && i < |run|
    requires Quiescent(run[i].sys) && run[i].toRouter == [] && Uncontested(run[i].sys.orch.peers)
    ensures Handles(run[i].sys.orch.peers, l, packet, Ingress.RouteOne(Ingress.Context(run[i].table, l.input), packet))
  {
    SettledRoutes(run, moves, configs, p, l, i);
    TableHandles(run[i].table, run[i].sys.orch.peers, l, packet);
  }

  /** The same for a packet laid out from its header fields. */
  lemma {:induction false} LaidOutPacketsReachTheirPeer(
    run: seq<World>, moves: seq<Move>, configs: map<string, Peer>, p: Params, l: Local, i: nat,
    head: seq<byte>, src: Ip, dst: Ip, rest: seq<byte>)
    requires ValidPeerMap(configs) && IsHistory(run, moves, configs, p, l) && i < |run|
    requires Quiescent(run[i].sys) && run[i].toRouter == [] && Uncontested(run[i].sys.orch.peers)
    requires src.family == dst.family && if dst.family.V4? then Layout.IsHeadV4(head) else Layout.IsHeadV6(head)
    ensures var packet := Layout.PacketOf(head, src, dst, rest);
            |packet| > 8 && Forwards(run[i].sys.orch.peers, l, dst, packet, Ingress.RouteOne(Ingress.Context(run[i].table, l.input), packet))
  {
    SettledRoutes(run, moves, configs, p, l, i);
    Layout.ExtractsWhatWasPut(head, src, dst, rest);
    TableForwards(run[i].table, run[i].sys.orch.peers, l, Layout.PacketOf(head, src, dst, rest), dst);
  }
}
