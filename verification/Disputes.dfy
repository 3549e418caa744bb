/** A run in which an accepted configuration never reaches the router (src/orch.rs, src/router.rs). */
module Disputes {
  import opened Base
  import opened Net
  import opened Sequences
  import opened Peers
  import opened PeerRules
  import opened Orch
  import opened ControlPlane
  import opened Downstream
  import Routing
  import Dns

  // ----- runs the listener allows -----------------------------------------------------------

  /** Every connection the listener reports carried a token it had. */
  ghost predicate Authentic(run: seq<World>, moves: seq<Move>) {
    forall i :: 0 <= i < |moves| && i < |run| ==> Permitted(run[i], moves[i])
  }

  predicate Permitted(w: World, m: Move) {
    m.Inner? && m.step.Arrive? && m.step.event.Connected? ==> m.step.event.peer in w.tokens
  }

  ghost predicate IsPath(run: seq<World>, moves: seq<Move>, p: Params, l: Local, w: World, v: World) {
    Chain(Moves(p, l), run, moves) && Authentic(run, moves) && run[0] == w && run[|moves|] == v
  }

  ghost predicate Leads(p: Params, l: Local, w: World, v: World) {
    exists run, moves :: IsPath(run, moves, p, l, w, v)
  }

  lemma {:induction false} Extends(p: Params, l: Local, w: World, v: World, m: Move, u: World)
    requires Leads(p, l, w, v) && Moves(p, l)(v, m, u) && Permitted(v, m)
    ensures Leads(p, l, w, u)
  {
    var run, moves :| IsPath(run, moves, p, l, w, v);
    ChainGrows(Moves(p, l), run, moves, m, u);
    var run', moves' := run + [u], moves + [m];
    assert forall i :: 0 <= i < |moves| ==> run'[i] == run[i] && moves'[i] == moves[i];
    assert IsPath(run', moves', p, l, w, u);
  }

  lemma {:induction false} Reach(p: Params, l: Local, w: World, v: World, m: Move)
    requires Leads(p, l, w, v) && CanMove(v, m, p) && Permitted(v, m)
    ensures Leads(p, l, w, Moved(v, m, p, l))
  {
    assert Moves(p, l)(v, m, Moved(v, m, p, l));
    Extends(p, l, w, v, m, Moved(v, m, p, l));
  }

  lemma Stays(p: Params, l: Local, w: World)
    ensures Leads(p, l, w, w)
  {
    assert IsPath([w], [], p, l, w, w);
  }

  /** Two paths, one after the other. */
  lemma {:induction false} Joins(p: Params, l: Local, w: World, v: World, u: World)
    returns (run: seq<World>, moves: seq<Move>, k: nat)
    requires Leads(p, l, w, v) && Leads(p, l, v, u)
    ensures IsPath(run, moves, p, l, w, u) && k < |run| && run[k] == v
  {
    var r1, m1 :| IsPath(r1, m1, p, l, w, v);
    var r2, m2 :| IsPath(r2, m2, p, l, v, u);
    run, moves, k := r1 + r2[1..], m1 + m2, |m1|;
    forall i | 0 <= i < |moves|
      ensures Moves(p, l)(run[i], moves[i], run[i + 1]) && Permitted(run[i], moves[i])
    {
      if i < |m1| {
        assert Moves(p, l)(r1[i], m1[i], r1[i + 1]);
      } else {
        var j := i - |m1|;
        assert run[i] == r2[j] && run[i + 1] == r2[j + 1];
        assert Moves(p, l)(r2[j], m2[j], r2[j + 1]) && Permitted(r2[j], m2[j]);
      }
    }
  }

  // ----- peers that only connect in ------------------------------------------------------------

  /** An HTTP/3 peer without an endpoint: it dials in and presents its token. */
  predicate DialsIn(q: Peer) {
    q.transport.H3? && q.transport.h3.None?
  }

  predicate Up(e: PeerEntry) {
    |e.bounds| == 1 && e.bounds[0].endpoint.None?
  }

  /** The peers of `up` have one inbound connection each, the others none. */
  ghost predicate Connections(peers: map<string, PeerEntry>, up: set<string>) {
    forall id :: id in peers ==> if id in up then Up(peers[id]) else peers[id].bounds == []
  }

  /** The listener has the tokens of `configs`, and the peers of `up` are connected. */
  ghost predicate Settled(w: World, configs: map<string, Peer>, up: set<string>) {
    && w.sys.closed == {} && w.toListener == [] && w.tokens == Tokens(configs)
    && Configs(w.sys.orch.peers) == configs && Connections(w.sys.orch.peers, up)
  }

  function Inbound(ip: Ip, tx: Chan): Conn {
    Conn(None, SocketAddr(ip, 0), tx)
  }

  lemma InboundBinds(o: Orch.State, up: set<string>, id: string, c: Conn)
    requires id in o.peers && Connections(o.peers, up) && id !in up && c.endpoint.None?
    ensures BoundReroutes(o, id, c, {})
    ensures var t := Bound(o, id, c, {});
            Configs(t.peers) == Configs(o.peers) && Connections(t.peers, up + {id}) && t.toDns == o.toDns
  {
    var e := o.peers[id].(bounds := o.peers[id].bounds + [c]);
    assert e.bounds == [c] && e.bounds[1..] == [] && Keeps(e, c, {});
    assert KeptBounds(e, e.bounds, {}) == [c] + KeptBounds(e, [], {});
  }

  lemma InboundStays(e: PeerEntry)
    requires e.bounds == [] || Up(e)
    ensures KeptBounds(e, e.bounds, {}) == e.bounds
  {
    if Up(e) {
      assert e.bounds == [e.bounds[0]] && e.bounds[1..] == [];
    }
  }

  /** The same peers, each with the same connections. */
  ghost predicate SameBounds(a: map<string, PeerEntry>, b: map<string, PeerEntry>) {
    a.Keys == b.Keys && forall id :: id in a ==> a[id].bounds == b[id].bounds
  }

  lemma {:induction false} SnapshotKeepsEntry(o: Orch.State, view: Dns.View, now: Time, id: string)
    requires id in o.peers && (o.peers[id].bounds == [] || Up(o.peers[id]))
    ensures var t := WithSnapshot(o, view, {}, now); id in t.peers && t.peers[id].bounds == o.peers[id].bounds
  {
    InboundStays(o.peers[id].(resolved := Lookup(view, o.peers[id].config)));
  }

  lemma {:induction false} SnapshotKeepsBounds(o: Orch.State, up: set<string>, view: Dns.View, now: Time, t: Orch.State)
    requires Connections(o.peers, up) && Same(t, WithSnapshot(o, view, {}, now)) && t.peers.Keys == o.peers.Keys
    ensures SameBounds(o.peers, t.peers)
  {
    forall id | id in o.peers
      ensures t.peers[id].bounds == o.peers[id].bounds
    {
      SnapshotKeepsEntry(o, view, now, id);
    }
  }

  lemma SameBoundsSameSenders(a: map<string, PeerEntry>, b: map<string, PeerEntry>, up: set<string>)
    requires SameBounds(a, b) && Connections(a, up)
    ensures Connections(b, up) && Senders(a) == Senders(b)
  {
    assert forall id :: id in a ==> Preferred(a[id]) == Preferred(b[id]);
  }

  /** A snapshot leaves inbound connections alone. */
  lemma {:induction false} SnapshotKeepsInbound(o: Orch.State, up: set<string>, view: Dns.View, now: Time)
    requires Connections(o.peers, up)
    ensures var t := WithSnapshot(o, view, {}, now);
            && Configs(t.peers) == Configs(o.peers) && Connections(t.peers, up)
            && t.toDns == o.toDns && Senders(t.peers) == Senders(o.peers)
  {
    SnapshotKeepsBounds(o, up, view, now, WithSnapshot(o, view, {}, now));
    SameBoundsSameSenders(o.peers, WithSnapshot(o, view, {}, now).peers, up);
    SnapshotSettles(o, view, {}, now);
  }

  // ----- the moves of the run ---------------------------------------------------------------------

  /** The listener gets the only token map on its way. */
  lemma ListenerLearns(p: Params, l: Local, w: World, v: World) returns (u: World)
    requires Leads(p, l, w, v) && |v.toListener| == 1
    ensures Leads(p, l, w, u) && u == v.(tokens := v.toListener[0], toListener := [])
  {
    Reach(p, l, w, v, ListenerReceive);
    u := Moved(v, ListenerReceive, p, l);
  }

  lemma RouterLearns(p: Params, l: Local, w: World, v: World) returns (u: World)
    requires Leads(p, l, w, v) && |v.toRouter| == 1
    ensures Leads(p, l, w, u) && u == v.(table := v.toRouter[0], toRouter := [])
  {
    Reach(p, l, w, v, RouterReceive);
    u := Moved(v, RouterReceive, p, l);
  }

  lemma {:induction false} Arrives(p: Params, l: Local, w: World, v: World, e: Event, listing: seq<Peer>) returns (u: World)
    requires Leads(p, l, w, v) && v.sys.inbox == [] && External(e) && (e.Connected? ==> e.peer in v.tokens)
    requires ListsValues(listing, Configs(v.sys.orch.peers))
    ensures Leads(p, l, w, u) && u == v.(sys := v.sys.(inbox := [e]))
  {
    Reach(p, l, w, v, Inner(Arrive(e), listing));
    u := Moved(v, Inner(Arrive(e), listing), p, l);
    assert u.sys.inbox == [e] && u.toRouter == v.toRouter && u.toListener == v.toListener;
  }

  /** The orchestrator binds an inbound connection: the table is sent if there is one. */
  lemma {:induction false} Binds(p: Params, l: Local, w: World, v: World, id: string, c: Conn, listing: seq<Peer>) returns (u: World)
    requires Leads(p, l, w, v) && v.sys.inbox == [Connected(id, c)] && v.sys.closed == {} && v.toRouter == []
    requires BoundReroutes(v.sys.orch, id, c, {}) && ListsValues(listing, Configs(Bound(v.sys.orch, id, c, {}).peers))
    ensures Leads(p, l, w, u) && u == v.(toRouter := u.toRouter, sys := v.sys.(inbox := [], orch := Bound(v.sys.orch, id, c, {})))
    ensures var made := TableFor(u.sys.orch.peers, listing, l); u.toRouter == if made.Ok? then [made.value] else []
  {
    Reach(p, l, w, v, Inner(OrchEvent, listing));
    u := Moved(v, Inner(OrchEvent, listing), p, l);
    assert u.toListener == v.toListener;
  }

  /** A peer whose token the listener has connects. */
  lemma {:induction false} Connects(
    p: Params, l: Local, w: World, v: World, configs: map<string, Peer>, up: set<string>, id: string, c: Conn, listing: seq<Peer>)
    returns (u: World)
    requires Leads(p, l, w, v) && Settled(v, configs, up) && v.sys.inbox == [] && v.toRouter == [] && c.endpoint.None?
    requires id in configs && id !in up && DialsIn(configs[id]) && ListsValues(listing, configs)
    ensures Leads(p, l, w, u) && Settled(u, configs, up + {id}) && u.sys.inbox == [] && u.table == v.table
    ensures var made := TableFor(u.sys.orch.peers, listing, l); u.toRouter == if made.Ok? then [made.value] else []
  {
    InboundBinds(v.sys.orch, up, id, c);
    var mid := Arrives(p, l, w, v, Connected(id, c), listing);
    u := Binds(p, l, w, mid, id, c, listing);
  }

  lemma {:induction false} HandlesPost(p: Params, l: Local, w: World, v: World, news: seq<Peer>, listing: seq<Peer>) returns (u: World)
    requires Leads(p, l, w, v) && v.sys.inbox == [Post(news)] && v.toListener == []
    requires ListsValues(listing, Configs(Posted(v.sys.orch, news).peers)) && ValidPeerMap(Merged(Configs(v.sys.orch.peers), news))
    ensures Leads(p, l, w, u)
    ensures u == v.(sys := v.sys.(inbox := [], orch := Posted(v.sys.orch, news)), toListener := [Posted(v.sys.orch, news).tokens])
  {
    Reach(p, l, w, v, Inner(OrchEvent, listing));
    u := Moved(v, Inner(OrchEvent, listing), p, l);
    PostInstallsWhatItValidated(v.sys.orch, news);
    assert u.sys.orch.toDns != v.sys.orch.toDns;
    assert u.sys.inbox == [] && u.toRouter == v.toRouter;
  }

  lemma PostInstalls(o: Orch.State, up: set<string>, b: Peer)
    requires ValidPeerMap(Configs(o.peers)[b.id := b]) && b.id !in o.peers && Connections(o.peers, up) && b.id !in up
    ensures Merged(Configs(o.peers), [b]) == Configs(o.peers)[b.id := b]
    ensures var t := Posted(o, [b]);
            Configs(t.peers) == Configs(o.peers)[b.id := b] && t.tokens == Tokens(Configs(t.peers)) && Connections(t.peers, up)
  {
    assert [b][1..] == [];
    assert Merged(Configs(o.peers), [b]) == Configs(o.peers)[b.id := b];
    assert Installed(o.peers, [b]) == Install(o.peers, b);
    PostInstallsWhatItValidated(o, [b]);
  }

  /** A valid new peer is posted, and the listener gets its token. */
  lemma {:induction false} Posts(
    p: Params, l: Local, w: World, v: World, configs: map<string, Peer>, up: set<string>, b: Peer, before: seq<Peer>, after: seq<Peer>)
    returns (u: World)
    requires Leads(p, l, w, v) && Settled(v, configs, up) && v.sys.inbox == [] && v.toRouter == []
    requires ValidPeerMap(configs[b.id := b]) && b.id !in configs && b.id !in up
    requires ListsValues(before, configs) && ListsValues(after, configs[b.id := b])
    ensures Leads(p, l, w, u) && Settled(u, configs[b.id := b], up) && u.sys.inbox == [] && u.toRouter == [] && u.table == v.table
  {
    assert b.id !in v.sys.orch.peers by { assert b.id !in Configs(v.sys.orch.peers); }
    PostInstalls(v.sys.orch, up, b);
    var v1 := Arrives(p, l, w, v, Post([b]), before);
    var v2 := HandlesPost(p, l, w, v1, [b], after);
    u := ListenerLearns(p, l, w, v2);
  }

  // ----- until nothing is queued ---------------------------------------------------------------------

  /** The world is settled and its peers dispute a prefix. */
  ghost predicate Contested(w: World, configs: map<string, Peer>, up: set<string>, listing: seq<Peer>) {
    && Settled(w, configs, up) && w.toRouter == []
    && ListsValues(listing, configs) && Routing.Disputed(listing, Senders(w.sys.orch.peers))
  }

  lemma {:induction false} ResolverAnswers(p: Params, l: Local, w: World, v: World, listing: seq<Peer>) returns (u: World)
    requires Leads(p, l, w, v) && v.sys.orch.toDns != [] && v.sys.inbox == [] && ListsValues(listing, Configs(v.sys.orch.peers))
    ensures Leads(p, l, w, u) && u == v.(sys := v.sys.(orch := v.sys.orch.(toDns := v.sys.orch.toDns[1..]), dns := u.sys.dns, inbox := u.sys.inbox))
    ensures |u.sys.inbox| == 1 && u.sys.inbox[0].Snapshot?
  {
    Reach(p, l, w, v, Inner(DnsReceive, listing));
    u := Moved(v, Inner(DnsReceive, listing), p, l);
    assert u.toRouter == v.toRouter && u.toListener == v.toListener;
  }

  /** The world after a snapshot that could not be routed. */
  lemma {:induction false} SnapshotMove(p: Params, l: Local, v: World, listing: seq<Peer>, t: Orch.State)
    requires |v.sys.inbox| == 1 && v.sys.inbox[0].Snapshot?
    requires t == Handled(v.sys.orch, v.sys.inbox[0], p.backoff, v.sys.closed, v.sys.now)
    requires ListsValues(listing, Configs(t.peers)) && TableFor(t.peers, listing, l).Err?
    ensures CanMove(v, Inner(OrchEvent, listing), p)
    ensures Moved(v, Inner(OrchEvent, listing), p, l) == v.(sys := v.sys.(orch := t, inbox := []))
  {
    var u := Moved(v, Inner(OrchEvent, listing), p, l);
    assert u.toRouter == v.toRouter && u.toListener == v.toListener && u.sys.inbox == [];
  }

  lemma {:induction false} SnapshotSendsNothing(
    p: Params, l: Local, w: World, v: World, configs: map<string, Peer>, up: set<string>, listing: seq<Peer>) returns (u: World)
    requires Leads(p, l, w, v) && Contested(v, configs, up, listing) && |v.sys.inbox| == 1 && v.sys.inbox[0].Snapshot?
    ensures Leads(p, l, w, u) && Contested(u, configs, up, listing) && u.sys.inbox == [] && u.table == v.table
    ensures u.sys.orch.toDns == v.sys.orch.toDns
  {
    var t := Handled(v.sys.orch, v.sys.inbox[0], p.backoff, v.sys.closed, v.sys.now);
    SnapshotKeepsInbound(v.sys.orch, up, v.sys.inbox[0].view, v.sys.now);
    Routing.MadeFacts(listing, Senders(t.peers), l.addrs, l.input);
    SnapshotMove(p, l, v, listing, t);
    u := v.(sys := v.sys.(orch := t, inbox := []));
    Extends(p, l, w, v, Inner(OrchEvent, listing), u);
  }

  /** Every hostname set is received and every snapshot handled; the router gets nothing. */
  lemma {:induction false} Drains(
    p: Params, l: Local, w: World, v: World, configs: map<string, Peer>, up: set<string>, listing: seq<Peer>) returns (u: World)
    requires Leads(p, l, w, v) && Contested(v, configs, up, listing) && v.sys.inbox == []
    ensures Leads(p, l, w, u) && Contested(u, configs, up, listing) && u.table == v.table && Quiescent(u.sys)
    decreases |v.sys.orch.toDns|
  {
    if v.sys.orch.toDns == [] {
      u := v;
    } else {
      var v1 := ResolverAnswers(p, l, w, v, listing);
      var v2 := SnapshotSendsNothing(p, l, w, v1, configs, up, listing);
      u := Drains(p, l, w, v2, configs, up, listing);
    }
  }

  // ----- the example ------------------------------------------------------------------------------

  /** Two valid peers, with different ids and tokens, that dial in and share a network. */
  ghost predicate Rivals(a: Peer, b: Peer, net: Prefix) {
    && ValidPeer(a) && ValidPeer(b) && DialsIn(a) && DialsIn(b) && a.id != b.id && !SameToken(a, b)
    && Routing.Allows(a, net) && Routing.Allows(b, net)
  }

  lemma RivalsExist(net: IpNet, ta: string, tb: string)
    requires |ta| >= MIN_TOKEN && |tb| >= MIN_TOKEN && Tight(ta) && Tight(tb) && ta != tb
    ensures Rivals(Peer("a", H3(None, ta, None, None), [net]), Peer("b", H3(None, tb, None, None), [net]), Canonical(net))
  {
    var a, b := Peer("a", H3(None, ta, None, None), [net]), Peer("b", H3(None, tb, None, None), [net]);
    Utf8LenAtLeast(ta);
    Utf8LenAtLeast(tb);
    assert !IsWhitespace("a"[0]) && !IsWhitespace("b"[0]);
    assert Canonical(a.allowed[0]) == Canonical(net) && Canonical(b.allowed[0]) == Canonical(net);
  }

  /** Every route leads to the peer or to the TUN. */
  ghost predicate OnlyFor(table: Routing.Trie, id: string, l: Local) {
    forall n :: n in table ==> table[n].peer == id || table[n] == Routing.RouteEntry(Routing.LOCAL_PEER_ID, l.input)
  }

  lemma AloneIsUndisputed(a: Peer, txs: map<string, Chan>, l: Local)
    ensures var made := Routing.Made([a], txs, l.addrs, l.input); made.Ok? && OnlyFor(made.value, a.id, l)
  {
    Routing.MadeFacts([a], txs, l.addrs, l.input);
  }

  lemma RivalsDispute(a: Peer, b: Peer, net: Prefix, txs: map<string, Chan>)
    requires Rivals(a, b, net) && a.id in txs && b.id in txs
    ensures Routing.Disputed([a, b], txs)
  {
    assert a in [a, b] && b in [a, b];
    assert Routing.Owns([a, b], txs, a.id, net) && Routing.Owns([a, b], txs, b.id, net);
  }

  lemma RivalsAreValid(a: Peer, b: Peer, net: Prefix)
    requires Rivals(a, b, net)
    ensures ValidPeerMap(map[a.id := a]) && ValidPeerMap(map[a.id := a, b.id := b])
    ensures ListsValues([a], map[a.id := a]) && ListsValues([a, b], map[a.id := a, b.id := b])
  {
    var one, both := map[a.id := a], map[a.id := a, b.id := b];
    assert one[a.id] in one.Values && both[a.id] in both.Values && both[b.id] in both.Values;
  }

  /** One configured peer connects: its table is sent and received. */
  lemma {:induction false} FirstPeer(a: Peer, ip: Ip, p: Params, l: Local) returns (w: World)
    requires DialsIn(a) && ListsValues([a], map[a.id := a])
    ensures Leads(p, l, Begin(map[a.id := a], 0), w) && Settled(w, map[a.id := a], {a.id})
    ensures w.sys.inbox == [] && w.toRouter == []
    ensures TableFor(w.sys.orch.peers, [a], l) == Ok(w.table) && OnlyFor(w.table, a.id, l)
  {
    var configs := map[a.id := a];
    var w0 := Begin(configs, 0);
    Stays(p, l, w0);
    assert Configs(w0.sys.orch.peers) == configs;
    var w1 := ListenerLearns(p, l, w0, w0);
    var w2 := Connects(p, l, w0, w1, configs, {}, a.id, Inbound(ip, 1), [a]);
    assert {} + {a.id} == {a.id};
    AloneIsUndisputed(a, Senders(w2.sys.orch.peers), l);
    w := RouterLearns(p, l, w0, w2);
  }

  /** The second peer is posted, and its token reaches the listener. */
  lemma {:induction false} SecondPosted(a: Peer, b: Peer, net: Prefix, p: Params, l: Local, w: World) returns (v: World)
    requires Rivals(a, b, net) && Settled(w, map[a.id := a], {a.id}) && w.sys.inbox == [] && w.toRouter == []
    ensures Leads(p, l, w, v) && Settled(v, map[a.id := a, b.id := b], {a.id})
    ensures v.sys.inbox == [] && v.toRouter == [] && v.table == w.table
  {
    RivalsAreValid(a, b, net);
    Stays(p, l, w);
    assert map[a.id := a][b.id := b] == map[a.id := a, b.id := b];
    v := Posts(p, l, w, w, map[a.id := a], {a.id}, b, [a], [a, b]);
  }

  lemma BothUpDispute(a: Peer, b: Peer, net: Prefix, l: Local, peers: map<string, PeerEntry>)
    requires Rivals(a, b, net) && Configs(peers).Keys == {a.id, b.id} && Connections(peers, {a.id, b.id})
    ensures Routing.Disputed([a, b], Senders(peers)) && TableFor(peers, [a, b], l).Err?
  {
    assert a.id in Configs(peers) && b.id in Configs(peers);
    RivalsDispute(a, b, net, Senders(peers));
    Routing.MadeFacts([a, b], Senders(peers), l.addrs, l.input);
  }

  lemma {:induction false} SecondConnects(
    a: Peer, b: Peer, net: Prefix, ip: Ip, p: Params, l: Local, w: World, mid: World, both: map<string, Peer>) returns (v: World)
    requires Rivals(a, b, net) && Leads(p, l, w, mid) && Settled(mid, both, {a.id}) && mid.sys.inbox == [] && mid.toRouter == []
    requires both.Keys == {a.id, b.id} && both[b.id] == b && ListsValues([a, b], both)
    ensures Leads(p, l, w, v) && Contested(v, both, {a.id} + {b.id}, [a, b]) && v.sys.inbox == [] && v.table == mid.table
  {
    v := Connects(p, l, w, mid, both, {a.id}, b.id, Inbound(ip, 2), [a, b]);
    assert {a.id} + {b.id} == {a.id, b.id};
    BothUpDispute(a, b, net, l, v.sys.orch.peers);
  }

  /** The second peer is posted and connects: no table can be built. */
  lemma {:induction false} SecondPeer(a: Peer, b: Peer, net: Prefix, ip: Ip, p: Params, l: Local, w: World) returns (v: World)
    requires Rivals(a, b, net) && Settled(w, map[a.id := a], {a.id}) && w.sys.inbox == [] && w.toRouter == []
    ensures Leads(p, l, w, v) && Contested(v, map[a.id := a, b.id := b], {a.id} + {b.id}, [a, b])
    ensures v.sys.inbox == [] && v.table == w.table
  {
    RivalsAreValid(a, b, net);
    var mid := SecondPosted(a, b, net, p, l, w);
    v := SecondConnects(a, b, net, ip, p, l, w, mid, map[a.id := a, b.id := b]);
  }

  /**
    For every two valid peers that share a network there is a run, in which the
    listener reports only connections it authenticated, where the second is
    posted and accepted, both are connected and nothing is queued anywhere, yet
    the router still has the table of the first alone: the second is in the
    configuration and no route leads to it.
   */
  lemma {:induction false} AcceptedPostLeavesOldTable(a: Peer, b: Peer, net: Prefix, ip: Ip, p: Params, l: Local)
    returns (run: seq<World>, moves: seq<Move>, k: nat)
    requires Rivals(a, b, net)
    ensures var both := map[a.id := a, b.id := b];
            && ValidPeerMap(map[a.id := a]) && ValidPeerMap(both)
            && IsHistory(run, moves, map[a.id := a], p, l) && Authentic(run, moves) && k <= |moves|
            && (var w, v := run[k], run[|moves|];
                && Contested(v, both, {a.id} + {b.id}, [a, b]) && Quiescent(v.sys)
                && TableFor(w.sys.orch.peers, [a], l) == Ok(v.table) && OnlyFor(v.table, a.id, l)
                && TableFor(v.sys.orch.peers, [a, b], l) != Ok(v.table))
  {
    RivalsAreValid(a, b, net);
    var w0 := Begin(map[a.id := a], 0);
    var w := FirstPeer(a, ip, p, l);
    var mid := SecondPeer(a, b, net, ip, p, l, w);
    var v := Drains(p, l, w, mid, map[a.id := a, b.id := b], {a.id} + {b.id}, [a, b]);
    Routing.MadeFacts([a, b], Senders(v.sys.orch.peers), l.addrs, l.input);
    run, moves, k := Joins(p, l, w0, w, v);
  }
}
