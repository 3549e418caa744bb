/** The orchestrator's handlers performed in place on its fields, proved against module `Orch`. */
module OrchActor {
  import opened Base
  import opened Net
  import opened Peers
  import opened PeerRules
  import opened Sequences
  import opened Orch
  import Routing

  /** Drops the connections that are closed, misdirected or no longer resolved. */
  method RetainBounds(e: PeerEntry, closed: set<Chan>) returns (kept: seq<Conn>)
    ensures kept == KeptBounds(e, e.bounds, closed)
  {
    kept := [];
    for i := 0 to |e.bounds|
      invariant kept + KeptBounds(e, e.bounds[i..], closed) == KeptBounds(e, e.bounds, closed)
    {
      if Keeps(e, e.bounds[i], closed) {
        kept := kept + [e.bounds[i]];
      }
      assert e.bounds[i..][1..] == e.bounds[i+1..];
    }
  }

  /** An iteration order of a hash map: every key once. */
  ghost predicate ListsKeys(order: seq<string>, m: map<string, Peer>) {
    && (forall i :: 0 <= i < |order| ==> order[i] in m)
    && (forall i, j :: 0 <= i < j < |order| ==> order[i] != order[j])
    && (forall id :: id in m ==> id in order)
  }

  function AllowedOf(): Peer -> seq<IpNet> {
    (p: Peer) => p.allowed
  }

  method CollectAllowed(listing: seq<Peer>) returns (allowed: seq<IpNet>)
    ensures allowed == FlatMap(AllowedOf(), listing)
  {
    allowed := [];
    for i := 0 to |listing|
      invariant allowed == FlatMap(AllowedOf(), listing[..i])
    {
      assert listing[..i+1][..i] == listing[..i];
      allowed := allowed + listing[i].allowed;
    }
    assert listing[..|listing|] == listing;
  }

  class Orchestrator {
    const backoff: Backoff
    /** The TUN's addresses and input channel. */
    const addrs: seq<IpNet>
    const input: Chan
    var peers: map<string, PeerEntry>
    var build: Build
    var sources: set<Ip>
    var tokens: map<string, string>
    var toDns: seq<set<string>>
    var dialing: map<DialKey, seq<Option<Endpoint>>>

    function Value(): State
      reads this
    {
      State(peers, build, sources, tokens, toDns, dialing)
    }

    predicate Valid()
      reads this
    {
      KeyedById(Configs(peers))
    }

    /** Every configured peer starts without connections; the first sync is sent at once. */
    constructor (backoff: Backoff, addrs: seq<IpNet>, input: Chan, configs: map<string, Peer>)
      requires KeyedById(configs)
      ensures Value() == Initial(configs) && Valid()
      ensures this.backoff == backoff && this.addrs == addrs && this.input == input
    {
      this.backoff, this.addrs, this.input := backoff, addrs, input;
      peers := map id | id in configs :: PeerEntry(configs[id], [], {}, map[]);
      build, sources, tokens, toDns, dialing := Build(map[], map[]), {}, map[], [], map[];
      new;
      SyncPeersToActors();
      assert Configs(peers) == configs;
    }

    /** The configurations in some order. */
    method PeerConfigs() returns (listing: seq<Peer>)
      ensures forall p :: p in listing <==> p in Configs(peers).Values
    {
      listing := [];
      var configs := Configs(peers);
      var done: set<string> := {};
      while done != configs.Keys
        invariant done <= configs.Keys
        invariant forall p :: p in listing <==> exists id :: id in done && configs[id] == p
        decreases configs.Keys - done
      {
        var id :| id in configs.Keys && id !in done;
        listing := listing + [configs[id]];
        done := done + {id};
      }
    }

    /**
      Builds the router's table from the current peers and their preferred senders.
      A table that cannot be built is not sent; the route synchroniser is told the
      allowed networks either way.
     */
    method UpdateRouting() returns (listing: seq<Peer>, sent: Option<Routing.Trie>, allowed: seq<IpNet>)
      modifies this`build
      ensures Value() == Rebuilt(old(Value()))
      ensures forall p :: p in listing <==> p in Configs(peers).Values
      ensures match Routing.Made(listing, Senders(peers), addrs, input)
              case Ok(trie) => sent == Some(trie)
              case Err(_) => sent == None
      ensures allowed == FlatMap(AllowedOf(), listing)
    {
      listing := PeerConfigs();
      var txs := Senders(peers);
      build := CurrentBuild(peers);
      var table, made := Routing.RoutingTable.Make(listing, txs, addrs, input);
      sent := if made.Ok? then Some(table.trie) else None;
      allowed := CollectAllowed(listing);
    }

    method UpdateAcceptedSources()
      modifies this`sources
      ensures Value() == old(Value()).(sources := AcceptedSources(old(peers)))
    {
      sources := AcceptedSources(peers);
    }

    method SyncPeersToActors()
      modifies this`tokens, this`toDns
      ensures Value() == Synced(old(Value()))
    {
      tokens := Tokens(Configs(peers));
      toDns := toDns + [Hostnames(Configs(peers))];
    }

    method Prune(id: string, closed: set<Chan>) returns (changed: bool)
      requires id in peers
      modifies this`peers
      ensures peers == old(peers)[id := Pruned(old(peers)[id], closed)]
      ensures changed == PreferredChanged(old(peers)[id], peers[id])
    {
      var e := peers[id];
      var kept := RetainBounds(e, closed);
      var e' := e.(bounds := kept, dials := (map ip | ip in e.dials && ip in e.resolved :: e.dials[ip]));
      peers := peers[id := e'];
      changed := Preferred(e) != Preferred(e');
    }

    method TryConnect(id: string, now: Time)
      requires id in peers && peers[id].config.id == id
      modifies this`peers, this`dialing
      ensures peers == old(peers)[id := Connecting(old(peers)[id], now)]
      ensures dialing == Launched(old(dialing), id, ToDial(old(peers)[id], now), ConfigEndpoint(old(peers)[id].config))
    {
      var e := peers[id];
      var covered := set i | 0 <= i < |e.bounds| :: e.bounds[i].dest.ip;
      var uncovered := set ip | ip in e.resolved && ip !in covered && !Blocked(e, ip, now);
      assert uncovered == ToDial(e, now) by {
        assert forall ip :: ip in covered <==> Covered(e, ip);
      }
      var dials := Dial(e, uncovered, now);
      peers := peers[id := e.(dials := dials)];
    }

    /** Prune, then connect. */
    method PassEntry(id: string, closed: set<Chan>, now: Time) returns (changed: bool)
      requires id in peers && peers[id].config.id == id
      modifies this`peers, this`dialing
      ensures peers == old(peers)[id := Pass(old(peers)[id], closed, now)]
      ensures dialing == LaunchedFor(old(dialing), id, old(peers)[id], closed, now)
      ensures changed == PreferredChanged(old(peers)[id], peers[id])
    {
      changed := Prune(id, closed);
      TryConnect(id, now);
    }

    method PassPool(closed: set<Chan>, now: Time) returns (changed: bool)
      requires Valid()
      modifies this`peers, this`dialing
      ensures peers == Passed(old(peers), closed, now) && dialing == Dialed(old(Value()), closed, now)
      ensures changed <==> exists id :: id in old(peers) && PreferredChanged(old(peers)[id], Pass(old(peers)[id], closed, now))
    {
      var done: set<string> := {};
      changed := false;
      PassNobody(old(peers), old(dialing), closed, now);
      while done != peers.Keys
        invariant done <= peers.Keys == old(peers).Keys
        invariant peers == PassedSome(old(peers), old(peers), done, closed, now)
        invariant dialing == DialedSome(old(peers), old(dialing), done, closed, now)
        invariant changed <==> exists id :: id in done && PreferredChanged(old(peers)[id], Pass(old(peers)[id], closed, now))
        decreases peers.Keys - done
      {
        var id :| id in peers && id !in done;
        assert Configs(old(peers))[id].id == id;
        var c := PassEntry(id, closed, now);
        changed := changed || c;
        PassOneMore(old(peers), old(peers), old(dialing), done, id, closed, now);
        done := done + {id};
      }
      PassEverybody(old(Value()), old(peers), closed, now);
    }

    method Reconcile(closed: set<Chan>, now: Time)
      requires Valid()
      modifies this`peers, this`dialing, this`build
      ensures Value() == Reconciled(old(Value()), closed, now) && Valid()
    {
      var changed := PassPool(closed, now);
      assert Configs(peers) == Configs(old(peers));
      if changed {
        var _, _, _ := UpdateRouting();
      }
    }

    method SnapshotEntry(id: string, view: map<string, set<Ip>>, closed: set<Chan>, now: Time)
      requires id in peers && peers[id].config.id == id
      modifies this`peers, this`dialing
      ensures var e := old(peers)[id].(resolved := Lookup(view, old(peers)[id].config));
              peers == old(peers)[id := Pass(e, closed, now)] && dialing == LaunchedFor(old(dialing), id, e, closed, now)
    {
      peers := peers[id := peers[id].(resolved := Lookup(view, peers[id].config))];
      var _ := PassEntry(id, closed, now);
    }

    method SnapshotPool(view: map<string, set<Ip>>, closed: set<Chan>, now: Time)
      requires Valid()
      modifies this`peers, this`dialing
      ensures peers == Passed(Resolved(old(peers), view), closed, now)
      ensures dialing == Dialed(old(Value()).(peers := Resolved(old(peers), view)), closed, now)
    {
      ghost var mid := Resolved(peers, view);
      var done: set<string> := {};
      PassNobody(old(peers), old(dialing), closed, now);
      while done != peers.Keys
        invariant done <= peers.Keys == old(peers).Keys
        invariant peers == PassedSome(old(peers), mid, done, closed, now)
        invariant dialing == DialedSome(mid, old(dialing), done, closed, now)
        decreases peers.Keys - done
      {
        var id :| id in peers && id !in done;
        assert Configs(old(peers))[id].id == id;
        assert peers[id].(resolved := Lookup(view, peers[id].config)) == mid[id];
        SnapshotEntry(id, view, closed, now);
        PassOneMore(old(peers), mid, old(dialing), done, id, closed, now);
        done := done + {id};
      }
      PassEverybody(old(Value()), mid, closed, now);
    }

    method HandleDnsSnapshot(view: map<string, set<Ip>>, closed: set<Chan>, now: Time)
      requires Valid()
      modifies this`peers, this`dialing, this`build, this`sources
      ensures Value() == WithSnapshot(old(Value()), view, closed, now) && Valid()
    {
      SnapshotPool(view, closed, now);
      assert Configs(peers) == Configs(old(peers));
      UpdateAcceptedSources();
      var _, _, _ := UpdateRouting();
    }

    method UpdateBound(peer: string, c: Conn, closed: set<Chan>)
      requires Valid()
      modifies this`peers, this`build
      ensures Value() == Bound(old(Value()), peer, c, closed) && Valid()
    {
      if peer !in peers {
        return;
      }
      var e := peers[peer];
      var dials := if c.endpoint.Some? then e.dials - {c.dest.ip} else e.dials;
      var wasEmpty := e.bounds == [];
      peers := peers[peer := e.(dials := dials, bounds := e.bounds + [c])];
      var changed := Prune(peer, closed);
      assert peers == old(peers)[peer := WithBound(e, c, closed)];
      assert Configs(peers) == Configs(old(peers));
      if wasEmpty || changed {
        var _, _, _ := UpdateRouting();
      }
    }

    method HandleDialFailed(peer: string, ip: Ip, now: Time)
      requires Valid()
      modifies this`peers
      ensures Value() == DialFailedAt(old(Value()), peer, ip, backoff, now) && Valid()
    {
      if peer !in peers {
        return;
      }
      var e := peers[peer];
      if ip in e.dials {
        peers := peers[peer := e.(dials := e.dials[ip := RecordFailure(e.dials[ip], backoff, now)])];
        assert Configs(peers) == Configs(old(peers));
      }
    }

    method MergeConfigs(news: seq<Peer>) returns (merged: map<string, Peer>)
      requires Valid()
      ensures merged == Merged(Configs(peers), news) && KeyedById(merged)
    {
      merged := Configs(peers);
      for i := 0 to |news|
        invariant Merged(merged, news[i..]) == Merged(Configs(peers), news) && KeyedById(merged)
      {
        merged := merged[news[i].id := news[i]];
        assert news[i..][1..] == news[i+1..];
      }
      assert news[|news|..] == [];
    }

    method InstallPeer(p: Peer)
      requires Valid()
      modifies this`peers
      ensures peers == Install(old(peers), p) && Valid()
    {
      if p.id in peers {
        peers := peers[p.id := peers[p.id].(config := p)];
      } else {
        peers := peers[p.id := PeerEntry(p, [], {}, map[])];
      }
      assert Configs(peers) == Configs(old(peers))[p.id := p];
    }

    method InstallPeers(news: seq<Peer>)
      requires Valid()
      modifies this`peers
      ensures peers == Installed(old(peers), news) && Valid()
    {
      for i := 0 to |news|
        invariant Installed(peers, news[i..]) == Installed(old(peers), news) && Valid()
        modifies this`peers
      {
        assert news[i..][1..] == news[i+1..];
        InstallPeer(news[i]);
      }
      assert news[|news|..] == [];
    }

    /** Rejects the request with the errors, or upserts every peer; `order` is how the merged map was listed. */
    method HandlePostConfig(news: seq<Peer>, order: seq<string>) returns (errors: seq<ValidationError>)
      requires Valid()
      requires ListsKeys(order, Merged(Configs(peers), news))
      modifies this`peers, this`tokens, this`toDns
      ensures Value() == Posted(old(Value()), news) && Valid()
      ensures errors == [] <==> ValidPeerMap(Merged(Configs(old(peers)), news))
    {
      var merged := MergeConfigs(news);
      var listed := seq(|order|, i requires 0 <= i < |order| => merged[order[i]]);
      errors := ValidatePeers(listed);
      ListingOrderIsIrrelevant(listed, order, merged);
      if errors != [] {
        return;
      }
      InstallPeers(news);
      SyncPeersToActors();
    }

    method RemovePeers(ids: seq<string>)
      modifies this`peers
      ensures peers == old(peers) - (set i | 0 <= i < |ids| :: ids[i])
    {
      for i := 0 to |ids|
        invariant peers.Keys == old(peers).Keys - (set j | 0 <= j < i :: ids[j])
        invariant forall id :: id in peers ==> peers[id] == old(peers)[id]
      {
        peers := peers - {ids[i]};
      }
    }

    method HandleDeleteConfig(ids: seq<string>)
      requires Valid()
      modifies this`peers, this`tokens, this`toDns
      ensures Value() == Deleted(old(Value()), ids) && Valid()
    {
      var before := |peers|;
      RemovePeers(ids);
      FewerKeysIffRemoved(old(peers), peers);
      assert forall id :: id in Configs(peers) ==> Configs(peers)[id] == Configs(old(peers))[id];
      if |peers| < before {
        SyncPeersToActors();
      } else {
        assert peers == old(peers);
      }
    }

    /** Dispatches one event; for a POST, `order` lists the merged peers and the errors are the reply. */
    method HandleEvent(e: Event, order: seq<string>, closed: set<Chan>, now: Time) returns (errors: seq<ValidationError>)
      requires Valid()
      requires e.Post? ==> ListsKeys(order, Merged(Configs(peers), e.peers))
      modifies this
      ensures Value() == Handled(old(Value()), e, backoff, closed, now) && Valid()
      ensures errors != [] ==> e.Post? && Value() == old(Value())
    {
      errors := [];
      match e {
        case Snapshot(view) => HandleDnsSnapshot(view, closed, now);
        case Connected(peer, conn) => UpdateBound(peer, conn, closed);
        case DialFailed(peer, ip) => HandleDialFailed(peer, ip, now);
        case Post(news) => errors := HandlePostConfig(news, order);
        case Delete(ids) => HandleDeleteConfig(ids);
        case PeerActorExited => Reconcile(closed, now);
      }
    }

    /** Marks each address as in flight and starts a task for it. */
    method Dial(e: PeerEntry, ips: set<Ip>, now: Time) returns (dials: map<Ip, DialState>)
      modifies this`dialing
      ensures dials == MarkAll(e.dials, ips, now)
      ensures dialing == Launched(old(dialing), e.config.id, ips, ConfigEndpoint(e.config))
    {
      dials := e.dials;
      var done: set<Ip> := {};
      LaunchNothing(dialing, e.config.id, ConfigEndpoint(e.config));
      MarkNothing(e.dials, now);
      while done != ips
        invariant done <= ips
        invariant dials == MarkAll(e.dials, done, now)
        invariant dialing == Launched(old(dialing), e.config.id, done, ConfigEndpoint(e.config))
        decreases ips - done
      {
        var ip :| ip in ips && ip !in done;
        LaunchOneMore(old(dialing), e.config.id, done, ip, ConfigEndpoint(e.config));
        MarkOneMore(e.dials, done, ip, now);
        done := done + {ip};
        dials := dials[ip := MarkInFlight(dials, ip, now)];
        var k := DialKey(e.config.id, ip);
        dialing := dialing[k := TasksFor(dialing, k) + [ConfigEndpoint(e.config)]];
      }
    }
  }

  // ----- iterating over the pool -----------------------------------------------------

  type Tasks = map<DialKey, seq<Option<Endpoint>>>

  /** `e` is the entry before pruning. */
  function LaunchedFor(dialing: Tasks, id: string, e: PeerEntry, closed: set<Chan>, now: Time): Tasks {
    Launched(dialing, id, ToDial(Pruned(e, closed), now), ConfigEndpoint(e.config))
  }

  /** The pool once the peers in `done` have been handled; `mid` holds the entries handed to the pass. */
  function PassedSome(peers: map<string, PeerEntry>, mid: map<string, PeerEntry>, done: set<string>, closed: set<Chan>, now: Time)
    : map<string, PeerEntry>
    requires mid.Keys == peers.Keys
  {
    map id | id in peers :: if id in done then Pass(mid[id], closed, now) else peers[id]
  }

  function DialsOf(mid: map<string, PeerEntry>, done: set<string>, closed: set<Chan>, now: Time): set<DialKey> {
    set k | k in NewDials(mid, closed, now) && k.peer in done
  }

  function DialedSome(mid: map<string, PeerEntry>, dialing: Tasks, done: set<string>, closed: set<Chan>, now: Time): Tasks {
    var news := DialsOf(mid, done, closed, now);
    map k | k in dialing.Keys + news ::
      TasksFor(dialing, k) + if k in news && k.peer in mid then [ConfigEndpoint(mid[k.peer].config)] else []
  }

  lemma PassNobody(peers: map<string, PeerEntry>, dialing: Tasks, closed: set<Chan>, now: Time)
    ensures forall mid: map<string, PeerEntry> :: mid.Keys == peers.Keys ==> PassedSome(peers, mid, {}, closed, now) == peers
    ensures forall mid: map<string, PeerEntry> :: DialedSome(mid, dialing, {}, closed, now) == dialing
  {
    forall mid: map<string, PeerEntry>
      ensures DialedSome(mid, dialing, {}, closed, now) == dialing
    {
      var d := DialedSome(mid, dialing, {}, closed, now);
      assert DialsOf(mid, {}, closed, now) == {};
      assert d.Keys == dialing.Keys;
      assert forall k :: k in d ==> d[k] == dialing[k];
    }
  }

  lemma NewDialsMember(peers: map<string, PeerEntry>, closed: set<Chan>, now: Time, k: DialKey)
    ensures k in NewDials(peers, closed, now) <==> k.peer in peers && k.ip in ToDial(Pruned(peers[k.peer], closed), now)
  {
    if k.peer in peers && k.ip in ToDial(Pruned(peers[k.peer], closed), now) {
      assert DialKey(k.peer, k.ip) in NewDials(peers, closed, now);
    }
  }

  /** For key `k`, `after` is `before` with one more task for `ep` exactly when `hit`. */
  predicate Grows(before: Tasks, after: Tasks, k: DialKey, hit: bool, ep: Option<Endpoint>) {
    && (k in after <==> k in before || hit)
    && TasksFor(after, k) == TasksFor(before, k) + if hit then [ep] else []
  }

  /** The endpoint the pass would dial for a peer. */
  function EndpointOf(mid: map<string, PeerEntry>, peer: string): Option<Endpoint> {
    if peer in mid then ConfigEndpoint(mid[peer].config) else None
  }

  predicate Hit(mid: map<string, PeerEntry>, closed: set<Chan>, now: Time, k: DialKey) {
    k.peer in mid && k.ip in ToDial(Pruned(mid[k.peer], closed), now)
  }

  lemma DialedSomeAt(mid: map<string, PeerEntry>, dialing: Tasks, done: set<string>, closed: set<Chan>, now: Time, k: DialKey)
    ensures Grows(dialing, DialedSome(mid, dialing, done, closed, now), k,
                  k.peer in done && Hit(mid, closed, now, k), EndpointOf(mid, k.peer))
  {
    NewDialsMember(mid, closed, now, k);
  }

  lemma LaunchedAt(dialing: Tasks, peer: string, ips: set<Ip>, ep: Option<Endpoint>, k: DialKey)
    ensures Grows(dialing, Launched(dialing, peer, ips, ep), k, k.peer == peer && k.ip in ips, ep)
  {
    assert k == DialKey(k.peer, k.ip);
  }

  /** Two ways to the same tasks: both hits at once, or one after the other. */
  lemma GrowsTwice(before: Tasks, mid: Tasks, left: Tasks, right: Tasks, k: DialKey, first: bool, second: bool, ep: Option<Endpoint>)
    requires Grows(before, mid, k, first, ep) && Grows(mid, right, k, second, ep)
    requires Grows(before, left, k, first || second, ep) && !(first && second)
    ensures (k in left <==> k in right) && TasksFor(left, k) == TasksFor(right, k)
  {
  }

  lemma SameTasks(a: Tasks, b: Tasks)
    requires forall k :: k in a <==> k in b
    requires forall k :: TasksFor(a, k) == TasksFor(b, k)
    ensures a == b
  {
    forall k | k in a
      ensures a[k] == b[k]
    {
      assert TasksFor(a, k) == TasksFor(b, k);
    }
  }

  lemma {:induction false} DialKeyOneMore(mid: map<string, PeerEntry>, dialing: Tasks, done: set<string>, id: string,
                                         closed: set<Chan>, now: Time, d: Tasks, left: Tasks, right: Tasks, k: DialKey)
    requires id in mid && id !in done && Same(d, DialedSome(mid, dialing, done, closed, now))
    requires Same(left, DialedSome(mid, dialing, done + {id}, closed, now)) && Same(right, LaunchedFor(d, id, mid[id], closed, now))
    ensures (k in left <==> k in right) && TasksFor(left, k) == TasksFor(right, k)
  {
    DialedSomeAt(mid, dialing, done, closed, now, k);
    DialedSomeAt(mid, dialing, done + {id}, closed, now, k);
    LaunchedAt(d, id, ToDial(Pruned(mid[id], closed), now), ConfigEndpoint(mid[id].config), k);
    var first, second := k.peer in done && Hit(mid, closed, now, k), k.peer == id && Hit(mid, closed, now, k);
    var ep := if second then EndpointOf(mid, id) else EndpointOf(mid, k.peer);
    assert Grows(d, right, k, second, ep) && Grows(dialing, left, k, first || second, ep);
    GrowsTwice(dialing, d, left, right, k, first, second, ep);
  }

  lemma {:induction false} DialOneMore(mid: map<string, PeerEntry>, dialing: Tasks, done: set<string>, id: string, closed: set<Chan>, now: Time)
    requires id in mid && id !in done
    ensures DialedSome(mid, dialing, done + {id}, closed, now)
         == LaunchedFor(DialedSome(mid, dialing, done, closed, now), id, mid[id], closed, now)
  {
    var d := DialedSome(mid, dialing, done, closed, now);
    var left, right := DialedSome(mid, dialing, done + {id}, closed, now), LaunchedFor(d, id, mid[id], closed, now);
    forall k: DialKey
      ensures k in left <==> k in right
      ensures TasksFor(left, k) == TasksFor(right, k)
    {
      DialKeyOneMore(mid, dialing, done, id, closed, now, d, left, right, k);
    }
    SameTasks(left, right);
  }

  lemma PassOneMore(peers: map<string, PeerEntry>, mid: map<string, PeerEntry>, dialing: Tasks, done: set<string>, id: string, closed: set<Chan>, now: Time)
    requires mid.Keys == peers.Keys && id in peers && id !in done
    ensures PassedSome(peers, mid, done + {id}, closed, now) == PassedSome(peers, mid, done, closed, now)[id := Pass(mid[id], closed, now)]
    ensures DialedSome(mid, dialing, done + {id}, closed, now)
         == LaunchedFor(DialedSome(mid, dialing, done, closed, now), id, mid[id], closed, now)
  {
    DialOneMore(mid, dialing, done, id, closed, now);
  }

  lemma PassEverybody(s: State, mid: map<string, PeerEntry>, closed: set<Chan>, now: Time)
    requires mid.Keys == s.peers.Keys
    ensures PassedSome(s.peers, mid, s.peers.Keys, closed, now) == Passed(mid, closed, now)
    ensures DialedSome(mid, s.dialing, s.peers.Keys, closed, now) == Dialed(s.(peers := mid), closed, now)
  {
    assert DialsOf(mid, s.peers.Keys, closed, now) == NewDials(mid, closed, now) by {
      forall k {
        NewDialsMember(mid, closed, now, k);
      }
    }
  }

  lemma FewerKeysIffRemoved(a: map<string, PeerEntry>, b: map<string, PeerEntry>)
    requires b.Keys <= a.Keys
    ensures |b| < |a| <==> b.Keys != a.Keys
  {
    assert |a| == |a.Keys| && |b| == |b.Keys|;
    if b.Keys != a.Keys {
      var k :| k in a.Keys && k !in b.Keys;
      SubsetSize(b.Keys, a.Keys - {k});
    }
  }

  lemma SubsetSize(a: set<string>, b: set<string>)
    requires a <= b
    ensures |a| <= |b|
  {
    if a != {} {
      var x :| x in a;
      SubsetSize(a - {x}, b - {x});
    }
  }

  lemma MarkNothing(dials: map<Ip, DialState>, now: Time)
    ensures MarkAll(dials, {}, now) == dials
  {
  }

  lemma MarkOneMore(dials: map<Ip, DialState>, ips: set<Ip>, ip: Ip, now: Time)
    requires ip !in ips
    ensures var m := MarkAll(dials, ips, now); MarkAll(dials, ips + {ip}, now) == m[ip := MarkInFlight(m, ip, now)]
  {
    var m := MarkAll(dials, ips, now);
    var left, right := MarkAll(dials, ips + {ip}, now), m[ip := MarkInFlight(m, ip, now)];
    assert left.Keys == right.Keys;
    forall x | x in left
      ensures left[x] == right[x]
    {
    }
  }

  lemma LaunchNothing(dialing: map<DialKey, seq<Option<Endpoint>>>, peer: string, ep: Option<Endpoint>)
    ensures Launched(dialing, peer, {}, ep) == dialing
  {
    var l := Launched(dialing, peer, {}, ep);
    assert l.Keys == dialing.Keys;
    assert forall k :: k in l ==> l[k] == dialing[k];
  }

  lemma LaunchOneMore(dialing: map<DialKey, seq<Option<Endpoint>>>, peer: string, ips: set<Ip>, ip: Ip, ep: Option<Endpoint>)
    requires ip !in ips
    ensures var l, k := Launched(dialing, peer, ips, ep), DialKey(peer, ip);
            Launched(dialing, peer, ips + {ip}, ep) == l[k := TasksFor(l, k) + [ep]]
  {
    var l, k := Launched(dialing, peer, ips, ep), DialKey(peer, ip);
    var left, right := Launched(dialing, peer, ips + {ip}, ep), l[k := TasksFor(l, k) + [ep]];
    assert left.Keys == right.Keys;
    forall x | x in left
      ensures left[x] == right[x]
    {
    }
  }
}
