/** Runs of the control plane in which many dials for one address are outstanding at once (src/orch.rs, src/dns.rs). */
module Flapping {
  import opened Base
  import opened Net
  import opened Sequences
  import opened Peers
  import opened PeerRules
  import opened Orch
  import opened ControlPlane
  import opened Dials
  import Dns

  // ----- the resolver's part ------------------------------------------------------------

  /** What the resolver holds about one query, with nothing left to tell. */
  ghost predicate Holds(st: Dns.State, q: Dns.Query, host: Dns.HostState, waiting: bool, flying: bool) {
    && !st.dirty && q.host in st.hostnames && st.hostnames[q.host] == host
    && (waiting <==> q in st.queued) && (flying <==> q in st.pending) && (flying ==> q in st.tasks)
  }

  /** The address is the only one known for the hostname, and its query is not in flight. */
  ghost predicate Knows(st: Dns.State, q: Dns.Query, ip: Ip) {
    !st.dirty && q.host in st.hostnames && st.hostnames[q.host].ips.Keys == {ip} && q !in st.pending
  }

  ghost predicate Tells(out: Option<Dns.View>, host: string, ips: set<Ip>) {
    out.Some? && host in out.value && out.value[host] == ips
  }

  lemma Registers(st: Dns.State, t: Dns.Tuning, hosts: set<string>, q: Dns.Query, now: Time)
    requires q.host !in st.hostnames && q !in st.pending && q.host in hosts && t.literal(q.host).None?
    ensures var (st', out) := Dns.Next(st, t, Dns.Hostnames(hosts), now);
            Holds(st', q, Dns.HostState(map[], now + t.refreshInterval), true, false) && Tells(out, q.host, {})
  {
    assert q.rtype.A? || q.rtype.AAAA?;
    var base := Dns.Literals(Dns.Registered(st, hosts, now), t, now);
    assert Dns.Query(q.host, q.rtype) in Dns.DueQueries(base, t, now);
  }

  lemma Unregisters(st: Dns.State, t: Dns.Tuning, hosts: set<string>, q: Dns.Query, now: Time)
    requires q.host !in hosts && q !in st.pending
    ensures var (st', out) := Dns.Next(st, t, Dns.Hostnames(hosts), now);
            q.host !in st'.hostnames && q !in st'.pending && out.Some? && q.host !in out.value
  {
  }

  lemma StaysKnown(st: Dns.State, t: Dns.Tuning, hosts: set<string>, q: Dns.Query, ip: Ip, now: Time)
    requires Knows(st, q, ip) && q.host in hosts && t.literal(q.host).None?
    ensures var (st', out) := Dns.Next(st, t, Dns.Hostnames(hosts), now); Knows(st', q, ip) && Tells(out, q.host, {ip})
  {
  }

  lemma Sends(st: Dns.State, t: Dns.Tuning, q: Dns.Query, host: Dns.HostState, now: Time)
    requires Holds(st, q, host, true, false)
    ensures var (st', out) := Dns.Next(st, t, Dns.QueryTick(q), now); Holds(st', q, host, false, true) && out.None?
  {
  }

  function Answer(q: Dns.Query, ip: Ip): Dns.Event {
    Dns.TaskDone(q, Dns.Records(map[ip := 0]))
  }

  lemma Answers(st: Dns.State, t: Dns.Tuning, q: Dns.Query, host: Dns.HostState, ip: Ip, now: Time)
    requires Holds(st, q, host, false, true) && host.ips == map[]
    ensures var (st', out) := Dns.Next(st, t, Answer(q, ip), now); Knows(st', q, ip) && Tells(out, q.host, {ip})
  {
    assert Dns.Renewed(t, map[], map[ip := 0], now) == map[ip := now + t.minTtl];
    assert ip in map[ip := 0].Keys && ip !in st.hostnames[q.host].ips.Keys;
  }

  // ----- runs in which no time passes -------------------------------------------------------

  /** Some run from the configuration ends in this state, at the time it began. */
  ghost predicate Reached(configs: map<string, Peer>, p: Params, s: System) {
    exists run: seq<System>, steps: seq<Step> :: IsRun(run, steps, configs, p) && run[|steps|] == s && run[0].now == s.now
  }

  lemma {:induction false} Extends(configs: map<string, Peer>, p: Params, s: System, step: Step, t: System)
    requires Reached(configs, p, s) && Follows(p)(s, step, t) && t.now == s.now
    ensures Reached(configs, p, t)
  {
    var run: seq<System>, steps: seq<Step> :| IsRun(run, steps, configs, p) && run[|steps|] == s && run[0].now == s.now;
    ChainGrows(Follows(p), run, steps, step, t);
    var run', steps' := run + [t], steps + [step];
    assert run'[|steps'|] == t && run'[0] == run[0];
  }

  lemma {:induction false} Reach(configs: map<string, Peer>, p: Params, s: System, step: Step)
    requires Reached(configs, p, s) && CanStep(s, step) && !step.Advance?
    ensures Reached(configs, p, After(s, step, p))
  {
    assert Follows(p)(s, step, After(s, step, p));
    Extends(configs, p, s, step, After(s, step, p));
  }

  lemma ReachStart(configs: map<string, Peer>, p: Params, now: Time)
    ensures Reached(configs, p, Start(configs, now))
  {
    var run, steps := [Start(configs, now)], [];
    assert IsRun(run, steps, configs, p) && run[|steps|] == Start(configs, now);
  }

  /** The peers are those of `configs`, and the one of the key has no connection. */
  ghost predicate Idle(s: System, configs: map<string, Peer>, k: DialKey) {
    Configs(s.orch.peers) == configs && k.peer in s.orch.peers && s.orch.peers[k.peer].bounds == []
  }

  /** A snapshot from which the peer of a hostname learns exactly `ips`. */
  ghost predicate Shows(e: Event, host: string, ips: set<Ip>) {
    e.Snapshot? && (if host in e.view then e.view[host] else {}) == ips
  }

  lemma {:induction false} NoReports(inbox: seq<Event>, k: DialKey)
    requires forall i :: 0 <= i < |inbox| ==> inbox[i].Snapshot?
    ensures Reports(inbox, k) == 0
  {
    if inbox != [] {
      NoReports(inbox[1..], k);
    }
  }

  /** A snapshot, seen by a peer without connections. */
  lemma {:induction false} SnapshotOnKey(o: Orch.State, k: DialKey, view: Dns.View, closed: set<Chan>, now: Time)
    requires k.peer in o.peers && o.peers[k.peer].bounds == []
    ensures var o', found := WithSnapshot(o, view, closed, now), k.ip in Lookup(view, o.peers[k.peer].config);
            && k.peer in o'.peers && o'.peers[k.peer].bounds == []
            && (!found ==> DialOf(o'.peers, k).None? && TasksFor(o'.dialing, k) == TasksFor(o.dialing, k))
            && (found && DialOf(o.peers, k).None? ==>
                  InFlight(o'.peers, k) && |TasksFor(o'.dialing, k)| == |TasksFor(o.dialing, k)| + 1)
            && (found && InFlight(o.peers, k) ==> InFlight(o'.peers, k) && TasksFor(o'.dialing, k) == TasksFor(o.dialing, k))
  {
    var mid := o.(peers := Resolved(o.peers, view));
    SnapshotEffect(o, view, closed, now, k);
    PassEffect(mid, closed, now, k);
    var q := Pruned(mid.peers[k.peer], closed);
    assert q.bounds == [] && !Covered(q, k.ip);
    assert StartsDial(mid.peers, closed, now, k) <==> k.ip in q.resolved && !Blocked(q, k.ip, now);
  }

  /** The orchestrator handles one snapshot. */
  lemma {:induction false} HandlesSnapshot(configs: map<string, Peer>, p: Params, k: DialKey, host: string, s: System, ips: set<Ip>) returns (t: System)
    requires Reached(configs, p, s) && Idle(s, configs, k) && DnsHostname(configs[k.peer]) == Some(host)
    requires s.inbox != [] && Shows(s.inbox[0], host, ips)
    ensures Reached(configs, p, t) && Idle(t, configs, k) && t.inbox == s.inbox[1..]
    ensures t.dns == s.dns && t.now == s.now && t.orch.toDns == s.orch.toDns
    ensures k.ip !in ips ==> DialOf(t.orch.peers, k).None? && TasksFor(t.orch.dialing, k) == TasksFor(s.orch.dialing, k)
    ensures k.ip in ips && DialOf(s.orch.peers, k).None? ==>
              InFlight(t.orch.peers, k) && |TasksFor(t.orch.dialing, k)| == |TasksFor(s.orch.dialing, k)| + 1
    ensures k.ip in ips && InFlight(s.orch.peers, k) ==>
              InFlight(t.orch.peers, k) && TasksFor(t.orch.dialing, k) == TasksFor(s.orch.dialing, k)
  {
    assert s.orch.peers[k.peer].config == configs[k.peer];
    SnapshotOnKey(s.orch, k, s.inbox[0].view, s.closed, s.now);
    SnapshotSettles(s.orch, s.inbox[0].view, s.closed, s.now);
    Reach(configs, p, s, OrchEvent);
    t := After(s, OrchEvent, p);
  }

  /** The resolver receives the oldest hostname set and answers with a snapshot. */
  lemma {:induction false} ResolverReceives(configs: map<string, Peer>, p: Params, s: System) returns (t: System)
    requires Reached(configs, p, s) && s.orch.toDns != []
    ensures var (dns, out) := Dns.Next(s.dns, p.dns, Dns.Hostnames(s.orch.toDns[0]), s.now);
            && Reached(configs, p, t) && out.Some?
            && t == s.(orch := s.orch.(toDns := s.orch.toDns[1..]), dns := dns, inbox := s.inbox + [Snapshot(out.value)])
  {
    Reach(configs, p, s, DnsReceive);
    t := After(s, DnsReceive, p);
  }

  /** `t` is `s` after the resolver received one set and told a snapshot that shows `ips`. */
  ghost predicate Received(s: System, t: System, host: string, ips: set<Ip>)
    requires s.orch.toDns != []
  {
    && t.orch == s.orch.(toDns := s.orch.toDns[1..]) && t.now == s.now
    && |t.inbox| == |s.inbox| + 1 && t.inbox[..|s.inbox|] == s.inbox && Shows(t.inbox[|s.inbox|], host, ips)
  }

  lemma {:induction false} ReceivesNew(configs: map<string, Peer>, p: Params, q: Dns.Query, s: System) returns (t: System)
    requires Reached(configs, p, s) && s.orch.toDns != [] && q.host in s.orch.toDns[0]
    requires q.host !in s.dns.hostnames && q !in s.dns.pending && p.dns.literal(q.host).None?
    ensures Reached(configs, p, t) && Received(s, t, q.host, {})
    ensures Holds(t.dns, q, Dns.HostState(map[], s.now + p.dns.refreshInterval), true, false)
  {
    Registers(s.dns, p.dns, s.orch.toDns[0], q, s.now);
    t := ResolverReceives(configs, p, s);
  }

  lemma {:induction false} ReceivesGone(configs: map<string, Peer>, p: Params, q: Dns.Query, s: System) returns (t: System)
    requires Reached(configs, p, s) && s.orch.toDns != [] && q.host !in s.orch.toDns[0] && q !in s.dns.pending
    ensures Reached(configs, p, t) && Received(s, t, q.host, {}) && q.host !in t.dns.hostnames && q !in t.dns.pending
  {
    Unregisters(s.dns, p.dns, s.orch.toDns[0], q, s.now);
    t := ResolverReceives(configs, p, s);
  }

  lemma {:induction false} ReceivesKnown(configs: map<string, Peer>, p: Params, ip: Ip, q: Dns.Query, s: System) returns (t: System)
    requires Reached(configs, p, s) && s.orch.toDns != [] && q.host in s.orch.toDns[0]
    requires Knows(s.dns, q, ip) && p.dns.literal(q.host).None?
    ensures Reached(configs, p, t) && Received(s, t, q.host, {ip}) && Knows(t.dns, q, ip)
  {
    StaysKnown(s.dns, p.dns, s.orch.toDns[0], q, ip, s.now);
    t := ResolverReceives(configs, p, s);
  }

  /** The query is sent. */
  lemma Asks(configs: map<string, Peer>, p: Params, q: Dns.Query, s: System, host: Dns.HostState) returns (t: System)
    requires Reached(configs, p, s) && Holds(s.dns, q, host, true, false)
    ensures Reached(configs, p, t) && t == s.(dns := t.dns) && Holds(t.dns, q, host, false, true)
  {
    Sends(s.dns, p.dns, q, host, s.now);
    Reach(configs, p, s, DnsTurn(Dns.QueryTick(q)));
    t := After(s, DnsTurn(Dns.QueryTick(q)), p);
    assert t.inbox == s.inbox;
  }

  /** It is answered with the address, and the resolver tells. */
  lemma Hears(configs: map<string, Peer>, p: Params, ip: Ip, q: Dns.Query, s: System, host: Dns.HostState) returns (t: System)
    requires Reached(configs, p, s) && Holds(s.dns, q, host, false, true) && host.ips == map[] && Dns.Returns(q.rtype, ip)
    ensures Reached(configs, p, t) && t == s.(dns := t.dns, inbox := t.inbox) && Knows(t.dns, q, ip)
    ensures |t.inbox| == |s.inbox| + 1 && t.inbox[..|s.inbox|] == s.inbox && Shows(t.inbox[|s.inbox|], q.host, {ip})
  {
    Answers(s.dns, p.dns, q, host, ip, s.now);
    Reach(configs, p, s, DnsTurn(Answer(q, ip)));
    t := After(s, DnsTurn(Answer(q, ip)), p);
  }

  lemma Learns(configs: map<string, Peer>, p: Params, ip: Ip, q: Dns.Query, s: System, host: Dns.HostState) returns (t: System)
    requires Reached(configs, p, s) && Holds(s.dns, q, host, true, false) && host.ips == map[] && Dns.Returns(q.rtype, ip)
    ensures Reached(configs, p, t) && t == s.(dns := t.dns, inbox := t.inbox) && Knows(t.dns, q, ip)
    ensures |t.inbox| == |s.inbox| + 1 && t.inbox[..|s.inbox|] == s.inbox && Shows(t.inbox[|s.inbox|], q.host, {ip})
  {
    var mid := Asks(configs, p, q, s, host);
    t := Hears(configs, p, ip, q, mid, host);
  }

  // ----- one dial more -------------------------------------------------------------------------

  /** Nothing is queued, the address is known, and `n` dials for it are outstanding. */
  ghost predicate Dialing(s: System, configs: map<string, Peer>, k: DialKey, q: Dns.Query, n: nat) {
    && Idle(s, configs, k) && s.inbox == [] && s.orch.toDns == [] && Knows(s.dns, q, k.ip)
    && |TasksFor(s.orch.dialing, k)| == n
  }

  /** Nobody remembers the dials of the key, and nothing was resolved yet. */
  ghost predicate Forgotten(s: System, configs: map<string, Peer>, k: DialKey, n: nat) {
    Idle(s, configs, k) && DialOf(s.orch.peers, k).None? && |TasksFor(s.orch.dialing, k)| == n
  }

  lemma {:induction false} Starts(configs: map<string, Peer>, p: Params, k: DialKey, q: Dns.Query, now: Time) returns (s: System)
    requires k.peer in configs && DnsHostname(configs[k.peer]) == Some(q.host)
    ensures Reached(configs, p, s) && Forgotten(s, configs, k, 0) && s.inbox == [] && s.now == now
    ensures |s.orch.toDns| == 1 && q.host in s.orch.toDns[0] && q.host !in s.dns.hostnames && q !in s.dns.pending
  {
    s := Start(configs, now);
    ReachStart(configs, p, now);
    assert Configs(s.orch.peers) == configs;
    assert q.host in Hostnames(configs);
  }

  lemma {:induction false} FirstDial(configs: map<string, Peer>, p: Params, k: DialKey, q: Dns.Query, now: Time) returns (s: System)
    requires k.peer in configs && DnsHostname(configs[k.peer]) == Some(q.host) && p.dns.literal(q.host).None?
    requires Dns.Returns(q.rtype, k.ip)
    ensures Reached(configs, p, s) && Dialing(s, configs, k, q, 1)
  {
    var s0 := Starts(configs, p, k, q, now);
    var s1 := ReceivesNew(configs, p, q, s0);
    var s2 := Learns(configs, p, k.ip, q, s1, Dns.HostState(map[], now + p.dns.refreshInterval));
    assert s2.inbox[0] == s2.inbox[..1][0];
    var s3 := HandlesSnapshot(configs, p, k, q.host, s2, {});
    s := HandlesSnapshot(configs, p, k, q.host, s3, {k.ip});
  }

  lemma Removes(o: Orch.State, configs: map<string, Peer>, id: string)
    requires Configs(o.peers) == configs && id in configs
    ensures Deleted(o, [id]) == Synced(o.(peers := o.peers - {id})) && Configs(o.peers - {id}) == configs - {id}
  {
    var ids := [id];
    assert ids[0] == id;
    assert (set i | 0 <= i < |ids| :: ids[i]) == {id};
    assert id in o.peers.Keys && id !in (o.peers - {id}).Keys;
  }

  lemma PutBack(configs: map<string, Peer>, id: string)
    requires id in configs
    ensures (configs - {id})[id := configs[id]] == configs
  {
  }

  lemma OneMerged(configs: map<string, Peer>, peers: map<string, PeerEntry>, p: Peer)
    ensures Merged(configs, [p]) == configs[p.id := p] && Installed(peers, [p]) == Install(peers, p)
  {
    assert [p][1..] == [];
  }

  lemma {:induction false} Restores(o: Orch.State, configs: map<string, Peer>, id: string)
    requires ValidPeerMap(configs) && id in configs && Configs(o.peers) == configs - {id}
    ensures var peers := o.peers[id := PeerEntry(configs[id], [], {}, map[])];
            Posted(o, [configs[id]]) == Synced(o.(peers := peers)) && Configs(peers) == configs
  {
    var peer := configs[id];
    assert id !in o.peers by { assert id !in Configs(o.peers); }
    PutBack(configs, id);
    OneMerged(Configs(o.peers), o.peers, peer);
    assert Configs(Install(o.peers, peer)) == Configs(o.peers)[id := peer];
  }

  /** An API request arrives and is handled. */
  lemma {:induction false} Edit(configs: map<string, Peer>, p: Params, s: System, e: Event) returns (t: System)
    requires Reached(configs, p, s) && s.inbox == [] && (e.Post? || e.Delete?)
    ensures Reached(configs, p, t) && t == s.(orch := Handled(s.orch, e, p.backoff, s.closed, s.now))
  {
    Reach(configs, p, s, Arrive(e));
    var mid := After(s, Arrive(e), p);
    assert mid.inbox == [e];
    Reach(configs, p, mid, OrchEvent);
    t := After(mid, OrchEvent, p);
    assert t.inbox == [];
  }

  lemma {:induction false} Drops(configs: map<string, Peer>, p: Params, k: DialKey, s: System) returns (t: System)
    requires Reached(configs, p, s) && Idle(s, configs, k) && s.inbox == []
    ensures Reached(configs, p, t) && Configs(t.orch.peers) == configs - {k.peer}
    ensures t.inbox == [] && t.dns == s.dns && t.now == s.now && t.orch.dialing == s.orch.dialing
    ensures t.orch.toDns == s.orch.toDns + [Hostnames(configs - {k.peer})]
  {
    assert k.peer in configs;
    Removes(s.orch, configs, k.peer);
    t := Edit(configs, p, s, Delete([k.peer]));
  }

  lemma {:induction false} Readds(configs: map<string, Peer>, p: Params, k: DialKey, s: System) returns (t: System)
    requires Reached(configs, p, s) && ValidPeerMap(configs) && k.peer in configs && s.inbox == []
    requires Configs(s.orch.peers) == configs - {k.peer}
    ensures Reached(configs, p, t) && Forgotten(t, configs, k, |TasksFor(s.orch.dialing, k)|)
    ensures t.inbox == [] && t.dns == s.dns && t.now == s.now && t.orch.toDns == s.orch.toDns + [Hostnames(configs)]
  {
    Restores(s.orch, configs, k.peer);
    t := Edit(configs, p, s, Post([configs[k.peer]]));
  }

  /** The peer is deleted and posted again: its dial state is gone, its dials are not. */
  lemma {:induction false} Replaces(configs: map<string, Peer>, p: Params, k: DialKey, s: System) returns (t: System)
    requires Reached(configs, p, s) && ValidPeerMap(configs) && Idle(s, configs, k) && s.inbox == [] && s.orch.toDns == []
    ensures Reached(configs, p, t) && Forgotten(t, configs, k, |TasksFor(s.orch.dialing, k)|)
    ensures t.inbox == [] && t.dns == s.dns && t.now == s.now
    ensures t.orch.toDns == [Hostnames(configs - {k.peer}), Hostnames(configs)]
  {
    assert k.peer in configs;
    var mid := Drops(configs, p, k, s);
    t := Readds(configs, p, k, mid);
  }

  /** No other peer has the hostname: the resolver forgets it and registers it anew. */
  lemma {:induction false} Reregisters(configs: map<string, Peer>, p: Params, k: DialKey, q: Dns.Query, s: System) returns (t: System)
    requires Reached(configs, p, s) && s.inbox == [] && q !in s.dns.pending && q.host in Hostnames(configs)
    requires s.orch.toDns == [Hostnames(configs - {k.peer}), Hostnames(configs)] && q.host !in Hostnames(configs - {k.peer})
    requires p.dns.literal(q.host).None?
    ensures Reached(configs, p, t) && t.orch == s.orch.(toDns := []) && t.now == s.now
    ensures Holds(t.dns, q, Dns.HostState(map[], s.now + p.dns.refreshInterval), true, false)
    ensures |t.inbox| == 2 && Shows(t.inbox[0], q.host, {}) && Shows(t.inbox[1], q.host, {})
  {
    var mid := ReceivesGone(configs, p, q, s);
    t := ReceivesNew(configs, p, q, mid);
    assert t.inbox[0] == t.inbox[..1][0];
  }

  /** Two snapshots without the address, then one with it: one dial starts. */
  lemma {:induction false} DialsAtThird(configs: map<string, Peer>, p: Params, k: DialKey, q: Dns.Query, s: System, n: nat) returns (t: System)
    requires Reached(configs, p, s) && Forgotten(s, configs, k, n) && s.orch.toDns == [] && Knows(s.dns, q, k.ip)
    requires DnsHostname(configs[k.peer]) == Some(q.host) && |s.inbox| == 3
    requires Shows(s.inbox[0], q.host, {}) && Shows(s.inbox[1], q.host, {}) && Shows(s.inbox[2], q.host, {k.ip})
    ensures Reached(configs, p, t) && Dialing(t, configs, k, q, n + 1)
  {
    var s1 := HandlesSnapshot(configs, p, k, q.host, s, {});
    var s2 := HandlesSnapshot(configs, p, k, q.host, s1, {});
    t := HandlesSnapshot(configs, p, k, q.host, s2, {k.ip});
  }

  lemma {:induction false} RedialAlone(configs: map<string, Peer>, p: Params, k: DialKey, q: Dns.Query, s: System, n: nat) returns (t: System)
    requires Reached(configs, p, s) && Forgotten(s, configs, k, n) && s.inbox == [] && Knows(s.dns, q, k.ip)
    requires DnsHostname(configs[k.peer]) == Some(q.host) && p.dns.literal(q.host).None? && Dns.Returns(q.rtype, k.ip)
    requires s.orch.toDns == [Hostnames(configs - {k.peer}), Hostnames(configs)] && q.host !in Hostnames(configs - {k.peer})
    ensures Reached(configs, p, t) && Dialing(t, configs, k, q, n + 1)
  {
    assert q.host in Hostnames(configs);
    var s1 := Reregisters(configs, p, k, q, s);
    var s2 := Learns(configs, p, k.ip, q, s1, Dns.HostState(map[], s.now + p.dns.refreshInterval));
    assert s2.inbox[0] == s2.inbox[..2][0] && s2.inbox[1] == s2.inbox[..2][1];
    t := DialsAtThird(configs, p, k, q, s2, n);
  }

  /** Another peer keeps the hostname registered: the snapshots name the address at once. */
  lemma {:induction false} RedialShared(configs: map<string, Peer>, p: Params, k: DialKey, q: Dns.Query, s: System, n: nat) returns (t: System)
    requires Reached(configs, p, s) && Forgotten(s, configs, k, n) && s.inbox == [] && Knows(s.dns, q, k.ip)
    requires DnsHostname(configs[k.peer]) == Some(q.host) && p.dns.literal(q.host).None?
    requires s.orch.toDns == [Hostnames(configs - {k.peer}), Hostnames(configs)] && q.host in Hostnames(configs - {k.peer})
    ensures Reached(configs, p, t) && Dialing(t, configs, k, q, n + 1)
  {
    var s1 := ReceivesKnown(configs, p, k.ip, q, s);
    assert q.host in Hostnames(configs);
    var s2 := ReceivesKnown(configs, p, k.ip, q, s1);
    assert s2.inbox[0] == s2.inbox[..1][0];
    var s3 := HandlesSnapshot(configs, p, k, q.host, s2, {k.ip});
    t := HandlesSnapshot(configs, p, k, q.host, s3, {k.ip});
  }

  lemma {:induction false} OneDialMore(configs: map<string, Peer>, p: Params, k: DialKey, q: Dns.Query, s: System, n: nat) returns (t: System)
    requires Reached(configs, p, s) && ValidPeerMap(configs) && Dialing(s, configs, k, q, n)
    requires DnsHostname(configs[k.peer]) == Some(q.host) && p.dns.literal(q.host).None? && Dns.Returns(q.rtype, k.ip)
    ensures Reached(configs, p, t) && Dialing(t, configs, k, q, n + 1)
  {
    var mid := Replaces(configs, p, k, s);
    if q.host in Hostnames(configs - {k.peer}) {
      t := RedialShared(configs, p, k, q, mid, n);
    } else {
      t := RedialAlone(configs, p, k, q, mid, n);
    }
  }

  lemma {:induction false} ManyDials(configs: map<string, Peer>, p: Params, k: DialKey, q: Dns.Query, n: nat) returns (s: System)
    requires ValidPeerMap(configs) && k.peer in configs && DnsHostname(configs[k.peer]) == Some(q.host)
    requires p.dns.literal(q.host).None? && Dns.Returns(q.rtype, k.ip) && n > 0
    ensures Reached(configs, p, s) && Dialing(s, configs, k, q, n)
  {
    if n == 1 {
      s := FirstDial(configs, p, k, q, 0);
    } else {
      var t := ManyDials(configs, p, k, q, n - 1);
      s := OneDialMore(configs, p, k, q, t, n - 1);
    }
  }

  /** The record type that returns an address. */
  function TypeOf(ip: Ip): Dns.RecordType {
    if ip.family.V4? then Dns.A else Dns.AAAA
  }

  /**
    For every valid configuration with a peer behind a DNS name, whatever the
    tuning, every address and every number, there is a run in which no time
    passes and that many dials for the address are outstanding: the peer is
    deleted and posted again while its dials run, and dialed again each time.
   */
  lemma {:induction false} OverlapHappens(configs: map<string, Peer>, p: Params, k: DialKey, host: string, n: nat)
    returns (run: seq<System>, steps: seq<Step>)
    requires ValidPeerMap(configs) && k.peer in configs && DnsHostname(configs[k.peer]) == Some(host)
    requires p.dns.literal(host).None? && n > 0
    ensures IsRun(run, steps, configs, p) && run[|steps|].now == run[0].now
    ensures Outstanding(run[|steps|], k) == n
  {
    var s := ManyDials(configs, p, k, Dns.Query(host, TypeOf(k.ip)), n);
    NoReports(s.inbox, k);
    run, steps :| IsRun(run, steps, configs, p) && run[|steps|] == s && run[0].now == s.now;
  }

  lemma H3PeerIsValid(net: IpNet, token: string) returns (peer: Peer)
    requires |token| >= MIN_TOKEN && Tight(token)
    ensures ValidPeer(peer) && peer.id == "p" && peer.transport.H3? && peer.transport.h3.Some? && DnsHostname(peer) == Some("h")
  {
    Utf8LenAtLeast(token);
    peer := Peer("p", H3(Some(H3Endpoint("h", 443, "/")), token, None, None), [net]);
    assert !IsWhitespace("p"[0]);
    assert StripBrackets("h") == "h";
  }

  /** One HTTP/3 peer with an endpoint behind a hostname: two dials at once. */
  lemma OverlapExample(ip: Ip, net: IpNet, token: string, p: Params)
    returns (configs: map<string, Peer>, run: seq<System>, steps: seq<Step>)
    requires p.dns.literal("h").None? && |token| >= MIN_TOKEN && Tight(token)
    ensures ValidPeerMap(configs) && "p" in configs && configs["p"].transport.H3? && configs["p"].transport.h3.Some?
    ensures IsRun(run, steps, configs, p) && run[|steps|].now == run[0].now && Outstanding(run[|steps|], DialKey("p", ip)) == 2
  {
    var peer := H3PeerIsValid(net, token);
    configs := map["p" := peer];
    run, steps := OverlapHappens(configs, p, DialKey("p", ip), "h", 2);
  }
}
