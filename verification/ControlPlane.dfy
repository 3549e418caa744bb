/**
  The orchestrator and the resolver exchanging messages through FIFO inboxes
  (src/orch.rs, src/dns.rs), as a system whose steps interleave freely.
 */
module ControlPlane {
  import opened Base
  import opened Net
  import opened Sequences
  import opened Peers
  import opened PeerRules
  import opened Orch
  import Dns

  datatype Params = Params(backoff: Backoff, dns: Dns.Tuning)

  datatype System = System(
    orch: Orch.State,
    /** The orchestrator's inbox, oldest event first. */
    inbox: seq<Event>,
    dns: Dns.State,
    /** Packet channels whose receiver is gone. */
    closed: set<Chan>,
    now: Time)

  datatype Step =
    /** An API request, an inbound connection or an actor exit reaches the inbox. */
    | Arrive(event: Event)
    /** Dial number `index` among those for `key` reports; `tx` is set on success. */
    | DialDone(key: DialKey, index: nat, tx: Option<Chan>)
    | OrchEvent
    | OrchTick
    | DnsReceive
    | DnsTurn(turn: Dns.Event)
    | CloseChannel(chan: Chan)
    | Advance(delta: Time)

  function PortOf(ep: Endpoint): nat {
    match ep
    case ToUdp(udp) => udp.port
    case ToH3(h3) => h3.port
  }

  predicate External(e: Event) {
    e.Post? || e.Delete? || e.PeerActorExited? || (e.Connected? && e.conn.endpoint.None?)
  }

  predicate CanStep(s: System, step: Step) {
    match step
    case Arrive(e) => External(e)
    case DialDone(k, i, tx) =>
      i < |TasksFor(s.orch.dialing, k)| && (tx.Some? ==> TasksFor(s.orch.dialing, k)[i].Some?)
    case OrchEvent => s.inbox != []
    case DnsReceive => s.orch.toDns != []
    case DnsTurn(e) => !e.Hostnames? && Dns.Enabled(s.dns, e)
    case _ => true
  }

  function Deliver(s: System, e: Dns.Event, p: Params): System {
    var (dns, out) := Dns.Next(s.dns, p.dns, e, s.now);
    s.(dns := dns, inbox := s.inbox + match out { case Some(view) => [Snapshot(view)] case None => [] })
  }

  function Without<T>(xs: seq<T>, i: nat): seq<T>
    requires i < |xs|
  {
    xs[..i] + xs[i+1..]
  }

  function Report(k: DialKey, ep: Option<Endpoint>, tx: Option<Chan>): Event
    requires tx.Some? ==> ep.Some?
  {
    if tx.Some? then Connected(k.peer, Conn(ep, SocketAddr(k.ip, PortOf(ep.value)), tx.value))
    else DialFailed(k.peer, k.ip)
  }

  ghost function After(s: System, step: Step, p: Params): System
    requires CanStep(s, step)
  {
    match step
    case Arrive(e) => s.(inbox := s.inbox + [e])
    case DialDone(k, i, tx) =>
      var tasks := TasksFor(s.orch.dialing, k);
      s.(orch := s.orch.(dialing := s.orch.dialing[k := Without(tasks, i)]),
         inbox := s.inbox + [Report(k, tasks[i], tx)])
    case OrchEvent =>
      s.(orch := Handled(s.orch, s.inbox[0], p.backoff, s.closed, s.now), inbox := s.inbox[1..])
    case OrchTick => s.(orch := Reconciled(s.orch, s.closed, s.now))
    case DnsReceive =>
      Deliver(s.(orch := s.orch.(toDns := s.orch.toDns[1..])), Dns.Hostnames(s.orch.toDns[0]), p)
    case DnsTurn(e) => Deliver(s, e, p)
    case CloseChannel(c) => s.(closed := s.closed + {c})
    case Advance(delta) => s.(now := s.now + delta)
  }

  function Start(configs: map<string, Peer>, now: Time): System {
    System(Initial(configs), [], Dns.INIT, {}, now)
  }

  ghost function Follows(p: Params): (System, Step, System) -> bool {
    (s: System, step: Step, t: System) => CanStep(s, step) && t == After(s, step, p)
  }

  ghost predicate IsRun(run: seq<System>, steps: seq<Step>, configs: map<string, Peer>, p: Params) {
    Chain(Follows(p), run, steps) && run[0] == Start(configs, run[0].now)
  }

  // ----- what is in flight --------------------------------------------------------

  /** The newest snapshot still in the inbox. */
  function NewestQueued(inbox: seq<Event>): Option<Dns.View> {
    if inbox == [] then None
    else if inbox[|inbox|-1].Snapshot? then Some(inbox[|inbox|-1].view)
    else NewestQueued(inbox[..|inbox|-1])
  }

  lemma {:induction false} PopNewest(inbox: seq<Event>)
    requires inbox != []
    ensures NewestQueued(inbox[1..]).Some? ==> NewestQueued(inbox) == NewestQueued(inbox[1..])
    ensures NewestQueued(inbox[1..]).None? ==>
              NewestQueued(inbox) == if inbox[0].Snapshot? then Some(inbox[0].view) else None
  {
    var init := inbox[..|inbox|-1];
    if |inbox| > 1 {
      assert inbox[1..][..|inbox|-2] == init[1..];
      if !inbox[|inbox|-1].Snapshot? {
        PopNewest(init);
      }
    }
  }

  lemma PushNewest(inbox: seq<Event>, e: Event)
    ensures NewestQueued(inbox + [e]) == if e.Snapshot? then Some(e.view) else NewestQueued(inbox)
  {
    assert (inbox + [e])[..|inbox|] == inbox;
  }

  /** No hostname update and no snapshot is on its way. */
  predicate Quiescent(s: System) {
    s.orch.toDns == [] && NewestQueued(s.inbox).None?
  }

  // ----- invariants ------------------------------------------------------------------

  ghost predicate Agreed(peers: map<string, PeerEntry>, view: Dns.View) {
    forall id :: id in peers ==> peers[id].resolved == Lookup(view, peers[id].config)
  }

  ghost predicate UpToDate(o: Orch.State) {
    o.build == CurrentBuild(o.peers)
  }

  ghost predicate ConfigInv(o: Orch.State) {
    ValidPeerMap(Configs(o.peers)) && o.tokens == Tokens(Configs(o.peers))
  }

  /** The resolver's registrations are, or are about to become, the current hostnames. */
  ghost predicate HostsInv(s: System) {
    Hostnames(Configs(s.orch.peers)) ==
      if s.orch.toDns == [] then s.dns.hostnames.Keys else s.orch.toDns[|s.orch.toDns|-1]
  }

  ghost predicate SnapshotInv(s: System) {
    && !s.dns.dirty
    && (NewestQueued(s.inbox).Some? ==> NewestQueued(s.inbox).value == Dns.ViewOf(s.dns))
    && (Quiescent(s) ==>
          && Agreed(s.orch.peers, Dns.ViewOf(s.dns))
          && s.orch.sources == AcceptedSources(s.orch.peers)
          && UpToDate(s.orch))
  }

  // ----- handlers that leave configuration and addresses alone ------------------------

  ghost predicate SameShape(a: map<string, PeerEntry>, b: map<string, PeerEntry>) {
    a.Keys == b.Keys && forall id :: id in a ==> a[id].config == b[id].config && a[id].resolved == b[id].resolved
  }

  lemma ShapeDecides(a: map<string, PeerEntry>, b: map<string, PeerEntry>, view: Dns.View)
    requires SameShape(a, b)
    ensures Configs(a) == Configs(b)
    ensures Agreed(a, view) <==> Agreed(b, view)
    ensures AcceptedSources(a) == AcceptedSources(b)
  {
    assert forall ip :: ip in AcceptedSources(a) <==> ip in AcceptedSources(b);
  }

  /** Configurations and addresses stay, nothing is sent, and fresh routing stays fresh. */
  ghost predicate Quietly(o: Orch.State, o': Orch.State) {
    && SameShape(o.peers, o'.peers) && (UpToDate(o) ==> UpToDate(o'))
    && o'.sources == o.sources && o'.tokens == o.tokens && o'.toDns == o.toDns
  }

  /** Same configurations and preferred senders, same inputs of a routing build. */
  lemma SameSenders(a: map<string, PeerEntry>, b: map<string, PeerEntry>)
    requires SameShape(a, b) && forall id :: id in a ==> Preferred(a[id]) == Preferred(b[id])
    ensures CurrentBuild(a) == CurrentBuild(b)
  {
    ShapeDecides(a, b, map[]);
    var x, y := Senders(a), Senders(b);
    assert x.Keys == y.Keys;
    assert forall id :: id in x ==> x[id] == y[id];
  }

  lemma PassKeepsShape(peers: map<string, PeerEntry>, closed: set<Chan>, now: Time)
    ensures SameShape(peers, Passed(peers, closed, now))
  {
  }

  lemma {:induction false} ReconcileKeeps(o: Orch.State, closed: set<Chan>, now: Time)
    ensures var o' := Reconciled(o, closed, now);
            && Quietly(o, o')
            && (!ReconcileReroutes(o, closed, now) ==> CurrentBuild(o'.peers) == CurrentBuild(o.peers))
  {
    PassKeepsShape(o.peers, closed, now);
    if !ReconcileReroutes(o, closed, now) {
      var peers' := Passed(o.peers, closed, now);
      forall id | id in o.peers
        ensures Preferred(o.peers[id]) == Preferred(peers'[id])
      {
        assert !PreferredChanged(o.peers[id], PassAll(o, closed, now).peers[id]);
      }
      SameSenders(o.peers, peers');
    }
  }

  /** Replacing an entry by one with the same configuration and addresses. */
  lemma {:induction false} SwapEntry(peers: map<string, PeerEntry>, peer: string, e': PeerEntry)
    requires peer in peers && e'.config == peers[peer].config && e'.resolved == peers[peer].resolved
    ensures SameShape(peers, peers[peer := e'])
    ensures Preferred(e') == Preferred(peers[peer]) ==> CurrentBuild(peers[peer := e']) == CurrentBuild(peers)
  {
    if Preferred(e') == Preferred(peers[peer]) {
      SameSenders(peers, peers[peer := e']);
    }
  }

  lemma BoundKeeps(o: Orch.State, peer: string, c: Conn, closed: set<Chan>)
    ensures var o' := Bound(o, peer, c, closed);
            && Quietly(o, o')
            && (!BoundReroutes(o, peer, c, closed) ==> CurrentBuild(o'.peers) == CurrentBuild(o.peers))
  {
    if peer in o.peers {
      var e := o.peers[peer];
      assert e.bounds != [] ==> Preferred(e.(bounds := e.bounds + [c])) == Preferred(e);
      SwapEntry(o.peers, peer, WithBound(e, c, closed));
    }
  }

  lemma DialFailedKeeps(o: Orch.State, peer: string, ip: Ip, b: Backoff, now: Time)
    ensures var o' := DialFailedAt(o, peer, ip, b, now);
            && Quietly(o, o') && CurrentBuild(o'.peers) == CurrentBuild(o.peers)
  {
    if peer in o.peers && ip in o.peers[peer].dials {
      var e := o.peers[peer];
      SwapEntry(o.peers, peer, e.(dials := e.dials[ip := RecordFailure(e.dials[ip], b, now)]));
    }
  }

  lemma ResolvedFacts(peers: map<string, PeerEntry>, view: Dns.View)
    ensures Configs(Resolved(peers, view)) == Configs(peers) && Agreed(Resolved(peers, view), view)
  {
  }

  /** Addresses, sources and routing follow the snapshot; configurations and what was sent stay. */
  ghost predicate SettledOn(o: Orch.State, o': Orch.State, view: Dns.View) {
    && Agreed(o'.peers, view) && UpToDate(o') && o'.sources == AcceptedSources(o'.peers)
    && Configs(o'.peers) == Configs(o.peers) && o'.tokens == o.tokens && o'.toDns == o.toDns
  }

  lemma {:induction false} SnapshotSettles(o: Orch.State, view: Dns.View, closed: set<Chan>, now: Time)
    ensures SettledOn(o, WithSnapshot(o, view, closed, now), view)
  {
    var mid := Resolved(o.peers, view);
    ResolvedFacts(o.peers, view);
    PassKeepsShape(mid, closed, now);
    ShapeDecides(mid, Passed(mid, closed, now), view);
  }

  // ----- configuration edits -------------------------------------------------------------

  lemma {:induction false} InstallIsMerge(peers: map<string, PeerEntry>, news: seq<Peer>)
    ensures Configs(Installed(peers, news)) == Merged(Configs(peers), news)
    decreases |news|
  {
    if news != [] {
      assert Configs(Install(peers, news[0])) == Configs(peers)[news[0].id := news[0]];
      InstallIsMerge(Install(peers, news[0]), news[1..]);
    }
  }

  /** POST installs exactly the peers it validated, and tells both actors, or changes nothing. */
  lemma PostInstallsWhatItValidated(o: Orch.State, news: seq<Peer>)
    ensures var o' := Posted(o, news); var wanted := Merged(Configs(o.peers), news);
            if ValidPeerMap(wanted) then
              && Configs(o'.peers) == wanted && o'.tokens == Tokens(wanted)
              && o'.toDns == o.toDns + [Hostnames(wanted)]
            else o' == o
    ensures ValidPeerMap(Configs(o.peers)) ==> ValidPeerMap(Configs(Posted(o, news).peers))
  {
    InstallIsMerge(o.peers, news);
  }

  lemma FewerStayValid(configs: map<string, Peer>, left: map<string, Peer>)
    requires ValidPeerMap(configs) && left.Keys <= configs.Keys && forall id :: id in left ==> left[id] == configs[id]
    ensures ValidPeerMap(left)
  {
  }

  lemma DeletedPeers(o: Orch.State, ids: seq<string>)
    ensures var o' := Deleted(o, ids);
            && o'.peers.Keys == (set id | id in o.peers && id !in ids)
            && (forall id :: id in o'.peers ==> o'.peers[id] == o.peers[id])
            && (o' == o || o' == Synced(o.(peers := o'.peers)))
  {
    var gone := set i | 0 <= i < |ids| :: ids[i];
    assert forall id :: id in gone <==> id in ids;
    var left := o.peers - gone;
    if left.Keys == o.peers.Keys {
      assert left == o.peers;
    }
  }

  lemma DeleteKeepsRules(o: Orch.State, ids: seq<string>)
    requires ConfigInv(o)
    ensures var o' := Deleted(o, ids);
            && ConfigInv(o')
            && o'.peers.Keys == (set id | id in o.peers && id !in ids)
            && (forall id :: id in o'.peers ==> o'.peers[id] == o.peers[id])
            && (o' == o || o'.toDns == o.toDns + [Hostnames(Configs(o'.peers))])
  {
    DeletedPeers(o, ids);
    FewerStayValid(Configs(o.peers), Configs(Deleted(o, ids).peers));
  }

  // ----- whole steps --------------------------------------------------------------------

  ghost predicate AgreementInv(s: System) {
    ConfigInv(s.orch) && HostsInv(s) && SnapshotInv(s)
  }

  lemma ConnectedQuietly(o: Orch.State, e: Event, b: Backoff, closed: set<Chan>, now: Time)
    requires e.Connected?
    ensures Quietly(o, Handled(o, e, b, closed, now))
  {
    BoundKeeps(o, e.peer, e.conn, closed);
  }

  lemma DialFailedQuietly(o: Orch.State, e: Event, b: Backoff, closed: set<Chan>, now: Time)
    requires e.DialFailed?
    ensures Quietly(o, Handled(o, e, b, closed, now))
  {
    DialFailedKeeps(o, e.peer, e.ip, b, now);
  }

  lemma ExitQuietly(o: Orch.State, e: Event, b: Backoff, closed: set<Chan>, now: Time)
    requires e.PeerActorExited?
    ensures Quietly(o, Handled(o, e, b, closed, now))
  {
    ReconcileKeeps(o, closed, now);
  }

  lemma HandledQuietly(o: Orch.State, e: Event, b: Backoff, closed: set<Chan>, now: Time)
    requires e.Connected? || e.DialFailed? || e.PeerActorExited?
    ensures Quietly(o, Handled(o, e, b, closed, now))
  {
    if e.Connected? {
      ConnectedQuietly(o, e, b, closed, now);
    } else if e.DialFailed? {
      DialFailedQuietly(o, e, b, closed, now);
    } else {
      ExitQuietly(o, e, b, closed, now);
    }
  }

  lemma QuietEventKeepsAgreement(s: System, o': Orch.State, inbox': seq<Event>)
    requires AgreementInv(s) && Quietly(s.orch, o') && NewestQueued(inbox') == NewestQueued(s.inbox)
    ensures AgreementInv(s.(orch := o', inbox := inbox'))
  {
    ShapeDecides(s.orch.peers, o'.peers, Dns.ViewOf(s.dns));
  }

  lemma OtherEventsKeepAgreement(s: System, p: Params)
    requires AgreementInv(s) && CanStep(s, OrchEvent)
    requires s.inbox[0].Connected? || s.inbox[0].DialFailed? || s.inbox[0].PeerActorExited?
    ensures AgreementInv(After(s, OrchEvent, p))
  {
    PopNewest(s.inbox);
    HandledQuietly(s.orch, s.inbox[0], p.backoff, s.closed, s.now);
    QuietEventKeepsAgreement(s, Handled(s.orch, s.inbox[0], p.backoff, s.closed, s.now), s.inbox[1..]);
  }

  /** An edit that changes nothing, or leaves valid peers and tells the listener and the resolver. */
  ghost predicate Edited(o: Orch.State, o': Orch.State) {
    o' == o || (ConfigInv(o') && o'.toDns == o.toDns + [Hostnames(Configs(o'.peers))])
  }

  lemma HandledEdits(o: Orch.State, e: Event, b: Backoff, closed: set<Chan>, now: Time)
    requires ConfigInv(o) && (e.Post? || e.Delete?)
    ensures Edited(o, Handled(o, e, b, closed, now))
  {
    if e.Post? {
      PostInstallsWhatItValidated(o, e.peers);
    } else {
      DeleteKeepsRules(o, e.ids);
    }
  }

  lemma EditKeepsAgreement(s: System, o': Orch.State, inbox': seq<Event>)
    requires AgreementInv(s) && Edited(s.orch, o') && NewestQueued(inbox') == NewestQueued(s.inbox)
    ensures AgreementInv(s.(orch := o', inbox := inbox'))
  {
  }

  lemma EditsKeepAgreement(s: System, p: Params)
    requires AgreementInv(s) && CanStep(s, OrchEvent) && (s.inbox[0].Post? || s.inbox[0].Delete?)
    ensures AgreementInv(After(s, OrchEvent, p))
  {
    PopNewest(s.inbox);
    HandledEdits(s.orch, s.inbox[0], p.backoff, s.closed, s.now);
    EditKeepsAgreement(s, Handled(s.orch, s.inbox[0], p.backoff, s.closed, s.now), s.inbox[1..]);
  }

  lemma SettlingKeepsAgreement(s: System, o': Orch.State, view: Dns.View, inbox': seq<Event>)
    requires AgreementInv(s) && SettledOn(s.orch, o', view)
    requires if NewestQueued(inbox').None? then view == Dns.ViewOf(s.dns) else NewestQueued(inbox') == NewestQueued(s.inbox)
    ensures AgreementInv(s.(orch := o', inbox := inbox'))
  {
  }

  lemma SnapshotKeepsAgreement(s: System, p: Params)
    requires AgreementInv(s) && CanStep(s, OrchEvent) && s.inbox[0].Snapshot?
    ensures AgreementInv(After(s, OrchEvent, p))
  {
    PopNewest(s.inbox);
    SnapshotSettles(s.orch, s.inbox[0].view, s.closed, s.now);
    SettlingKeepsAgreement(s, Handled(s.orch, s.inbox[0], p.backoff, s.closed, s.now), s.inbox[0].view, s.inbox[1..]);
  }

  lemma OrchEventKeepsAgreement(s: System, p: Params)
    requires AgreementInv(s) && CanStep(s, OrchEvent)
    ensures AgreementInv(After(s, OrchEvent, p))
  {
    match s.inbox[0]
    case Snapshot(_) => SnapshotKeepsAgreement(s, p);
    case Post(_) => EditsKeepAgreement(s, p);
    case Delete(_) => EditsKeepAgreement(s, p);
    case _ => OtherEventsKeepAgreement(s, p);
  }

  lemma DeliverKeepsAgreement(s: System, e: Dns.Event, p: Params)
    requires ConfigInv(s.orch) && !s.dns.dirty
    requires e.Hostnames? || (HostsInv(s) && SnapshotInv(s))
    requires e.Hostnames? ==> HostsInv(s.(orch := s.orch.(toDns := [e.hosts] + s.orch.toDns)))
    ensures AgreementInv(Deliver(s, e, p))
  {
    Dns.NewestSnapshotIsCache(s.dns, p.dns, e, s.now);
    var (dns, out) := Dns.Next(s.dns, p.dns, e, s.now);
    if out.Some? {
      PushNewest(s.inbox, Snapshot(out.value));
    } else {
      assert Deliver(s, e, p).inbox == s.inbox;
    }
  }

  lemma StepKeepsAgreement(s: System, step: Step, p: Params)
    requires AgreementInv(s) && CanStep(s, step)
    ensures AgreementInv(After(s, step, p))
  {
    match step
    case Arrive(e) => PushNewest(s.inbox, e);
    case DialDone(k, i, tx) => PushNewest(s.inbox, Report(k, TasksFor(s.orch.dialing, k)[i], tx));
    case OrchEvent => OrchEventKeepsAgreement(s, p);
    case OrchTick =>
      ReconcileKeeps(s.orch, s.closed, s.now);
      QuietEventKeepsAgreement(s, Reconciled(s.orch, s.closed, s.now), s.inbox);
    case DnsReceive =>
      var o := s.orch.(toDns := s.orch.toDns[1..]);
      assert [s.orch.toDns[0]] + o.toDns == s.orch.toDns;
      DeliverKeepsAgreement(s.(orch := o), Dns.Hostnames(s.orch.toDns[0]), p);
    case DnsTurn(e) => DeliverKeepsAgreement(s, e, p);
    case _ =>
  }

  lemma StartAgrees(configs: map<string, Peer>, now: Time)
    requires ValidPeerMap(configs)
    ensures AgreementInv(Start(configs, now))
  {
    assert Configs(Start(configs, now).orch.peers) == configs;
  }

  lemma {:induction false} RunKeepsAgreement(run: seq<System>, steps: seq<Step>, configs: map<string, Peer>, p: Params, i: nat)
    requires ValidPeerMap(configs) && IsRun(run, steps, configs, p) && i < |run|
    ensures AgreementInv(run[i])
  {
    if i == 0 {
      StartAgrees(configs, run[0].now);
    } else {
      RunKeepsAgreement(run, steps, configs, p, i - 1);
      assert Follows(p)(run[i-1], steps[i-1], run[i-1+1]);
      StepKeepsAgreement(run[i-1], steps[i-1], p);
    }
  }

  /**
    No lost update. In every interleaving, once no hostname update and no
    snapshot is queued: the resolver tracks exactly the current hostnames, every
    peer's resolved addresses are the resolver's live addresses for its
    hostname, and the accepted sources last sent are those of the BareUDP peers.
   */
  lemma {:induction false} AgreementAtQuiescence(run: seq<System>, steps: seq<Step>, configs: map<string, Peer>, p: Params, i: nat)
    requires ValidPeerMap(configs) && IsRun(run, steps, configs, p) && i < |run| && Quiescent(run[i])
    ensures var s := run[i]; var peers := s.orch.peers;
            && s.dns.hostnames.Keys == Hostnames(Configs(peers))
            && (forall id :: id in peers ==>
                  match DnsHostname(peers[id].config)
                  case Some(h) => h in s.dns.hostnames && peers[id].resolved == s.dns.hostnames[h].ips.Keys
                  case None => peers[id].resolved == {})
            && s.orch.sources == AcceptedSources(peers)
  {
    RunKeepsAgreement(run, steps, configs, p, i);
    var s := run[i];
    forall id | id in s.orch.peers
      ensures match DnsHostname(s.orch.peers[id].config)
              case Some(h) => h in s.dns.hostnames && s.orch.peers[id].resolved == s.dns.hostnames[h].ips.Keys
              case None => s.orch.peers[id].resolved == {}
    {
      var c := Configs(s.orch.peers);
      if DnsHostname(c[id]).Some? {
        assert DnsHostname(c[id]).value in Hostnames(c);
      }
    }
  }

  /** The resolver knows the address for the name. */
  ghost predicate Knows(s: System, host: string, ip: Ip) {
    host in s.dns.hostnames && ip in s.dns.hostnames[host].ips
  }

  /** The address is known for the host of some BareUDP peer. */
  ghost predicate Sends(s: System, ip: Ip) {
    exists id :: id in s.orch.peers && s.orch.peers[id].config.transport.Bare? && Knows(s, s.orch.peers[id].config.transport.udp.host, ip)
  }

  /**
    In every run, once nothing is queued, the BareUDP receiver accepts exactly the
    addresses the resolver knows for the hosts of the BareUDP peers.
   */
  lemma {:induction false} SourcesAtQuiescence(run: seq<System>, steps: seq<Step>, configs: map<string, Peer>, p: Params, i: nat, ip: Ip)
    requires ValidPeerMap(configs) && IsRun(run, steps, configs, p) && i < |run| && Quiescent(run[i])
    ensures ip in run[i].orch.sources <==> Sends(run[i], ip)
  {
    AgreementAtQuiescence(run, steps, configs, p, i);
    var s := run[i];
    if ip in s.orch.sources {
      var id :| id in s.orch.peers && s.orch.peers[id].config.transport.Bare? && ip in s.orch.peers[id].resolved;
      assert Knows(s, s.orch.peers[id].config.transport.udp.host, ip);
    }
  }

  /** The host without the square brackets around it. */
  ghost predicate Unbracketed(host: string, name: string) {
    Plain(name) && exists m: nat, n: nat :: host == Bracketed(name, m, n)
  }

  /** The host the peer is resolved by: that of its endpoint, without brackets for HTTP/3. */
  ghost predicate HasHost(q: Peer, name: string) {
    match q.transport
    case Bare(udp, _) => udp.host == name
    case H3(h3, _, _, _) => h3.Some? && Unbracketed(h3.value.host, name)
  }

  lemma {:induction false} UnbracketedIsOne(host: string, name: string, m: nat, n: nat)
    requires Plain(name) && host == Bracketed(name, m, n)
    ensures StripBrackets(host) == name
  {
    StripRepeatedLeading('[', m, name + Repeated(']', n));
    assert host == Repeated('[', m) + (name + Repeated(']', n));
    StripRepeatedTrailing(name, ']', n);
  }

  lemma {:induction false} HostIsDnsHostname(q: Peer, name: string)
    ensures HasHost(q, name) <==> DnsHostname(q) == Some(name)
  {
    if q.transport.H3? && q.transport.h3.Some? {
      var host := q.transport.h3.value.host;
      var m, n := StripBracketsFacts(host);
      assert Unbracketed(host, StripBrackets(host));
      if Unbracketed(host, name) {
        var x: nat, y: nat :| host == Bracketed(name, x, y);
        UnbracketedIsOne(host, name, x, y);
      }
    }
  }

  /**
    In every run, once nothing is queued, the resolver tracks exactly the hosts of
    the configured peers, and a peer's addresses are those known for its host.
   */
  lemma {:induction false} HostsAtQuiescence(run: seq<System>, steps: seq<Step>, configs: map<string, Peer>, p: Params, i: nat, name: string)
    requires ValidPeerMap(configs) && IsRun(run, steps, configs, p) && i < |run| && Quiescent(run[i])
    ensures name in run[i].dns.hostnames <==> exists id :: id in run[i].orch.peers && HasHost(run[i].orch.peers[id].config, name)
    ensures forall id :: id in run[i].orch.peers && HasHost(run[i].orch.peers[id].config, name) ==>
              name in run[i].dns.hostnames && run[i].orch.peers[id].resolved == run[i].dns.hostnames[name].ips.Keys
  {
    AgreementAtQuiescence(run, steps, configs, p, i);
    var peers := run[i].orch.peers;
    forall id | id in peers
      ensures HasHost(peers[id].config, name) <==> DnsHostname(peers[id].config) == Some(name)
    {
      HostIsDnsHostname(peers[id].config, name);
    }
    if name in run[i].dns.hostnames {
      var id :| id in Configs(peers) && DnsHostname(Configs(peers)[id]) == Some(name);
      assert HasHost(peers[id].config, name);
    }
  }

  /** And a peer without an endpoint has no address. */
  lemma {:induction false} NoEndpointNoAddress(run: seq<System>, steps: seq<Step>, configs: map<string, Peer>, p: Params, i: nat, id: string)
    requires ValidPeerMap(configs) && IsRun(run, steps, configs, p) && i < |run| && Quiescent(run[i]) && id in run[i].orch.peers
    requires run[i].orch.peers[id].config.transport.H3? && run[i].orch.peers[id].config.transport.h3.None?
    ensures run[i].orch.peers[id].resolved == {}
  {
    AgreementAtQuiescence(run, steps, configs, p, i);
  }

  /**
    Routing is never stale for long: after every step the newest routing build
    read the current configurations and preferred senders, or a hostname update
    or a snapshot that will rebuild it is still queued.
   */
  lemma RoutingFreshOrQueued(run: seq<System>, steps: seq<Step>, configs: map<string, Peer>, p: Params, i: nat)
    requires ValidPeerMap(configs) && IsRun(run, steps, configs, p) && i < |run|
    ensures UpToDate(run[i].orch) || !Quiescent(run[i])
    ensures run[i].orch.tokens == Tokens(Configs(run[i].orch.peers)) && ValidPeerMap(Configs(run[i].orch.peers))
  {
    RunKeepsAgreement(run, steps, configs, p, i);
  }

  /**
    Only a configuration edit can make routing stale, and the step that does so
    sends the new hostnames to the resolver.
   */
  lemma OnlyEditsMakeRoutingStale(s: System, step: Step, p: Params)
    requires AgreementInv(s) && CanStep(s, step) && UpToDate(s.orch) && !UpToDate(After(s, step, p).orch)
    ensures step.OrchEvent? && (s.inbox[0].Post? || s.inbox[0].Delete?)
    ensures var o' := After(s, step, p).orch; o'.toDns == s.orch.toDns + [Hostnames(Configs(o'.peers))]
  {
    if step.OrchEvent? {
      var e := s.inbox[0];
      if e.Snapshot? {
        SnapshotSettles(s.orch, e.view, s.closed, s.now);
      } else if e.Post? || e.Delete? {
        HandledEdits(s.orch, e, p.backoff, s.closed, s.now);
      } else {
        HandledQuietly(s.orch, e, p.backoff, s.closed, s.now);
      }
    } else if step.OrchTick? {
      ReconcileKeeps(s.orch, s.closed, s.now);
    }
  }
}
