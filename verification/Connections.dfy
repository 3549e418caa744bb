/** Which connections peers keep and routing uses, in every run of the control plane (src/orch.rs). */
module Connections {
  import opened Base
  import opened Net
  import opened Peers
  import opened PeerRules
  import opened Orch
  import opened ControlPlane
  import Dns

  /** An inbound connection, or an outbound one to the configured endpoint at a resolved address. */
  predicate Current(e: PeerEntry, c: Conn) {
    c.endpoint.None? || (
      c.dest.ip in e.resolved &&
      match e.config.transport
      case Bare(udp, _) => c.endpoint == Some(ToUdp(udp))
      case H3(h3, _, _, _) => h3.Some? && c.endpoint == Some(ToH3(h3.value)))
  }

  predicate EntryCurrent(e: PeerEntry) {
    forall c :: c in e.bounds ==> Current(e, c)
  }

  predicate AllCurrent(peers: map<string, PeerEntry>) {
    forall id :: id in peers ==> EntryCurrent(peers[id])
  }

  lemma {:induction false} KeptExactly(e: PeerEntry, bounds: seq<Conn>, closed: set<Chan>, c: Conn)
    ensures c in KeptBounds(e, bounds, closed) <==> c in bounds && c.tx !in closed && Current(e, c)
  {
    if bounds != [] {
      KeptExactly(e, bounds[1..], closed, c);
      assert bounds == [bounds[0]] + bounds[1..];
    }
  }

  /** Pruning keeps exactly the connections that are open and current. */
  lemma PruneKeepsLive(e: PeerEntry, closed: set<Chan>)
    ensures forall c :: c in Pruned(e, closed).bounds <==> c in e.bounds && c.tx !in closed && Current(e, c)
    ensures EntryCurrent(Pruned(e, closed))
  {
    forall c
      ensures c in Pruned(e, closed).bounds <==> c in e.bounds && c.tx !in closed && Current(e, c)
    {
      KeptExactly(e, e.bounds, closed, c);
    }
  }

  lemma PassKeepsLive(peers: map<string, PeerEntry>, closed: set<Chan>, now: Time)
    ensures AllCurrent(Passed(peers, closed, now))
    ensures forall id, c :: id in peers && c in Passed(peers, closed, now)[id].bounds ==> c.tx !in closed
  {
    forall id | id in peers
      ensures EntryCurrent(Pass(peers[id], closed, now)) && forall c :: c in Pass(peers[id], closed, now).bounds ==> c.tx !in closed
    {
      PruneKeepsLive(peers[id], closed);
    }
  }

  lemma {:induction false} BoundKeepsCurrent(s: Orch.State, peer: string, c: Conn, closed: set<Chan>)
    requires AllCurrent(s.peers)
    ensures AllCurrent(Bound(s, peer, c, closed).peers)
  {
    if peer in s.peers {
      var e := s.peers[peer];
      var dials := if c.endpoint.Some? then e.dials - {c.dest.ip} else e.dials;
      PruneKeepsLive(e.(dials := dials, bounds := e.bounds + [c]), closed);
      assert EntryCurrent(WithBound(e, c, closed));
    }
  }

  lemma DialFailedKeepsCurrent(s: Orch.State, peer: string, ip: Ip, b: Backoff, now: Time)
    requires AllCurrent(s.peers)
    ensures AllCurrent(DialFailedAt(s, peer, ip, b, now).peers)
  {
    var t := DialFailedAt(s, peer, ip, b, now);
    forall id | id in t.peers
      ensures EntryCurrent(t.peers[id])
    {
      assert EntryCurrent(s.peers[id]);
    }
  }

  /** Connections are current, or an update that will prune them is on its way. */
  ghost predicate CurrentOrQueued(s: System) {
    AllCurrent(s.orch.peers) || !Quiescent(s)
  }

  lemma EventKeepsCurrent(s: System, p: Params)
    requires CurrentOrQueued(s) && s.inbox != []
    ensures CurrentOrQueued(After(s, OrchEvent, p))
  {
    PopNewest(s.inbox);
    match s.inbox[0]
    case Snapshot(view) => PassKeepsLive(Resolved(s.orch.peers, view), s.closed, s.now);
    case PeerActorExited => PassKeepsLive(s.orch.peers, s.closed, s.now);
    case Connected(peer, c) =>
      if AllCurrent(s.orch.peers) {
        BoundKeepsCurrent(s.orch, peer, c, s.closed);
      }
    case DialFailed(peer, ip) =>
      if AllCurrent(s.orch.peers) {
        DialFailedKeepsCurrent(s.orch, peer, ip, p.backoff, s.now);
      }
    case Post(_) =>
    case Delete(_) =>
  }

  lemma DeliverKeepsCurrent(s: System, e: Dns.Event, p: Params)
    requires CurrentOrQueued(s) || e.Hostnames?
    ensures CurrentOrQueued(Deliver(s, e, p))
  {
    var out := Dns.Next(s.dns, p.dns, e, s.now).1;
    if out.Some? {
      PushNewest(s.inbox, Snapshot(out.value));
    } else {
      assert Deliver(s, e, p).inbox == s.inbox;
    }
  }

  lemma StepKeepsCurrent(s: System, step: Step, p: Params)
    requires CurrentOrQueued(s) && CanStep(s, step)
    ensures CurrentOrQueued(After(s, step, p))
  {
    match step
    case OrchEvent => EventKeepsCurrent(s, p);
    case OrchTick => PassKeepsLive(s.orch.peers, s.closed, s.now);
    case DnsReceive =>
      DeliverKeepsCurrent(s.(orch := s.orch.(toDns := s.orch.toDns[1..])), Dns.Hostnames(s.orch.toDns[0]), p);
    case DnsTurn(e) => DeliverKeepsCurrent(s, e, p);
    case Arrive(e) => PushNewest(s.inbox, e);
    case DialDone(k, i, tx) => PushNewest(s.inbox, Report(k, TasksFor(s.orch.dialing, k)[i], tx));
    case _ =>
  }

  lemma {:induction false} RunKeepsCurrent(run: seq<System>, steps: seq<Step>, configs: map<string, Peer>, p: Params, i: nat)
    requires IsRun(run, steps, configs, p) && i < |run|
    ensures CurrentOrQueued(run[i])
  {
    if i > 0 {
      RunKeepsCurrent(run, steps, configs, p, i - 1);
      assert Follows(p)(run[i - 1], steps[i - 1], run[i - 1 + 1]);
      StepKeepsCurrent(run[i - 1], steps[i - 1], p);
    }
  }

  // ----- where outbound connections lead ---------------------------------------------------------

  /** An outbound connection was made to the port of its endpoint. */
  predicate Aimed(c: Conn) {
    match c.endpoint
    case Some(ToUdp(udp)) => c.dest.port == udp.port
    case Some(ToH3(h3)) => c.dest.port == h3.port
    case None => true
  }

  ghost predicate BoundsAimed(peers: map<string, PeerEntry>) {
    forall id, c :: id in peers && c in peers[id].bounds ==> Aimed(c)
  }

  ghost predicate AllAimed(s: System) {
    && BoundsAimed(s.orch.peers)
    && (forall e :: e in s.inbox && e.Connected? ==> Aimed(e.conn))
  }

  /** Every connection of `b` is one of `a`, or is the new one. */
  ghost predicate FewerBounds(a: map<string, PeerEntry>, b: map<string, PeerEntry>, added: Option<Conn>) {
    forall id, c :: id in b && c in b[id].bounds ==> added == Some(c) || (id in a && c in a[id].bounds)
  }

  lemma FewerStayAimed(a: map<string, PeerEntry>, b: map<string, PeerEntry>, added: Option<Conn>)
    requires FewerBounds(a, b, added) && BoundsAimed(a) && (added.Some? ==> Aimed(added.value))
    ensures BoundsAimed(b)
  {
    forall id, c | id in b && c in b[id].bounds
      ensures Aimed(c)
    {
      assert added == Some(c) || (id in a && c in a[id].bounds);
    }
  }

  lemma {:induction false} PassFewer(peers: map<string, PeerEntry>, closed: set<Chan>, now: Time)
    ensures FewerBounds(peers, Passed(peers, closed, now), None)
  {
    forall id, c | id in peers && c in Passed(peers, closed, now)[id].bounds
      ensures c in peers[id].bounds
    {
      KeptExactly(peers[id], peers[id].bounds, closed, c);
    }
  }

  lemma {:induction false} BoundFewer(s: Orch.State, peer: string, c: Conn, closed: set<Chan>)
    ensures FewerBounds(s.peers, Bound(s, peer, c, closed).peers, Some(c))
  {
    if peer in s.peers {
      var e := s.peers[peer];
      var dials := if c.endpoint.Some? then e.dials - {c.dest.ip} else e.dials;
      var wide := e.(dials := dials, bounds := e.bounds + [c]);
      forall x | x in WithBound(e, c, closed).bounds
        ensures x == c || x in e.bounds
      {
        KeptExactly(wide, wide.bounds, closed, x);
      }
    }
  }

  lemma {:induction false} PostFewer(s: Orch.State, news: seq<Peer>)
    ensures FewerBounds(s.peers, Posted(s, news).peers, None)
  {
    forall id, c | id in Posted(s, news).peers && c in Posted(s, news).peers[id].bounds
      ensures id in s.peers && c in s.peers[id].bounds
    {
      InstalledKeepsState(s.peers, news, id);
    }
  }

  /** Handling an event brings no connection but the one it reports. */
  lemma {:induction false} EventFewer(s: Orch.State, e: Event, b: Backoff, closed: set<Chan>, now: Time)
    ensures FewerBounds(s.peers, Handled(s, e, b, closed, now).peers, if e.Connected? then Some(e.conn) else None)
  {
    match e
    case Snapshot(view) => PassFewer(Resolved(s.peers, view), closed, now);
    case PeerActorExited => PassFewer(s.peers, closed, now);
    case Connected(peer, c) => BoundFewer(s, peer, c, closed);
    case DialFailed(_, _) =>
    case Post(news) => PostFewer(s, news);
    case Delete(_) =>
  }

  lemma {:induction false} StepKeepsAim(s: System, step: Step, p: Params)
    requires AllAimed(s) && CanStep(s, step)
    ensures AllAimed(After(s, step, p))
  {
    match step
    case OrchEvent =>
      var e := s.inbox[0];
      EventFewer(s.orch, e, p.backoff, s.closed, s.now);
      assert e in s.inbox;
      FewerStayAimed(s.orch.peers, After(s, OrchEvent, p).orch.peers, if e.Connected? then Some(e.conn) else None);
      assert forall e :: e in s.inbox[1..] ==> e in s.inbox;
    case OrchTick =>
      PassFewer(s.orch.peers, s.closed, s.now);
      FewerStayAimed(s.orch.peers, After(s, OrchTick, p).orch.peers, None);
    case _ =>
  }

  lemma {:induction false} RunKeepsAim(run: seq<System>, steps: seq<Step>, configs: map<string, Peer>, p: Params, i: nat)
    requires IsRun(run, steps, configs, p) && i < |run|
    ensures AllAimed(run[i])
  {
    if i > 0 {
      RunKeepsAim(run, steps, configs, p, i - 1);
      assert Follows(p)(run[i - 1], steps[i - 1], run[i - 1 + 1]);
      StepKeepsAim(run[i - 1], steps[i - 1], p);
    }
  }

  // ----- which connection is used --------------------------------------------------------------------

  /** Routing was last built with the oldest connection of every peer that has one. */
  ghost predicate RoutesOldest(s: Orch.State) {
    && (forall id :: id in s.build.senders <==> id in s.peers && s.peers[id].bounds != [])
    && (forall id :: id in s.build.senders ==> s.build.senders[id] == s.peers[id].bounds[0].tx)
  }

  /**
    In every interleaving, once no hostname update and no snapshot is queued, every
    outbound connection leads to its peer's configured endpoint, port included, at an
    address the resolver holds for it, and routing sends to every connected peer
    through its oldest connection.
   */
  lemma {:induction false} ConnectionsCurrentAtQuiescence(run: seq<System>, steps: seq<Step>, configs: map<string, Peer>, p: Params, i: nat)
    requires ValidPeerMap(configs) && IsRun(run, steps, configs, p) && i < |run| && Quiescent(run[i])
    ensures AllCurrent(run[i].orch.peers) && RoutesOldest(run[i].orch)
    ensures BoundsAimed(run[i].orch.peers)
  {
    RunKeepsCurrent(run, steps, configs, p, i);
    RoutingFreshOrQueued(run, steps, configs, p, i);
    RunKeepsAim(run, steps, configs, p, i);
  }

  /** The peer's oldest connection is `c`. */
  predicate Oldest(s: System, id: string, c: Conn) {
    id in s.orch.peers && s.orch.peers[id].bounds != [] && s.orch.peers[id].bounds[0] == c
  }

  /** The connection is open, and inbound or still to a current address of the configured endpoint. */
  predicate Live(s: System, id: string, c: Conn) {
    id in s.orch.peers && c.tx !in s.closed && Current(s.orch.peers[id], c)
  }

  lemma KeptHead(e: PeerEntry, bounds: seq<Conn>, closed: set<Chan>)
    requires bounds != [] && bounds[0].tx !in closed && Current(e, bounds[0])
    ensures KeptBounds(e, bounds, closed) != [] && KeptBounds(e, bounds, closed)[0] == bounds[0]
  {
  }

  lemma {:induction false} PassKeepsOldest(s: System, peers: map<string, PeerEntry>, id: string, c: Conn)
    requires id in peers && peers[id].bounds != [] && peers[id].bounds[0] == c && c.tx !in s.closed && Current(peers[id], c)
    ensures var e := Passed(peers, s.closed, s.now)[id]; e.bounds != [] && e.bounds[0] == c
  {
    KeptHead(peers[id], peers[id].bounds, s.closed);
  }

  lemma {:induction false} BoundKeepsOldest(s: System, peer: string, added: Conn, id: string, c: Conn)
    requires Oldest(s, id, c) && Live(s, id, c)
    ensures var t := Bound(s.orch, peer, added, s.closed); id in t.peers && t.peers[id].bounds != [] && t.peers[id].bounds[0] == c
  {
    if peer == id {
      var e := s.orch.peers[id];
      var dials := if added.endpoint.Some? then e.dials - {added.dest.ip} else e.dials;
      var wide := e.(dials := dials, bounds := e.bounds + [added]);
      assert wide.bounds[0] == c;
      KeptHead(wide, wide.bounds, s.closed);
    }
  }

  lemma {:induction false} EventKeepsOldest(s: System, p: Params, id: string, c: Conn)
    requires s.inbox != [] && Oldest(s, id, c) && Live(s, id, c) && Live(After(s, OrchEvent, p), id, c)
    ensures Oldest(After(s, OrchEvent, p), id, c)
  {
    match s.inbox[0]
    case Snapshot(view) => PassKeepsOldest(s, Resolved(s.orch.peers, view), id, c);
    case PeerActorExited => PassKeepsOldest(s, s.orch.peers, id, c);
    case Connected(peer, added) => BoundKeepsOldest(s, peer, added, id, c);
    case DialFailed(_, _) =>
    case Post(news) => InstalledKeepsState(s.orch.peers, news, id);
    case Delete(_) =>
  }

  lemma {:induction false} StepKeepsOldest(s: System, step: Step, t: System, p: Params, id: string, c: Conn)
    requires Follows(p)(s, step, t) && Oldest(s, id, c) && Live(s, id, c) && Live(t, id, c)
    ensures Oldest(t, id, c)
  {
    match step
    case OrchEvent => EventKeepsOldest(s, p, id, c);
    case OrchTick => PassKeepsOldest(s, s.orch.peers, id, c);
    case _ =>
  }

  /** In every run, the oldest connection of a peer stays the oldest as long as it is live, whatever connects beside it. */
  lemma {:induction false} OldestStaysWhileLive(
    run: seq<System>, steps: seq<Step>, configs: map<string, Peer>, p: Params, i: nat, j: nat, id: string, c: Conn)
    requires IsRun(run, steps, configs, p) && i <= j < |run| && Oldest(run[i], id, c)
    requires forall m :: i <= m <= j ==> Live(run[m], id, c)
    ensures Oldest(run[j], id, c)
    decreases j
  {
    if i < j {
      OldestStaysWhileLive(run, steps, configs, p, i, j - 1, id, c);
      assert Follows(p)(run[j - 1], steps[j - 1], run[j - 1 + 1]);
      StepKeepsOldest(run[j - 1], steps[j - 1], run[j], p, id, c);
    }
  }

  /** After a reconcile from fresh routing, no sender routing uses is a channel that was closed by then. */
  lemma {:induction false} ReconcileRoutesAroundClosed(s: Orch.State, closed: set<Chan>, now: Time)
    requires UpToDate(s)
    ensures var t := Reconciled(s, closed, now);
            UpToDate(t) && forall id :: id in t.build.senders ==> t.build.senders[id] !in closed
  {
    var t := Reconciled(s, closed, now);
    ReconcileKeeps(s, closed, now);
    PassKeepsLive(s.peers, closed, now);
    forall id | id in Senders(t.peers)
      ensures Senders(t.peers)[id] !in closed
    {
      assert t.peers[id].bounds[0] in t.peers[id].bounds;
    }
  }
}
