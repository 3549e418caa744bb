/**
  What the router and the HTTP/3 listener end up with (src/orch.rs, src/router.rs):
  the control plane's runs extended by the two inboxes its updates go through.
 */
module Downstream {
  import opened Base
  import opened Net
  import opened Sequences
  import opened Peers
  import opened PeerRules
  import opened Orch
  import opened ControlPlane
  import Routing
  import Dns

  /** The TUN's addresses and input channel. */
  datatype Local = Local(addrs: seq<IpNet>, input: Chan)

  datatype World = World(
    sys: System,
    /** The router's table, and tables sent to it and not yet received. */
    table: Routing.Trie,
    toRouter: seq<Routing.Trie>,
    /** The listener's tokens, and token maps sent to it and not yet received. */
    tokens: map<string, string>,
    toListener: seq<map<string, string>>)

  /** A step of the control plane, with the order in which it lists the peers, or a delivery. */
  datatype Move = Inner(step: Step, listing: seq<Peer>) | RouterReceive | ListenerReceive

  ghost predicate ListsValues(listing: seq<Peer>, configs: map<string, Peer>) {
    forall p :: p in listing <==> p in configs.Values
  }

  /** The step builds a routing table. */
  predicate Attempts(s: System, step: Step) {
    match step
    case OrchTick => ReconcileReroutes(s.orch, s.closed, s.now)
    case OrchEvent =>
      s.inbox != [] && (
        match s.inbox[0]
        case Snapshot(_) => true
        case Connected(peer, c) => BoundReroutes(s.orch, peer, c, s.closed)
        case PeerActorExited => ReconcileReroutes(s.orch, s.closed, s.now)
        case _ => false)
    case _ => false
  }

  /** The step is an edit that took effect, so it sends tokens and hostnames. */
  ghost predicate Syncs(s: System, step: Step, p: Params)
    requires CanStep(s, step)
  {
    step.OrchEvent? && (s.inbox[0].Post? || s.inbox[0].Delete?) && After(s, step, p).orch.toDns != s.orch.toDns
  }

  function TableFor(peers: map<string, PeerEntry>, listing: seq<Peer>, l: Local): Result<Routing.Trie, Routing.RoutingError> {
    Routing.Made(listing, Senders(peers), l.addrs, l.input)
  }

  ghost predicate CanMove(w: World, m: Move, p: Params) {
    match m
    case Inner(step, listing) => CanStep(w.sys, step) && ListsValues(listing, Configs(After(w.sys, step, p).orch.peers))
    case RouterReceive => w.toRouter != []
    case ListenerReceive => w.toListener != []
  }

  ghost function Moved(w: World, m: Move, p: Params, l: Local): World
    requires CanMove(w, m, p)
  {
    match m
    case Inner(step, listing) =>
      var sys := After(w.sys, step, p);
      var made := TableFor(sys.orch.peers, listing, l);
      w.(sys := sys,
         toRouter := w.toRouter + (if Attempts(w.sys, step) && made.Ok? then [made.value] else []),
         toListener := w.toListener + (if Syncs(w.sys, step, p) then [sys.orch.tokens] else []))
    case RouterReceive => w.(table := w.toRouter[0], toRouter := w.toRouter[1..])
    case ListenerReceive => w.(tokens := w.toListener[0], toListener := w.toListener[1..])
  }

  /** The router starts with an empty table and the listener without tokens; the first token map is on its way. */
  function Begin(configs: map<string, Peer>, now: Time): World {
    World(Start(configs, now), map[], [], map[], [Tokens(configs)])
  }

  ghost function Moves(p: Params, l: Local): (World, Move, World) -> bool {
    (w: World, m: Move, v: World) => CanMove(w, m, p) && v == Moved(w, m, p, l)
  }

  ghost predicate IsHistory(run: seq<World>, moves: seq<Move>, configs: map<string, Peer>, p: Params, l: Local) {
    Chain(Moves(p, l), run, moves) && run[0] == Begin(configs, run[0].sys.now)
  }

  /** What the receiver has once its inbox is empty. */
  function Newest<T>(queue: seq<T>, current: T): T {
    if queue == [] then current else queue[|queue| - 1]
  }

  lemma NewestPop<T>(queue: seq<T>, current: T)
    requires queue != []
    ensures Newest(queue[1..], queue[0]) == Newest(queue, current)
  {
  }

  lemma NewestPush<T>(queue: seq<T>, sent: seq<T>, current: T)
    ensures Newest(queue + sent, current) == if sent == [] then Newest(queue, current) else sent[|sent| - 1]
  {
  }

  // ----- the control plane inside -------------------------------------------------------------

  /** Every reachable world has a system with the control plane's invariant. */
  lemma {:induction false} InnerAgrees(run: seq<World>, moves: seq<Move>, configs: map<string, Peer>, p: Params, l: Local, i: nat)
    requires ValidPeerMap(configs) && IsHistory(run, moves, configs, p, l) && i < |run|
    ensures AgreementInv(run[i].sys)
  {
    if i == 0 {
      StartAgrees(configs, run[0].sys.now);
    } else {
      InnerAgrees(run, moves, configs, p, l, i - 1);
      assert Moves(p, l)(run[i - 1], moves[i - 1], run[i - 1 + 1]);
      if moves[i - 1].Inner? {
        StepKeepsAgreement(run[i - 1].sys, moves[i - 1].step, p);
      }
    }
  }

  // ----- the listener ---------------------------------------------------------------------------

  /** Tokens change only in a step that sends them. */
  lemma QuietKeepsTokens(s: System, step: Step, p: Params)
    requires CanStep(s, step)
    ensures Syncs(s, step, p) || After(s, step, p).orch.tokens == s.orch.tokens
  {
    if step.OrchEvent? && s.inbox[0].Post? {
      assert |s.orch.toDns + [Hostnames(Configs(Installed(s.orch.peers, s.inbox[0].peers)))]| != |s.orch.toDns|;
    }
  }

  lemma {:induction false} TokensSentOrDelivered(run: seq<World>, moves: seq<Move>, configs: map<string, Peer>, p: Params, l: Local, i: nat)
    requires IsHistory(run, moves, configs, p, l) && i < |run|
    ensures Newest(run[i].toListener, run[i].tokens) == run[i].sys.orch.tokens
  {
    if i == 0 {
      assert Configs(run[0].sys.orch.peers) == configs;
    } else {
      TokensSentOrDelivered(run, moves, configs, p, l, i - 1);
      var w, m := run[i - 1], moves[i - 1];
      assert Moves(p, l)(w, m, run[i - 1 + 1]);
      match m
      case Inner(step, _) =>
        QuietKeepsTokens(w.sys, step, p);
        NewestPush(w.toListener, if Syncs(w.sys, step, p) then [run[i].sys.orch.tokens] else [], w.tokens);
      case ListenerReceive => NewestPop(w.toListener, w.tokens);
      case RouterReceive =>
    }
  }

  /** In every run, once its inbox is empty, the listener has exactly the tokens of the configured HTTP/3 peers. */
  lemma ListenerHasCurrentTokens(run: seq<World>, moves: seq<Move>, configs: map<string, Peer>, p: Params, l: Local, i: nat)
    requires ValidPeerMap(configs) && IsHistory(run, moves, configs, p, l) && i < |run| && run[i].toListener == []
    ensures run[i].tokens == Tokens(Configs(run[i].sys.orch.peers)) && ValidPeerMap(Configs(run[i].sys.orch.peers))
  {
    TokensSentOrDelivered(run, moves, configs, p, l, i);
    InnerAgrees(run, moves, configs, p, l, i);
  }

  // ----- the router ------------------------------------------------------------------------------

  /** The newest table sent is the one the current inputs give, if they give one. */
  ghost predicate Published(w: World, l: Local) {
    forall listing :: ListsValues(listing, Configs(w.sys.orch.peers)) && TableFor(w.sys.orch.peers, listing, l).Ok? ==>
      Newest(w.toRouter, w.table) == TableFor(w.sys.orch.peers, listing, l).value
  }

  /** A build publishes, or there is nothing to publish. */
  lemma AttemptPublishes(w: World, step: Step, listing: seq<Peer>, p: Params, l: Local)
    requires CanMove(w, Inner(step, listing), p) && Attempts(w.sys, step)
    ensures Published(Moved(w, Inner(step, listing), p, l), l)
  {
    var v := Moved(w, Inner(step, listing), p, l);
    var peers := v.sys.orch.peers;
    forall other | ListsValues(other, Configs(peers)) && TableFor(peers, other, l).Ok?
      ensures Newest(v.toRouter, v.table) == TableFor(peers, other, l).value
    {
      Routing.PeerOrderIsIrrelevant(listing, other, Senders(peers), l.addrs, l.input);
      NewestPush(w.toRouter, [TableFor(peers, listing, l).value], w.table);
    }
  }

  lemma HandledKeepsInputs(s: System, p: Params)
    requires s.inbox != [] && !Attempts(s, OrchEvent) && !s.inbox[0].Post? && !s.inbox[0].Delete?
    ensures CurrentBuild(Handled(s.orch, s.inbox[0], p.backoff, s.closed, s.now).peers) == CurrentBuild(s.orch.peers)
  {
    var e := s.inbox[0];
    if e.Connected? {
      BoundKeeps(s.orch, e.peer, e.conn, s.closed);
    } else if e.DialFailed? {
      DialFailedKeeps(s.orch, e.peer, e.ip, p.backoff, s.now);
    } else {
      ReconcileKeeps(s.orch, s.closed, s.now);
    }
  }

  lemma EditUnsettles(o: Orch.State, e: Event, b: Backoff, closed: set<Chan>, now: Time)
    requires e.Post? || e.Delete?
    ensures Handled(o, e, b, closed, now) == o || Handled(o, e, b, closed, now).toDns != []
  {
  }

  /** A step that builds nothing leaves the inputs as they are, or is an edit and has sent hostnames. */
  lemma {:induction false} NoAttemptKeepsInputs(s: System, step: Step, p: Params)
    requires CanStep(s, step) && !Attempts(s, step)
    ensures CurrentBuild(After(s, step, p).orch.peers) == CurrentBuild(s.orch.peers) || !Quiescent(After(s, step, p))
  {
    if step.OrchEvent? {
      if s.inbox[0].Post? || s.inbox[0].Delete? {
        EditUnsettles(s.orch, s.inbox[0], p.backoff, s.closed, s.now);
      } else {
        HandledKeepsInputs(s, p);
      }
    } else if step.OrchTick? {
      ReconcileKeeps(s.orch, s.closed, s.now);
    }
  }

  /** Only handling a snapshot makes the control plane quiescent, and that builds a table. */
  lemma NoAttemptKeepsUnrest(s: System, step: Step, p: Params)
    requires CanStep(s, step) && !Attempts(s, step) && !Quiescent(s)
    ensures !Quiescent(After(s, step, p))
  {
    match step
    case OrchEvent => PopNewest(s.inbox);
    case Arrive(e) => PushNewest(s.inbox, e);
    case DialDone(k, i, tx) => PushNewest(s.inbox, Report(k, TasksFor(s.orch.dialing, k)[i], tx));
    case DnsReceive => PushNewest(s.inbox, Snapshot(Dns.Next(s.dns, p.dns, Dns.Hostnames(s.orch.toDns[0]), s.now).1.value));
    case DnsTurn(e) =>
      var out := Dns.Next(s.dns, p.dns, e, s.now).1;
      if out.Some? {
        PushNewest(s.inbox, Snapshot(out.value));
      } else {
        assert After(s, step, p).inbox == s.inbox;
      }
    case _ =>
  }

  lemma SameInputsSamePublished(w: World, v: World, l: Local)
    requires Published(w, l) && CurrentBuild(v.sys.orch.peers) == CurrentBuild(w.sys.orch.peers)
    requires Newest(v.toRouter, v.table) == Newest(w.toRouter, w.table)
    ensures Published(v, l)
  {
  }

  lemma MoveKeepsPublished(w: World, m: Move, p: Params, l: Local)
    requires CanMove(w, m, p) && (Published(w, l) || !Quiescent(w.sys))
    ensures var v := Moved(w, m, p, l); Published(v, l) || !Quiescent(v.sys)
  {
    var v := Moved(w, m, p, l);
    match m
    case RouterReceive =>
      NewestPop(w.toRouter, w.table);
      if Published(w, l) {
        SameInputsSamePublished(w, v, l);
      }
    case ListenerReceive =>
      if Published(w, l) {
        SameInputsSamePublished(w, v, l);
      }
    case Inner(step, listing) =>
      if Attempts(w.sys, step) {
        AttemptPublishes(w, step, listing, p, l);
      } else if !Quiescent(w.sys) {
        NoAttemptKeepsUnrest(w.sys, step, p);
      } else {
        NoAttemptKeepsInputs(w.sys, step, p);
        assert v.toRouter == w.toRouter;
        if Quiescent(v.sys) {
          SameInputsSamePublished(w, v, l);
        }
      }
  }

  lemma {:induction false} PublishedOrQueued(run: seq<World>, moves: seq<Move>, configs: map<string, Peer>, p: Params, l: Local, i: nat)
    requires IsHistory(run, moves, configs, p, l) && i < |run|
    ensures Published(run[i], l) || !Quiescent(run[i].sys)
  {
    if i > 0 {
      PublishedOrQueued(run, moves, configs, p, l, i - 1);
      assert Moves(p, l)(run[i - 1], moves[i - 1], run[i - 1 + 1]);
      MoveKeepsPublished(run[i - 1], moves[i - 1], p, l);
    }
  }

  /**
    In every run, once nothing is queued for the resolver, the orchestrator or the
    router, the router's table is the one the current peers and preferred senders
    give, exactly when no prefix is disputed between two peers with senders.
   */
  lemma RouterHasCurrentTableIffUndisputed(
    run: seq<World>, moves: seq<Move>, configs: map<string, Peer>, p: Params, l: Local, i: nat, listing: seq<Peer>)
    requires IsHistory(run, moves, configs, p, l) && i < |run| && Quiescent(run[i].sys) && run[i].toRouter == []
    requires ListsValues(listing, Configs(run[i].sys.orch.peers))
    ensures var peers := run[i].sys.orch.peers;
            TableFor(peers, listing, l) == Ok(run[i].table) <==> !Routing.Disputed(listing, Senders(peers))
  {
    PublishedOrQueued(run, moves, configs, p, l, i);
    Routing.MadeFacts(listing, Senders(run[i].sys.orch.peers), l.addrs, l.input);
  }

  // ----- while a prefix is disputed -----------------------------------------------------------------

  /** Two peers with senders claim one prefix, in whatever order the peers are listed. */
  ghost predicate InDispute(w: World) {
    forall listing :: ListsValues(listing, Configs(w.sys.orch.peers)) ==> Routing.Disputed(listing, Senders(w.sys.orch.peers))
  }

  /** A step into a disputed state reaches the router with nothing. */
  lemma DisputedKeepsTable(w: World, step: Step, listing: seq<Peer>, p: Params, l: Local)
    requires CanMove(w, Inner(step, listing), p)
    requires Routing.Disputed(listing, Senders(After(w.sys, step, p).orch.peers))
    ensures var v := Moved(w, Inner(step, listing), p, l); v.table == w.table && v.toRouter == w.toRouter
  {
    Routing.MadeFacts(listing, Senders(After(w.sys, step, p).orch.peers), l.addrs, l.input);
  }

  /** The router's inbox is as it was or one shorter, and its newest table is the same. */
  ghost predicate Freezes(w: World, v: World) {
    && (v.toRouter == w.toRouter || (w.toRouter != [] && v.toRouter == w.toRouter[1..]))
    && Newest(v.toRouter, v.table) == Newest(w.toRouter, w.table)
  }

  lemma MoveIntoDispute(w: World, m: Move, v: World, p: Params, l: Local)
    requires Moves(p, l)(w, m, v) && InDispute(v)
    ensures Freezes(w, v)
  {
    assert CanMove(w, m, p) && v == Moved(w, m, p, l);
    match m
    case Inner(step, listing) =>
      assert Routing.Disputed(listing, Senders(v.sys.orch.peers));
      DisputedKeepsTable(w, step, listing, p, l);
    case RouterReceive => NewestPop(w.toRouter, w.table);
    case ListenerReceive =>
  }

  lemma {:induction false} DisputeFreezesMove(run: seq<World>, moves: seq<Move>, configs: map<string, Peer>, p: Params, l: Local, x: nat)
    requires IsHistory(run, moves, configs, p, l) && x + 1 < |run| && InDispute(run[x + 1])
    ensures Freezes(run[x], run[x + 1])
  {
    assert Moves(p, l)(run[x], moves[x], run[x + 1]);
    MoveIntoDispute(run[x], moves[x], run[x + 1], p, l);
  }

  lemma {:induction false} FrozenAlong(run: seq<World>, i: nat, j: nat) returns (k: nat)
    requires i <= j < |run| && forall x :: i <= x < j ==> Freezes(run[x], run[x + 1])
    ensures k <= |run[i].toRouter| && run[j].toRouter == run[i].toRouter[k..]
    ensures Newest(run[j].toRouter, run[j].table) == Newest(run[i].toRouter, run[i].table)
  {
    k := 0;
    if i < j {
      k := FrozenAlong(run, i, j - 1);
      var w, v := run[j - 1], run[j];
      assert Freezes(run[j - 1], run[j - 1 + 1]);
      if v.toRouter != w.toRouter {
        assert v.toRouter == w.toRouter[1..] == run[i].toRouter[k..][1..] == run[i].toRouter[k + 1..];
        k := k + 1;
      }
    }
  }

  /**
    In every run, as long as a prefix stays disputed, the router gets only tables
    that were already on their way, and the newest of them is the one it keeps.
   */
  lemma {:induction false} DisputeFreezesTable(
    run: seq<World>, moves: seq<Move>, configs: map<string, Peer>, p: Params, l: Local, i: nat, j: nat) returns (k: nat)
    requires IsHistory(run, moves, configs, p, l) && i <= j < |run|
    requires forall x :: i < x <= j ==> InDispute(run[x])
    ensures k <= |run[i].toRouter| && run[j].toRouter == run[i].toRouter[k..]
    ensures Newest(run[j].toRouter, run[j].table) == Newest(run[i].toRouter, run[i].table)
  {
    forall x | i <= x < j
      ensures Freezes(run[x], run[x + 1])
    {
      DisputeFreezesMove(run, moves, configs, p, l, x);
    }
    k := FrozenAlong(run, i, j);
  }
}
