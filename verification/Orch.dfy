/**
  The orchestrator (src/orch.rs).

  `State` and the functions over it say what each handler does to the peer
  entries and which messages and dials it sends out; class `Orchestrator` in
  module `OrchActor` performs the handlers in place.
 */
module Orch {
  import opened Base
  import opened Net
  import opened Peers
  import opened PeerRules

  datatype DialState = DialState(attempt: nat, nextAllowedAt: Time, inFlight: bool)

  datatype SocketAddr = SocketAddr(ip: Ip, port: nat)

  /** A bound connection; `endpoint` is `None` for inbound ones. */
  datatype Conn = Conn(endpoint: Option<Endpoint>, dest: SocketAddr, tx: Chan)

  datatype PeerEntry = PeerEntry(config: Peer, bounds: seq<Conn>, resolved: set<Ip>, dials: map<Ip, DialState>)

  datatype Backoff = Backoff(min: Time, max: Time)

  /** What a routing build reads: every peer's configuration and every preferred sender. */
  datatype Build = Build(configs: map<string, Peer>, senders: map<string, Chan>)

  /** A dial task runs on behalf of a peer for one address. */
  datatype DialKey = DialKey(peer: string, ip: Ip)

  datatype State = State(
    peers: map<string, PeerEntry>,
    /** Inputs of the newest routing build. */
    build: Build,
    /** Accepted-source set last sent to the BareUDP receiver. */
    sources: set<Ip>,
    /** Token map last sent to the HTTP/3 listener. */
    tokens: map<string, string>,
    /** Hostname sets sent to the resolver and not yet received, oldest first. */
    toDns: seq<set<string>>,
    /** Running dial tasks: the endpoint each was started for. */
    dialing: map<DialKey, seq<Option<Endpoint>>>)

  const U32_MAX: nat := 0xFFFF_FFFF

  function Pow2(n: nat): (p: nat)
    ensures p >= 1
  {
    if n == 0 then 1 else 2 * Pow2(n - 1)
  }

  function SaturatingMul(d: Time, k: nat): Time {
    Min(MAX_DURATION, d * k)
  }

  /** The wait after a failure that follows `attempt` earlier ones. */
  function Delay(b: Backoff, attempt: nat): Time {
    Min(b.max, SaturatingMul(b.min, Pow2(Min(attempt, 30))))
  }

  function RecordFailure(d: DialState, b: Backoff, now: Time): DialState {
    DialState(Min(d.attempt + 1, U32_MAX), now + Delay(b, d.attempt), false)
  }

  // ----- one peer --------------------------------------------------------------

  function Preferred(e: PeerEntry): Option<Chan> {
    if e.bounds == [] then None else Some(e.bounds[0].tx)
  }

  predicate Keeps(e: PeerEntry, c: Conn, closed: set<Chan>) {
    && c.tx !in closed
    && (c.endpoint.None? || (ConfigEndpoint(e.config) == c.endpoint && c.dest.ip in e.resolved))
  }

  function KeptBounds(e: PeerEntry, bounds: seq<Conn>, closed: set<Chan>): seq<Conn> {
    if bounds == [] then []
    else (if Keeps(e, bounds[0], closed) then [bounds[0]] else []) + KeptBounds(e, bounds[1..], closed)
  }

  function Pruned(e: PeerEntry, closed: set<Chan>): PeerEntry {
    e.(bounds := KeptBounds(e, e.bounds, closed),
       dials := (map ip | ip in e.dials && ip in e.resolved :: e.dials[ip]))
  }

  predicate PreferredChanged(before: PeerEntry, after: PeerEntry) {
    Preferred(before) != Preferred(after)
  }

  predicate Covered(e: PeerEntry, ip: Ip) {
    exists i :: 0 <= i < |e.bounds| && e.bounds[i].dest.ip == ip
  }

  predicate Blocked(e: PeerEntry, ip: Ip, now: Time) {
    ip in e.dials && (e.dials[ip].inFlight || now < e.dials[ip].nextAllowedAt)
  }

  /** The addresses a connect pass dials. */
  function ToDial(e: PeerEntry, now: Time): set<Ip> {
    set ip | ip in e.resolved && !Covered(e, ip) && !Blocked(e, ip, now)
  }

  function MarkInFlight(dials: map<Ip, DialState>, ip: Ip, now: Time): DialState {
    if ip in dials then dials[ip].(inFlight := true) else DialState(0, now, true)
  }

  function MarkAll(dials: map<Ip, DialState>, ips: set<Ip>, now: Time): map<Ip, DialState> {
    map ip | ip in dials.Keys + ips :: if ip in ips then MarkInFlight(dials, ip, now) else dials[ip]
  }

  function Connecting(e: PeerEntry, now: Time): PeerEntry {
    e.(dials := MarkAll(e.dials, ToDial(e, now), now))
  }

  /** Prune, then connect. */
  function Pass(e: PeerEntry, closed: set<Chan>, now: Time): PeerEntry {
    Connecting(Pruned(e, closed), now)
  }

  // ----- the whole pool ----------------------------------------------------------

  function Configs(peers: map<string, PeerEntry>): map<string, Peer> {
    map id | id in peers :: peers[id].config
  }

  function Senders(peers: map<string, PeerEntry>): map<string, Chan> {
    map id | id in peers && Preferred(peers[id]).Some? :: Preferred(peers[id]).value
  }

  function CurrentBuild(peers: map<string, PeerEntry>): Build {
    Build(Configs(peers), Senders(peers))
  }

  function AcceptedSources(peers: map<string, PeerEntry>): set<Ip> {
    set id, ip | id in peers && peers[id].config.transport.Bare? && ip in peers[id].resolved :: ip
  }

  function TasksFor(dialing: map<DialKey, seq<Option<Endpoint>>>, k: DialKey): seq<Option<Endpoint>> {
    if k in dialing then dialing[k] else []
  }

  /** `dialing` with one more task for each of a peer's addresses `ips`. */
  function Launched(dialing: map<DialKey, seq<Option<Endpoint>>>, peer: string, ips: set<Ip>, ep: Option<Endpoint>)
    : map<DialKey, seq<Option<Endpoint>>>
  {
    map k | k in dialing.Keys + (set ip | ip in ips :: DialKey(peer, ip)) ::
      TasksFor(dialing, k) + if k.peer == peer && k.ip in ips then [ep] else []
  }

  /** Each entry pruned and connected; `peers` is keyed by peer id. */
  function Passed(peers: map<string, PeerEntry>, closed: set<Chan>, now: Time): map<string, PeerEntry> {
    map id | id in peers :: Pass(peers[id], closed, now)
  }

  function NewDials(peers: map<string, PeerEntry>, closed: set<Chan>, now: Time): set<DialKey> {
    set id, ip | id in peers && ip in ToDial(Pruned(peers[id], closed), now) :: DialKey(id, ip)
  }

  function Dialed(s: State, closed: set<Chan>, now: Time): map<DialKey, seq<Option<Endpoint>>> {
    var news := NewDials(s.peers, closed, now);
    map k | k in s.dialing.Keys + news ::
      TasksFor(s.dialing, k) + if k in news && k.peer in s.peers then [ConfigEndpoint(s.peers[k.peer].config)] else []
  }

  /** Every peer pruned and connected, without telling anyone. */
  function PassAll(s: State, closed: set<Chan>, now: Time): State {
    s.(peers := Passed(s.peers, closed, now), dialing := Dialed(s, closed, now))
  }

  function Rebuilt(s: State): State {
    s.(build := CurrentBuild(s.peers))
  }

  /** The pass changes some peer's preferred sender. */
  predicate ReconcileReroutes(s: State, closed: set<Chan>, now: Time) {
    exists id :: id in s.peers && PreferredChanged(s.peers[id], PassAll(s, closed, now).peers[id])
  }

  function Reconciled(s: State, closed: set<Chan>, now: Time): State {
    var s' := PassAll(s, closed, now);
    if ReconcileReroutes(s, closed, now) then Rebuilt(s') else s'
  }

  /** Tokens to the listener and hostnames to the resolver. */
  function Synced(s: State): State {
    s.(tokens := Tokens(Configs(s.peers)), toDns := s.toDns + [Hostnames(Configs(s.peers))])
  }

  /** What `Orchestrator::new` leaves behind: no connections, an empty routing table, hostnames sent. */
  function Initial(configs: map<string, Peer>): State {
    Synced(State(map id | id in configs :: PeerEntry(configs[id], [], {}, map[]),
                 Build(map[], map[]), {}, map[], [], map[]))
  }

  function Lookup(view: map<string, set<Ip>>, p: Peer): set<Ip> {
    match DnsHostname(p)
    case Some(h) => if h in view then view[h] else {}
    case None => {}
  }

  function Resolved(peers: map<string, PeerEntry>, view: map<string, set<Ip>>): map<string, PeerEntry> {
    map id | id in peers :: peers[id].(resolved := Lookup(view, peers[id].config))
  }

  function WithSnapshot(s: State, view: map<string, set<Ip>>, closed: set<Chan>, now: Time): State {
    var s' := PassAll(s.(peers := Resolved(s.peers, view)), closed, now);
    Rebuilt(s'.(sources := AcceptedSources(s'.peers)))
  }

  function WithBound(e: PeerEntry, c: Conn, closed: set<Chan>): PeerEntry {
    var dials := if c.endpoint.Some? then e.dials - {c.dest.ip} else e.dials;
    Pruned(e.(dials := dials, bounds := e.bounds + [c]), closed)
  }

  /** The connection is its peer's first, or pruning beside it changes the preferred sender. */
  predicate BoundReroutes(s: State, peer: string, c: Conn, closed: set<Chan>) {
    peer in s.peers &&
    var e := s.peers[peer];
    e.bounds == [] || PreferredChanged(e.(bounds := e.bounds + [c]), WithBound(e, c, closed))
  }

  function Bound(s: State, peer: string, c: Conn, closed: set<Chan>): State {
    if peer !in s.peers then s else
      var s' := s.(peers := s.peers[peer := WithBound(s.peers[peer], c, closed)]);
      if BoundReroutes(s, peer, c, closed) then Rebuilt(s') else s'
  }

  function DialFailedAt(s: State, peer: string, ip: Ip, b: Backoff, now: Time): State {
    if peer !in s.peers || ip !in s.peers[peer].dials then s else
      var e := s.peers[peer];
      s.(peers := s.peers[peer := e.(dials := e.dials[ip := RecordFailure(e.dials[ip], b, now)])])
  }

  /** Later definitions of one id win. */
  function Merged(configs: map<string, Peer>, news: seq<Peer>): map<string, Peer>
    decreases |news|
  {
    if news == [] then configs else Merged(configs[news[0].id := news[0]], news[1..])
  }

  lemma {:induction false} MergedKeepsOthers(configs: map<string, Peer>, news: seq<Peer>, id: string)
    requires forall i :: 0 <= i < |news| ==> news[i].id != id
    ensures id in Merged(configs, news) <==> id in configs
    ensures id in configs ==> Merged(configs, news)[id] == configs[id]
    decreases |news|
  {
    if news != [] {
      MergedKeepsOthers(configs[news[0].id := news[0]], news[1..], id);
    }
  }

  /** A merged id has the last definition in the list. */
  lemma {:induction false} LastDefinitionWins(configs: map<string, Peer>, news: seq<Peer>, i: nat)
    requires i < |news| && forall j :: i < j < |news| ==> news[j].id != news[i].id
    ensures news[i].id in Merged(configs, news) && Merged(configs, news)[news[i].id] == news[i]
    decreases |news|
  {
    if i == 0 {
      MergedKeepsOthers(configs[news[0].id := news[0]], news[1..], news[0].id);
    } else {
      LastDefinitionWins(configs[news[0].id := news[0]], news[1..], i - 1);
    }
  }

  function Install(peers: map<string, PeerEntry>, p: Peer): map<string, PeerEntry> {
    peers[p.id := if p.id in peers then peers[p.id].(config := p) else PeerEntry(p, [], {}, map[])]
  }

  function Installed(peers: map<string, PeerEntry>, news: seq<Peer>): map<string, PeerEntry>
    decreases |news|
  {
    if news == [] then peers else Installed(Install(peers, news[0]), news[1..])
  }

  lemma {:induction false} InstalledKeepsState(peers: map<string, PeerEntry>, news: seq<Peer>, id: string)
    ensures id in peers ==>
              id in Installed(peers, news) && Installed(peers, news)[id] == peers[id].(config := Installed(peers, news)[id].config)
    ensures id !in peers && id in Installed(peers, news) ==>
              Installed(peers, news)[id] == PeerEntry(Installed(peers, news)[id].config, [], {}, map[])
    decreases |news|
  {
    if news != [] {
      InstalledKeepsState(Install(peers, news[0]), news[1..], id);
    }
  }

  ghost function Posted(s: State, news: seq<Peer>): State {
    if ValidPeerMap(Merged(Configs(s.peers), news)) then Synced(s.(peers := Installed(s.peers, news))) else s
  }

  function Deleted(s: State, ids: seq<string>): State {
    var gone := set i | 0 <= i < |ids| :: ids[i];
    var left := s.peers - gone;
    if left.Keys != s.peers.Keys then Synced(s.(peers := left)) else s
  }

  // ----- events --------------------------------------------------------------------

  datatype Event =
    | Snapshot(view: map<string, set<Ip>>)
    | Connected(peer: string, conn: Conn)
    | DialFailed(peer: string, ip: Ip)
    | Post(peers: seq<Peer>)
    | Delete(ids: seq<string>)
    /** A restartable actor exited. */
    | PeerActorExited

  ghost function Handled(s: State, e: Event, b: Backoff, closed: set<Chan>, now: Time): State {
    match e
    case Snapshot(view) => WithSnapshot(s, view, closed, now)
    case Connected(peer, conn) => Bound(s, peer, conn, closed)
    case DialFailed(peer, ip) => DialFailedAt(s, peer, ip, b, now)
    case Post(peers) => Posted(s, peers)
    case Delete(ids) => Deleted(s, ids)
    case PeerActorExited => Reconciled(s, closed, now)
  }
}
