/**
  The DNS resolver actor (src/dns.rs).

  `State` and the functions over it say what each handler does to the actor's
  fields; class `DnsActor` performs the handlers in place and is proved against
  them. Parsing a hostname as an IP literal is the parameter `Tuning.literal`,
  and a query task is a member of `tasks` that finishes with an `Outcome`.
 */
module Dns {
  import opened Base
  import opened Net

  datatype RecordType = A | AAAA

  datatype Query = Query(host: string, rtype: RecordType)

  datatype HostState = HostState(ips: map<Ip, Time>, nextRefreshAt: Time)

  datatype Tuning = Tuning(minTtl: Time, refreshInterval: Time, literal: string -> Option<Ip>)

  /** How a query task ends: address records with their TTL in seconds, or a failure. */
  datatype Outcome = Records(ttls: map<Ip, nat>) | Failed

  /** What the orchestrator is told: the live addresses of every registered hostname. */
  type View = map<string, set<Ip>>

  datatype State = State(
    hostnames: map<string, HostState>,
    queued: set<Query>,
    pending: set<Query>,
    tasks: multiset<Query>,
    dirty: bool)

  const INIT := State(map[], {}, {}, multiset{}, false)

  const LITERAL_TTL: nat := 0xFFFF_FFFF

  function ViewOf(s: State): View {
    map h | h in s.hostnames :: s.hostnames[h].ips.Keys
  }

  function Expiry(t: Tuning, ttl: nat, now: Time): Time {
    now + Max(ttl * SECOND, t.minTtl)
  }

  // ----- what the handlers do ------------------------------------------------

  function Registered(s: State, hosts: set<string>, now: Time): State {
    s.(hostnames := (map h | h in hosts :: if h in s.hostnames then s.hostnames[h] else HostState(map[], now)),
       queued := (set q | q in s.queued && q.host in hosts),
       dirty := s.dirty || s.hostnames.Keys != hosts)
  }

  /** Records one address for `host`; a hostname that is not registered is ignored. */
  function Recorded(s: State, t: Tuning, host: string, ip: Ip, ttl: nat, now: Time): State {
    if host !in s.hostnames then s else
      var entry := s.hostnames[host];
      s.(hostnames := s.hostnames[host := entry.(ips := entry.ips[ip := Expiry(t, ttl, now)])],
         dirty := s.dirty || ip !in entry.ips)
  }

  /** `ips` with every record's address renewed. */
  function Renewed(t: Tuning, ips: map<Ip, Time>, ttls: map<Ip, nat>, now: Time): map<Ip, Time> {
    ips + (map ip | ip in ttls :: Expiry(t, ttls[ip], now))
  }

  function RecordedAll(s: State, t: Tuning, host: string, ttls: map<Ip, nat>, now: Time): State {
    if host !in s.hostnames then s else
      var entry := s.hostnames[host];
      s.(hostnames := s.hostnames[host := entry.(ips := Renewed(t, entry.ips, ttls, now))],
         dirty := s.dirty || !(ttls.Keys <= entry.ips.Keys))
  }

  /** The state of `host` once its own address is recorded, if the name is an IP literal. */
  function WithLiteral(t: Tuning, host: string, entry: HostState, now: Time): HostState {
    match t.literal(host)
    case Some(ip) => entry.(ips := entry.ips[ip := Expiry(t, LITERAL_TTL, now)])
    case None => entry
  }

  predicate Due(t: Tuning, host: string, entry: HostState, now: Time) {
    t.literal(host).None? && entry.nextRefreshAt <= now
  }

  function RefreshedHost(t: Tuning, host: string, entry: HostState, now: Time): HostState {
    if Due(t, host, entry, now) then entry.(nextRefreshAt := now + t.refreshInterval) else entry
  }

  function DueQueries(s: State, t: Tuning, now: Time): set<Query> {
    set h, r | h in s.hostnames && r in {A, AAAA} && Due(t, h, s.hostnames[h], now) :: Query(h, r)
  }

  function Refreshed(s: State, t: Tuning, now: Time): State {
    s.(hostnames := (map h | h in s.hostnames :: RefreshedHost(t, h, s.hostnames[h], now)),
       queued := s.queued + (DueQueries(s, t, now) - s.pending))
  }

  /** Records every IP literal and asks for a snapshot. */
  function Literals(s: State, t: Tuning, now: Time): State {
    s.(hostnames := (map h | h in s.hostnames :: WithLiteral(t, h, s.hostnames[h], now)), dirty := true)
  }

  function WithHostnames(s: State, t: Tuning, hosts: set<string>, now: Time): State {
    Refreshed(Literals(Registered(s, hosts, now), t, now), t, now)
  }

  function Fresh(ips: map<Ip, Time>, now: Time): map<Ip, Time> {
    map ip | ip in ips && now < ips[ip] :: ips[ip]
  }

  function ExpiredAt(s: State, now: Time): State {
    s.(hostnames := (map h | h in s.hostnames :: s.hostnames[h].(ips := Fresh(s.hostnames[h].ips, now))),
       dirty := s.dirty || exists h :: h in s.hostnames && Fresh(s.hostnames[h].ips, now) != s.hostnames[h].ips)
  }

  function Spawned(s: State, q: Query): State {
    s.(queued := s.queued - {q}, pending := s.pending + {q}, tasks := s.tasks + multiset{q})
  }

  function Answered(s: State, t: Tuning, q: Query, outcome: Outcome, now: Time): State {
    var done := s.(pending := s.pending - {q}, tasks := s.tasks - multiset{q});
    if q.host !in s.hostnames then done else
      match outcome
      case Records(ttls) => RecordedAll(done, t, q.host, ttls, now)
      case Failed => done.(queued := done.queued + {q})
  }

  /** Clears the dirty flag and says which snapshot, if any, goes to the owner. */
  function Emitted(s: State): (State, Option<View>) {
    if s.dirty then (s.(dirty := false), Some(ViewOf(s))) else (s, None)
  }

  // ----- the run loop as steps -----------------------------------------------

  datatype Event =
    | Hostnames(hosts: set<string>)
    | TaskDone(query: Query, outcome: Outcome)
    | RefreshTick
    | QueryTick(query: Query)

  /** Queries for A records return IPv4 addresses only, queries for AAAA records IPv6 addresses only. */
  predicate Returns(r: RecordType, ip: Ip) {
    r.A? <==> ip.family.V4?
  }

  predicate Typed(q: Query, outcome: Outcome) {
    outcome.Records? ==> forall ip :: ip in outcome.ttls ==> Returns(q.rtype, ip)
  }

  predicate Enabled(s: State, e: Event) {
    match e
    case TaskDone(q, outcome) => q in s.tasks && Typed(q, outcome)
    case QueryTick(q) => q in s.queued
    case _ => true
  }

  /** One arm of the select, before the snapshot is emitted. */
  function Handled(s: State, t: Tuning, e: Event, now: Time): State {
    match e
    case Hostnames(hosts) => WithHostnames(s, t, hosts, now)
    case TaskDone(q, outcome) => Answered(s, t, q, outcome, now)
    case RefreshTick => ExpiredAt(Refreshed(s, t, now), now)
    case QueryTick(q) => Spawned(s, q)
  }

  function Next(s: State, t: Tuning, e: Event, now: Time): (State, Option<View>) {
    Emitted(Handled(s, t, e, now))
  }

  // ----- snapshots never lag the cache ---------------------------------------

  lemma RefreshKeepsView(s: State, t: Tuning, now: Time)
    ensures ViewOf(Refreshed(s, t, now)) == ViewOf(s)
  {
  }

  lemma ExpiryMarksChange(s: State, now: Time)
    requires !s.dirty
    ensures ExpiredAt(s, now).dirty <==> ViewOf(ExpiredAt(s, now)) != ViewOf(s)
  {
    var r := ExpiredAt(s, now);
    if r.dirty {
      var h :| h in s.hostnames && Fresh(s.hostnames[h].ips, now) != s.hostnames[h].ips;
      assert exists ip :: ip in s.hostnames[h].ips && s.hostnames[h].ips[ip] <= now;
      assert ViewOf(r)[h] != ViewOf(s)[h];
    } else {
      forall h | h in s.hostnames
        ensures r.hostnames[h].ips == s.hostnames[h].ips
      {
        assert Fresh(s.hostnames[h].ips, now) == s.hostnames[h].ips;
      }
    }
  }

  lemma AnswerMarksChange(s: State, t: Tuning, q: Query, outcome: Outcome, now: Time)
    ensures var r := Answered(s, t, q, outcome, now);
            && (r.dirty <==> s.dirty || ViewOf(r) != ViewOf(s))
            && r.hostnames.Keys == s.hostnames.Keys
  {
    var r := Answered(s, t, q, outcome, now);
    if outcome.Records? && q.host in s.hostnames {
      var before, after := s.hostnames[q.host].ips.Keys, r.hostnames[q.host].ips.Keys;
      assert after == before + outcome.ttls.Keys;
      assert ViewOf(s)[q.host] == before && ViewOf(r)[q.host] == after;
      if outcome.ttls.Keys <= before {
        assert after == before;
      }
    }
  }

  /**
    After every step the newest snapshot equals the cache: a hostname update always
    emits, any other step exactly when it changed the view, and what is emitted is
    the view it left.
   */
  lemma NewestSnapshotIsCache(s: State, t: Tuning, e: Event, now: Time)
    requires !s.dirty
    ensures var (s', out) := Next(s, t, e, now);
            && !s'.dirty
            && (out.Some? <==> e.Hostnames? || ViewOf(s') != ViewOf(s))
            && (out.Some? ==> out.value == ViewOf(s'))
            && (e.Hostnames? ==> s'.hostnames.Keys == e.hosts)
            && (!e.Hostnames? ==> s'.hostnames.Keys == s.hostnames.Keys)
  {
    match e
    case Hostnames(_) =>
    case TaskDone(q, outcome) => AnswerMarksChange(s, t, q, outcome, now);
    case RefreshTick =>
      RefreshKeepsView(s, t, now);
      ExpiryMarksChange(Refreshed(s, t, now), now);
    case QueryTick(_) =>
  }

  // ----- query bookkeeping over whole runs -----------------------------------

  /** The actor with the queries answered since their hostname was last registered. */
  datatype History = History(st: State, answered: set<Query>)

  predicate Continues(s: State, e: Event, host: string) {
    host in s.hostnames && (e.Hostnames? ==> host in e.hosts)
  }

  function Track(h: History, t: Tuning, e: Event, now: Time): History {
    var kept := set q | q in h.answered && Continues(h.st, e, q.host);
    var news := if e.TaskDone? && e.outcome.Records? && e.query.host in h.st.hostnames then {e.query} else {};
    History(Next(h.st, t, e, now).0, kept + news)
  }

  /** The query is waiting, in flight, or was answered since registration. */
  predicate Chased(h: History, q: Query) {
    q in h.st.queued || q in h.st.pending || q in h.answered
  }

  ghost predicate QueryInv(h: History, t: Tuning) {
    && h.st.queued !! h.st.pending
    && h.st.tasks == multiset(h.st.pending)
    && (forall q :: q in h.st.queued ==> q.host in h.st.hostnames)
    && (forall q :: q in h.answered ==> q.host in h.st.hostnames)
    && (forall q: Query :: q.host in h.st.hostnames && t.literal(q.host).None? ==> Chased(h, q))
  }

  lemma RefreshChases(h: History, t: Tuning, now: Time)
    requires h.st.queued !! h.st.pending && h.st.tasks == multiset(h.st.pending)
    requires forall q :: q in h.st.queued ==> q.host in h.st.hostnames
    requires forall q :: q in h.answered ==> q.host in h.st.hostnames
    requires forall q: Query :: q.host in h.st.hostnames && t.literal(q.host).None? ==>
               Chased(h, q) || h.st.hostnames[q.host].nextRefreshAt <= now
    ensures QueryInv(h.(st := Refreshed(h.st, t, now)), t)
  {
    var h' := h.(st := Refreshed(h.st, t, now));
    forall q: Query | q.host in h'.st.hostnames && t.literal(q.host).None?
      ensures Chased(h', q)
    {
      if !Chased(h, q) {
        assert q.rtype.A? || q.rtype.AAAA?;
        assert Query(q.host, q.rtype) in DueQueries(h.st, t, now);
      }
    }
  }

  lemma HostnamesKeepQueryInv(h: History, t: Tuning, hosts: set<string>, now: Time)
    requires QueryInv(h, t)
    ensures QueryInv(Track(h, t, Hostnames(hosts), now), t)
  {
    var h' := Track(h, t, Hostnames(hosts), now);
    var l := Literals(Registered(h.st, hosts, now), t, now);
    var g := History(l, h'.answered);
    forall q: Query | q.host in l.hostnames && t.literal(q.host).None?
      ensures Chased(g, q) || l.hostnames[q.host].nextRefreshAt <= now
    {
      assert q.host in h.st.hostnames ==> Chased(h, q);
    }
    RefreshChases(g, t, now);
    assert h'.st == Refreshed(l, t, now).(dirty := false);
  }

  lemma TicksKeepQueryInv(h: History, t: Tuning, e: Event, now: Time)
    requires QueryInv(h, t) && Enabled(h.st, e) && (e.RefreshTick? || e.QueryTick?)
    ensures QueryInv(Track(h, t, e, now), t)
  {
    var h' := Track(h, t, e, now);
    assert h'.answered == h.answered;
    if e.RefreshTick? {
      RefreshChases(h, t, now);
      var f := History(Refreshed(h.st, t, now), h.answered);
      forall q: Query | q.host in h'.st.hostnames && t.literal(q.host).None?
        ensures Chased(h', q)
      {
        assert Chased(f, q);
      }
    } else {
      assert h'.st.tasks == multiset(h'.st.pending);
      forall q: Query | q.host in h'.st.hostnames && t.literal(q.host).None?
        ensures Chased(h', q)
      {
        assert Chased(h, q);
      }
    }
  }

  /** What the end of a task does to the queries; `news` tells whether it brought records for a registered hostname. */
  predicate TaskEnded(h: History, h': History, q: Query, news: bool) {
    && h'.st.pending == h.st.pending - {q} && h'.st.tasks == h.st.tasks - multiset{q}
    && h'.st.hostnames.Keys == h.st.hostnames.Keys
    && h'.st.queued == (if q.host in h.st.hostnames && !news then h.st.queued + {q} else h.st.queued)
    && h'.answered == (if news then h.answered + {q} else h.answered)
    && (news ==> q.host in h.st.hostnames)
  }

  lemma TaskEndedKeepsQueryInv(h: History, h': History, t: Tuning, q: Query, news: bool)
    requires QueryInv(h, t) && q in h.st.tasks && TaskEnded(h, h', q, news)
    ensures QueryInv(h', t)
  {
    assert h'.st.tasks == multiset(h'.st.pending);
    forall x: Query | x.host in h'.st.hostnames && t.literal(x.host).None?
      ensures Chased(h', x)
    {
      assert x.host in h.st.hostnames;
      assert Chased(h, x);
    }
    forall x | x in h'.st.queued || x in h'.answered
      ensures x.host in h'.st.hostnames
    {
      assert x == q || x in h.st.queued || x in h.answered;
    }
  }

  lemma TaskDoneEnds(h: History, t: Tuning, q: Query, outcome: Outcome, now: Time)
    requires QueryInv(h, t) && q in h.st.tasks
    ensures TaskEnded(h, Track(h, t, TaskDone(q, outcome), now), q, outcome.Records? && q.host in h.st.hostnames)
  {
    AnswerMarksChange(h.st, t, q, outcome, now);
    assert (set x | x in h.answered && Continues(h.st, TaskDone(q, outcome), x.host)) == h.answered;
  }

  lemma TaskDoneKeepsQueryInv(h: History, t: Tuning, q: Query, outcome: Outcome, now: Time)
    requires QueryInv(h, t) && q in h.st.tasks
    ensures QueryInv(Track(h, t, TaskDone(q, outcome), now), t)
  {
    TaskDoneEnds(h, t, q, outcome, now);
    TaskEndedKeepsQueryInv(h, Track(h, t, TaskDone(q, outcome), now), t, q, outcome.Records? && q.host in h.st.hostnames);
  }

  /** A run of the actor from its initial state: each event is enabled where it happens. */
  ghost predicate IsRun(states: seq<History>, events: seq<(Event, Time)>, t: Tuning) {
    && |states| == |events| + 1
    && states[0] == History(INIT, {})
    && forall i :: 0 <= i < |events| ==>
         Enabled(states[i].st, events[i].0) && states[i+1] == Track(states[i], t, events[i].0, events[i].1)
  }

  /**
    In every reachable state queued and in-flight queries are disjoint, tasks
    and in-flight queries correspond one to one, queued hostnames are
    registered, and no registered hostname is ever left unasked.
   */
  lemma {:induction false} EveryRunKeepsQueryInv(states: seq<History>, events: seq<(Event, Time)>, t: Tuning, i: nat)
    requires IsRun(states, events, t) && i < |states|
    ensures QueryInv(states[i], t) && !states[i].st.dirty
  {
    if i > 0 {
      EveryRunKeepsQueryInv(states, events, t, i - 1);
      var h, e, now := states[i-1], events[i-1].0, events[i-1].1;
      match e
      case Hostnames(hosts) => HostnamesKeepQueryInv(h, t, hosts, now);
      case TaskDone(q, outcome) => TaskDoneKeepsQueryInv(h, t, q, outcome, now);
      case _ => TicksKeepQueryInv(h, t, e, now);
    }
  }
}
