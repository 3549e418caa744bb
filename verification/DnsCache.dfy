/** Which addresses the resolver knows, from the answers it got and when its ticks came (src/dns.rs). */
module DnsCache {
  import opened Base
  import opened Net
  import opened Dns

  // ----- one address of one host ------------------------------------------------------------------

  /**
    What a step is to one address of one host: it records the address for some
    seconds, drops the host, is a tick, or has nothing to do with it.
   */
  datatype Act = Record(seconds: nat) | Drop | Tick | Nothing

  datatype TimedAct = At(act: Act, now: Time)

  /** When the address expires, before a step and after it. */
  predicate Moves(x: Option<Time>, a: TimedAct, x': Option<Time>, floor: Time) {
    match a.act
    case Record(n) => x' == Some(a.now + Max(n * SECOND, floor))
    case Drop => x' == None
    case Tick => x' == if x.Some? && x.value <= a.now then None else x
    case Nothing => x' == x
  }

  ghost predicate Along(acts: seq<TimedAct>, xs: seq<Option<Time>>, floor: Time) {
    |xs| == |acts| + 1 && xs[0] == None && forall m :: 0 <= m < |acts| ==> Moves(xs[m], acts[m], xs[m + 1], floor)
  }

  /** The act does not end a record made at `at`: a tick comes within its seconds or within the floor. */
  predicate Spares(a: TimedAct, at: Time, seconds: nat, floor: Time) {
    !a.act.Record? && !a.act.Drop? && (a.act.Tick? ==> a.now < at + seconds * 1_000_000_000 || a.now < at + floor)
  }

  /** Act `j` is a record, and every later one before `k` spares it. */
  ghost predicate Alive(acts: seq<TimedAct>, floor: Time, j: nat, k: nat) {
    && j < k <= |acts| && acts[j].act.Record?
    && forall m :: j < m < k ==> Spares(acts[m], acts[j].now, acts[j].act.seconds, floor)
  }

  lemma {:induction false} AliveIsCached(acts: seq<TimedAct>, xs: seq<Option<Time>>, floor: Time, j: nat, k: nat)
    requires Along(acts, xs, floor) && Alive(acts, floor, j, k)
    ensures xs[k] == Some(acts[j].now + Max(acts[j].act.seconds * SECOND, floor))
    decreases k
  {
    assert Moves(xs[k - 1], acts[k - 1], xs[k - 1 + 1], floor);
    if j < k - 1 {
      AliveIsCached(acts, xs, floor, j, k - 1);
      assert Spares(acts[k - 1], acts[j].now, acts[j].act.seconds, floor);
    }
  }

  lemma {:induction false} CachedIsAlive(acts: seq<TimedAct>, xs: seq<Option<Time>>, floor: Time, k: nat) returns (j: nat)
    requires Along(acts, xs, floor) && k <= |acts| && xs[k].Some?
    ensures Alive(acts, floor, j, k)
    decreases k
  {
    assert Moves(xs[k - 1], acts[k - 1], xs[k - 1 + 1], floor);
    if acts[k - 1].act.Record? {
      j := k - 1;
    } else {
      j := CachedIsAlive(acts, xs, floor, k - 1);
      AliveIsCached(acts, xs, floor, j, k - 1);
      assert Spares(acts[k - 1], acts[j].now, acts[j].act.seconds, floor);
    }
  }

  // ----- the steps of a run -----------------------------------------------------------------------

  /** IP literals live for u32::MAX seconds after a hostname update. */
  const FOREVER: nat := 4_294_967_295

  function ActOf(st: State, e: Event, t: Tuning, host: string, ip: Ip): Act {
    match e
    case TaskDone(q, Records(ttls)) => if q.host == host && ip in ttls && host in st.hostnames then Record(ttls[ip]) else Nothing
    case Hostnames(hosts) => if host !in hosts then Drop else if t.literal(host) == Some(ip) then Record(FOREVER) else Nothing
    case RefreshTick => Tick
    case _ => Nothing
  }

  /** A run as one address of one host sees it. */
  ghost function Acts(states: seq<History>, events: seq<(Event, Time)>, t: Tuning, host: string, ip: Ip): seq<TimedAct>
    requires |events| <= |states|
  {
    seq(|events|, m requires 0 <= m < |events| => At(ActOf(states[m].st, events[m].0, t, host, ip), events[m].1))
  }

  /** When the address expires for the host, if it is in the cache. */
  function ExpiryOf(st: State, host: string, ip: Ip): Option<Time> {
    if host in st.hostnames && ip in st.hostnames[host].ips then Some(st.hostnames[host].ips[ip]) else None
  }

  lemma AnswerOnAddress(st: State, t: Tuning, q: Query, outcome: Outcome, now: Time, host: string, ip: Ip)
    ensures ExpiryOf(Next(st, t, TaskDone(q, outcome), now).0, host, ip) ==
              if q.host == host && outcome.Records? && ip in outcome.ttls && host in st.hostnames
              then Some(now + Max(outcome.ttls[ip] * SECOND, t.minTtl)) else ExpiryOf(st, host, ip)
  {
  }

  lemma HostnamesOnAddress(st: State, t: Tuning, hosts: set<string>, now: Time, host: string, ip: Ip)
    ensures ExpiryOf(Next(st, t, Hostnames(hosts), now).0, host, ip) ==
              if host in hosts && t.literal(host) == Some(ip) then Some(now + Max(FOREVER * SECOND, t.minTtl))
              else if host in hosts then ExpiryOf(st, host, ip) else None
  {
  }

  lemma TickOnAddress(st: State, t: Tuning, now: Time, host: string, ip: Ip)
    ensures ExpiryOf(Next(st, t, RefreshTick, now).0, host, ip) ==
              var x := ExpiryOf(st, host, ip); if x.Some? && x.value <= now then None else x
  {
  }

  /** What one event does to the expiry of one address. */
  ghost predicate EventMoves(st: State, t: Tuning, e: Event, now: Time, host: string, ip: Ip) {
    Moves(ExpiryOf(st, host, ip), At(ActOf(st, e, t, host, ip), now), ExpiryOf(Next(st, t, e, now).0, host, ip), t.minTtl)
  }

  lemma {:induction false} AnswerMoves(st: State, t: Tuning, e: Event, now: Time, host: string, ip: Ip)
    requires e.TaskDone?
    ensures EventMoves(st, t, e, now, host, ip)
  {
    AnswerOnAddress(st, t, e.query, e.outcome, now, host, ip);
  }

  lemma {:induction false} HostnamesMove(st: State, t: Tuning, e: Event, now: Time, host: string, ip: Ip)
    requires e.Hostnames?
    ensures EventMoves(st, t, e, now, host, ip)
  {
    HostnamesOnAddress(st, t, e.hosts, now, host, ip);
  }

  lemma {:induction false} TicksMove(st: State, t: Tuning, e: Event, now: Time, host: string, ip: Ip)
    requires e.RefreshTick? || e.QueryTick?
    ensures EventMoves(st, t, e, now, host, ip)
  {
    if e.RefreshTick? {
      TickOnAddress(st, t, now, host, ip);
    }
  }

  lemma {:induction false} StepOnAddress(st: State, t: Tuning, e: Event, now: Time, host: string, ip: Ip)
    ensures EventMoves(st, t, e, now, host, ip)
  {
    match e
    case TaskDone(_, _) => AnswerMoves(st, t, e, now, host, ip);
    case Hostnames(_) => HostnamesMove(st, t, e, now, host, ip);
    case _ => TicksMove(st, t, e, now, host, ip);
  }

  ghost function Expiries(states: seq<History>, host: string, ip: Ip): seq<Option<Time>> {
    seq(|states|, m requires 0 <= m < |states| => ExpiryOf(states[m].st, host, ip))
  }

  lemma {:induction false} RunMoves(states: seq<History>, events: seq<(Event, Time)>, t: Tuning, host: string, ip: Ip)
    requires IsRun(states, events, t)
    ensures Along(Acts(states, events, t, host, ip), Expiries(states, host, ip), t.minTtl)
  {
    forall m | 0 <= m < |events|
      ensures Moves(Expiries(states, host, ip)[m], Acts(states, events, t, host, ip)[m], Expiries(states, host, ip)[m + 1], t.minTtl)
    {
      assert states[m + 1] == Track(states[m], t, events[m].0, events[m].1);
      StepOnAddress(states[m].st, t, events[m].0, events[m].1, host, ip);
    }
  }

  /**
    In every run an address is known for a host if and only if some answer, or the
    newest hostname update for an IP literal, recorded it, its host stayed
    registered since, and every tick since then came before the end of its
    lifetime or of the TTL floor, counted from the newest such record.
   */
  lemma {:induction false} KnownIffAlive(states: seq<History>, events: seq<(Event, Time)>, t: Tuning, host: string, ip: Ip, k: nat)
    requires IsRun(states, events, t) && k <= |events|
    ensures (host in ViewOf(states[k].st) && ip in ViewOf(states[k].st)[host]) <==>
              exists j: nat :: Alive(Acts(states, events, t, host, ip), t.minTtl, j, k)
  {
    RunMoves(states, events, t, host, ip);
    var acts, xs := Acts(states, events, t, host, ip), Expiries(states, host, ip);
    if xs[k].Some? {
      var j := CachedIsAlive(acts, xs, t.minTtl, k);
    }
    if j: nat :| Alive(acts, t.minTtl, j, k) {
      AliveIsCached(acts, xs, t.minTtl, j, k);
    }
  }

  // ----- IP literals ---------------------------------------------------------------------------------

  ghost predicate NoLiteralAsked(st: State, t: Tuning) {
    forall q: Query :: q in st.queued || q in st.pending || q in st.tasks ==> t.literal(q.host).None?
  }

  lemma RefreshAsksNoLiteral(st: State, t: Tuning, now: Time)
    requires NoLiteralAsked(st, t)
    ensures NoLiteralAsked(Refreshed(st, t, now), t)
  {
  }

  lemma {:induction false} HostnamesAskNoLiteral(st: State, t: Tuning, hosts: set<string>, now: Time)
    requires NoLiteralAsked(st, t)
    ensures NoLiteralAsked(Next(st, t, Hostnames(hosts), now).0, t)
  {
    var l := Literals(Registered(st, hosts, now), t, now);
    assert forall q :: q in l.queued ==> q in st.queued;
    RefreshAsksNoLiteral(l, t, now);
  }

  lemma {:induction false} TurnAsksNoLiteral(st: State, t: Tuning, e: Event, now: Time)
    requires NoLiteralAsked(st, t) && Enabled(st, e) && (e.TaskDone? || e.QueryTick?)
    ensures NoLiteralAsked(Next(st, t, e, now).0, t)
  {
    var st' := Next(st, t, e, now).0;
    assert st'.queued <= st.queued + {e.query} && st'.pending <= st.pending + {e.query} && st'.tasks <= st.tasks + multiset{e.query};
  }

  lemma {:induction false} StepAsksNoLiteral(st: State, t: Tuning, e: Event, now: Time)
    requires NoLiteralAsked(st, t) && Enabled(st, e)
    ensures NoLiteralAsked(Next(st, t, e, now).0, t)
  {
    match e
    case Hostnames(hosts) => HostnamesAskNoLiteral(st, t, hosts, now);
    case RefreshTick => RefreshAsksNoLiteral(st, t, now);
    case _ => TurnAsksNoLiteral(st, t, e, now);
  }

  /** An IP literal is never asked for. */
  lemma {:induction false} LiteralsAreNeverAsked(states: seq<History>, events: seq<(Event, Time)>, t: Tuning, k: nat)
    requires IsRun(states, events, t) && k < |states|
    ensures NoLiteralAsked(states[k].st, t)
  {
    if k > 0 {
      LiteralsAreNeverAsked(states, events, t, k - 1);
      assert states[k - 1 + 1] == Track(states[k - 1], t, events[k - 1].0, events[k - 1].1);
      StepAsksNoLiteral(states[k - 1].st, t, events[k - 1].0, events[k - 1].1);
    }
  }

  /**
    A hostname that is an IP literal has that address from its newest update on, as
    long as no tick comes u32::MAX seconds after it.
   */
  lemma {:induction false} LiteralStaysKnown(
    states: seq<History>, events: seq<(Event, Time)>, t: Tuning, host: string, ip: Ip, j: nat, k: nat)
    requires IsRun(states, events, t) && j < k <= |events| && t.literal(host) == Some(ip)
    requires events[j].0.Hostnames? && host in events[j].0.hosts
    requires forall m :: j < m < k ==> !events[m].0.Hostnames?
    requires forall m :: j < m < k && events[m].0.RefreshTick? ==> events[m].1 < events[j].1 + FOREVER * 1_000_000_000
    ensures host in ViewOf(states[k].st) && ip in ViewOf(states[k].st)[host]
  {
    var acts := Acts(states, events, t, host, ip);
    forall m | j < m < k
      ensures Spares(acts[m], events[j].1, FOREVER, t.minTtl)
    {
      LiteralsAreNeverAsked(states, events, t, m);
      assert Enabled(states[m].st, events[m].0);
    }
    assert Alive(acts, t.minTtl, j, k);
    KnownIffAlive(states, events, t, host, ip, k);
  }

  lemma {:induction false} LiteralRecordsOne(states: seq<History>, events: seq<(Event, Time)>, t: Tuning, host: string, ip: Ip, j: nat)
    requires IsRun(states, events, t) && j < |events| && t.literal(host).Some? && t.literal(host) != Some(ip)
    ensures !Acts(states, events, t, host, ip)[j].act.Record?
  {
    LiteralsAreNeverAsked(states, events, t, j);
    assert Enabled(states[j].st, events[j].0);
  }

  /** And no other address is ever known for it. */
  lemma {:induction false} LiteralHasOneAddress(states: seq<History>, events: seq<(Event, Time)>, t: Tuning, host: string, ip: Ip, k: nat)
    requires IsRun(states, events, t) && k <= |events| && t.literal(host).Some? && t.literal(host) != Some(ip)
    ensures !(host in ViewOf(states[k].st) && ip in ViewOf(states[k].st)[host])
  {
    forall j: nat | j < |events|
      ensures !Acts(states, events, t, host, ip)[j].act.Record?
    {
      LiteralRecordsOne(states, events, t, host, ip, j);
    }
    KnownIffAlive(states, events, t, host, ip, k);
  }
}
