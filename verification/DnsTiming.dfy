/**
  Refresh spacing and address lifetime (src/dns.rs, src/config.rs), on the
  resolver's own steps, for one hostname, one record type and one address, with
  refresh ticks exactly `refreshInterval` apart and answers on time.
 */
module DnsTiming {
  import opened Base
  import opened Net
  import opened Dns

  /** What is watched: an address every answer to `query` contains, answers taking at most `delay`. */
  datatype Watch = Watch(t: Tuning, query: Query, ip: Ip, delay: Time)

  /** The resolver with the time of its last step and tick, and since when `query` is unanswered. */
  datatype Timed = Timed(st: State, now: Time, lastTick: Time, asked: Option<Time>)

  predicate Unanswered(st: State, q: Query) {
    q in st.queued || q in st.pending
  }

  /** The event may happen at `at`: ticks and answers are not late, and the watched hostname stays registered. */
  predicate OnTime(w: Watch, ts: Timed, e: Event, at: Time) {
    && Enabled(ts.st, e)
    && ts.now <= at <= ts.lastTick + w.t.refreshInterval
    && (e.RefreshTick? ==> at == ts.lastTick + w.t.refreshInterval)
    && (ts.asked.Some? ==> at <= ts.asked.value + w.delay)
    && (e.Hostnames? ==> w.query.host in e.hosts)
    && (e.TaskDone? && e.query == w.query && e.outcome.Records? ==> w.ip in e.outcome.ttls)
  }

  function Step(w: Watch, ts: Timed, e: Event, at: Time): Timed {
    var st := Next(ts.st, w.t, e, at).0;
    Timed(st, at, if e.RefreshTick? then at else ts.lastTick,
          if !Unanswered(st, w.query) then None else if ts.asked.Some? then ts.asked else Some(at))
  }

  /** The hostname was registered, and asked about, at this very moment. */
  predicate JustRegistered(w: Watch, ts: Timed) {
    && w.query.host in ts.st.hostnames && w.t.literal(w.query.host).None?
    && ts.st.hostnames[w.query.host] == HostState(map[], ts.now + w.t.refreshInterval)
    && Unanswered(ts.st, w.query) && ts.asked == Some(ts.now)
    && ts.lastTick <= ts.now <= ts.lastTick + w.t.refreshInterval
  }

  ghost predicate StepsTo(w: Watch, a: Timed, e: (Event, Time), b: Timed) {
    OnTime(w, a, e.0, e.1) && b == Step(w, a, e.0, e.1)
  }

  ghost predicate IsRun(w: Watch, run: seq<Timed>, events: seq<(Event, Time)>) {
    && |run| == |events| + 1
    && JustRegistered(w, run[0])
    && forall i :: 0 <= i < |events| ==> StepsTo(w, run[i], events[i], run[i+1])
  }

  predicate Alive(w: Watch, ts: Timed) {
    w.query.host in ts.st.hostnames && w.ip in ts.st.hostnames[w.query.host].ips
  }

  // ----- one hostname through each handler ------------------------------------------

  lemma {:induction false} HostAfter(w: Watch, st: State, e: Event, at: Time)
    requires w.query.host in st.hostnames && w.t.literal(w.query.host).None? && Enabled(st, e)
    requires e.Hostnames? ==> w.query.host in e.hosts
    ensures var h, st' := w.query.host, Next(st, w.t, e, at).0; var x := st.hostnames[h];
            && h in st'.hostnames
            && st'.hostnames[h] ==
                 match e
                 case Hostnames(_) => RefreshedHost(w.t, h, x, at)
                 case RefreshTick => RefreshedHost(w.t, h, x, at).(ips := Fresh(x.ips, at))
                 case TaskDone(q, Records(ttls)) => if q.host == h then x.(ips := Renewed(w.t, x.ips, ttls, at)) else x
                 case _ => x
  {
  }

  lemma OnlyAnswersSettle(w: Watch, st: State, e: Event, at: Time)
    requires w.query.host in st.hostnames && Enabled(st, e) && (e.Hostnames? ==> w.query.host in e.hosts)
    requires Unanswered(st, w.query) && !Unanswered(Next(st, w.t, e, at).0, w.query)
    ensures e.TaskDone? && e.query == w.query && e.outcome.Records?
  {
  }

  /** A refresh leaves the query waiting or in flight. */
  lemma RefreshAsks(w: Watch, st: State, e: Event, at: Time)
    requires w.query.host in st.hostnames && w.t.literal(w.query.host).None? && Enabled(st, e)
    requires e.Hostnames? ==> w.query.host in e.hosts
    requires (e.Hostnames? || e.RefreshTick?) && Due(w.t, w.query.host, st.hostnames[w.query.host], at)
    ensures Unanswered(Next(st, w.t, e, at).0, w.query)
  {
    var q := w.query;
    assert q.rtype.A? || q.rtype.AAAA?;
    var base := if e.Hostnames? then Literals(Registered(st, e.hosts, at), w.t, at) else st;
    assert Query(q.host, q.rtype) in DueQueries(base, w.t, at);
    assert Unanswered(Refreshed(base, w.t, at), q);
  }

  // ----- ticks ------------------------------------------------------------------------

  /** The last of the times `from`, `from + r`, `from + 2 * r`, ... that is not after `until`. */
  function LastTick(r: Time, from: Time, until: Time): (t: Time)
    requires r > 0 && from <= until
    ensures from <= t <= until < t + r
    decreases until - from
  {
    if until < from + r then from else LastTick(r, from + r, until)
  }

  lemma {:induction false} LastTickShifts(r: Time, from: Time, until: Time, d: Time)
    requires r > 0 && from <= until
    ensures LastTick(r, from + d, until + d) == LastTick(r, from, until) + d
    decreases until - from
  {
    if until >= from + r {
      LastTickShifts(r, from + r, until, d);
    }
  }

  lemma {:induction false} LastTickGrows(r: Time, from: Time, u: Time, v: Time)
    requires r > 0 && from <= u <= v
    ensures LastTick(r, from, u) <= LastTick(r, from, v)
    decreases u - from
  {
    if u >= from + r {
      LastTickGrows(r, from + r, u, v);
    }
  }

  lemma NearMultiple(r: int, x: int)
    requires -r < r * x < r
    ensures x == 0
  {
  }

  lemma OneLess(r: Time, v: Time)
    requires 0 < r <= v
    ensures (v / r) * r == ((v - r) / r) * r + r
  {
    var q, p := v / r, (v - r) / r;
    assert v == r * q + v % r && v - r == r * p + (v - r) % r;
    assert r * (q - p - 1) == (v - r) % r - v % r;
    NearMultiple(r, q - p - 1);
  }

  lemma {:induction false} LastTickIsRounded(r: Time, v: Time)
    requires r > 0
    ensures LastTick(r, 0, v) == (v / r) * r
    decreases v
  {
    if v >= r {
      LastTickIsRounded(r, v - r);
      LastTickShifts(r, 0, v - r, r);
      OneLess(r, v);
    }
  }

  // ----- pace: spacing of refreshes, whatever the TTL floor ------------------------------

  ghost predicate Paced(w: Watch, ts: Timed) {
    && w.query.host in ts.st.hostnames && w.t.literal(w.query.host).None?
    && ts.lastTick <= ts.now <= ts.lastTick + w.t.refreshInterval
    && ts.lastTick < ts.st.hostnames[w.query.host].nextRefreshAt <= ts.now + w.t.refreshInterval
    && (ts.asked.Some? <==> Unanswered(ts.st, w.query))
    && (ts.asked.Some? ==> ts.asked.value <= ts.now <= ts.asked.value + w.delay)
  }

  lemma StepKeepsPace(w: Watch, ts: Timed, e: Event, at: Time)
    requires w.t.refreshInterval > 0 && Paced(w, ts) && OnTime(w, ts, e, at)
    ensures Paced(w, Step(w, ts, e, at))
  {
    HostAfter(w, ts.st, e, at);
  }

  /** In every run the next refresh lies ahead of the last tick and at most one interval ahead of now. */
  lemma {:induction false} EveryRunIsPaced(w: Watch, run: seq<Timed>, events: seq<(Event, Time)>, i: nat)
    requires w.t.refreshInterval > 0 && IsRun(w, run, events) && i < |run|
    ensures Paced(w, run[i])
  {
    if i > 0 {
      EveryRunIsPaced(w, run, events, i - 1);
      assert StepsTo(w, run[i - 1], events[i - 1], run[i - 1 + 1]);
      StepKeepsPace(w, run[i - 1], events[i - 1].0, events[i - 1].1);
    }
  }

  /** Step `i` of the run refreshes the hostname: it moves the next refresh. */
  ghost predicate Refreshes(w: Watch, run: seq<Timed>, i: nat) {
    && i + 1 < |run| && w.query.host in run[i].st.hostnames && w.query.host in run[i + 1].st.hostnames
    && run[i + 1].st.hostnames[w.query.host].nextRefreshAt != run[i].st.hostnames[w.query.host].nextRefreshAt
  }

  lemma RefreshMovesOn(w: Watch, run: seq<Timed>, events: seq<(Event, Time)>, i: nat)
    requires w.t.refreshInterval > 0 && IsRun(w, run, events) && Refreshes(w, run, i)
    ensures var h, r := w.query.host, w.t.refreshInterval; var due := run[i].st.hostnames[h].nextRefreshAt;
            && run[i + 1].st.hostnames[h].nextRefreshAt == events[i].1 + r
            && due <= events[i].1 < due + r
  {
    EveryRunIsPaced(w, run, events, i);
    assert StepsTo(w, run[i], events[i], run[i + 1]);
    HostAfter(w, run[i].st, events[i].0, events[i].1);
  }

  lemma {:induction false} NoRefreshKeepsDue(w: Watch, run: seq<Timed>, events: seq<(Event, Time)>, i: nat, j: nat)
    requires w.t.refreshInterval > 0 && IsRun(w, run, events) && i <= j < |run|
    requires forall k :: i <= k < j ==> !Refreshes(w, run, k)
    ensures w.query.host in run[i].st.hostnames && w.query.host in run[j].st.hostnames
    ensures run[j].st.hostnames[w.query.host].nextRefreshAt == run[i].st.hostnames[w.query.host].nextRefreshAt
    decreases j
  {
    EveryRunIsPaced(w, run, events, i);
    EveryRunIsPaced(w, run, events, j);
    if i < j {
      NoRefreshKeepsDue(w, run, events, i, j - 1);
      assert !Refreshes(w, run, j - 1);
    }
  }

  /** In every run, two refreshes of a hostname with none between are at least one interval and less than two apart. */
  lemma RefreshesOneToTwoIntervalsApart(w: Watch, run: seq<Timed>, events: seq<(Event, Time)>, i: nat, j: nat)
    requires w.t.refreshInterval > 0 && IsRun(w, run, events) && i < j
    requires Refreshes(w, run, i) && Refreshes(w, run, j) && forall k :: i < k < j ==> !Refreshes(w, run, k)
    ensures w.t.refreshInterval <= events[j].1 - events[i].1 < 2 * w.t.refreshInterval
  {
    RefreshMovesOn(w, run, events, i);
    NoRefreshKeepsDue(w, run, events, i + 1, j);
    RefreshMovesOn(w, run, events, j);
  }

  /** In every run, less than two intervals have passed since the registration or the latest refresh. */
  lemma RefreshNeverOverdue(w: Watch, run: seq<Timed>, events: seq<(Event, Time)>, i: nat, j: nat)
    requires w.t.refreshInterval > 0 && IsRun(w, run, events) && i <= j < |run|
    requires i == 0 || Refreshes(w, run, i - 1)
    requires forall k :: i <= k < j ==> !Refreshes(w, run, k)
    ensures run[j].now - run[i].now < 2 * w.t.refreshInterval
  {
    EveryRunIsPaced(w, run, events, j);
    NoRefreshKeepsDue(w, run, events, i, j);
    if i > 0 {
      RefreshMovesOn(w, run, events, i - 1);
      assert StepsTo(w, run[i - 1], events[i - 1], run[i - 1 + 1]);
    }
  }

  // ----- lifetime ---------------------------------------------------------------------

  /** The floor on TTLs covers two refresh intervals and the whole intervals an answer may take. */
  predicate LongEnough(w: Watch) {
    var r := w.t.refreshInterval;
    r > 0 && w.t.minTtl >= 2 * r + (w.delay / r) * r
  }

  /** The last tick that can come before the answer that is due. */
  function Horizon(w: Watch, ts: Timed): Time
    requires w.t.refreshInterval > 0 && ts.asked.Some? && ts.lastTick <= ts.asked.value + w.delay
  {
    LastTick(w.t.refreshInterval, ts.lastTick, ts.asked.value + w.delay)
  }

  /** No tick that comes before the next answer finds the address expired. */
  ghost predicate Outlasts(w: Watch, ts: Timed)
    requires w.t.refreshInterval > 0 && Paced(w, ts) && Alive(w, ts)
  {
    var x, r := ts.st.hostnames[w.query.host], w.t.refreshInterval;
    match ts.asked
    case None => x.ips[w.ip] + r >= x.nextRefreshAt + w.t.minTtl
    case Some(_) => Horizon(w, ts) == ts.lastTick || x.ips[w.ip] > Horizon(w, ts)
  }

  /** An answer asked for at `asked` comes before the tick `r` after the rounded delay, counted from the tick after `asked`. */
  lemma {:induction false} HorizonBound(w: Watch, lastTick: Time, asked: Time)
    requires w.t.refreshInterval > 0 && lastTick <= asked <= lastTick + w.t.refreshInterval
    ensures var r := w.t.refreshInterval; var whole := (w.delay / r) * r;
            && LastTick(r, lastTick, asked + w.delay) <= lastTick + r + whole
            && (asked == lastTick ==> LastTick(r, lastTick, asked + w.delay) == lastTick + whole)
            && w.delay < whole + r
  {
    var r := w.t.refreshInterval;
    LastTickIsRounded(r, w.delay);
    LastTickShifts(r, 0, w.delay, lastTick);
    LastTickShifts(r, 0, w.delay, lastTick + r);
    LastTickGrows(r, lastTick, asked + w.delay, lastTick + r + w.delay);
  }

  /** A record that brings the address outlasts what is asked, whenever it comes. */
  lemma {:induction false} RecordOutlasts(w: Watch, ts: Timed)
    requires LongEnough(w) && Paced(w, ts) && Alive(w, ts)
    requires ts.st.hostnames[w.query.host].ips[w.ip] >= ts.now + w.t.minTtl
    ensures Outlasts(w, ts)
  {
    HorizonBound(w, ts.lastTick, ts.lastTick);
  }

  /** Asking again outlasts: the refresh was due, so the address has the whole floor left but two intervals. */
  lemma {:induction false} AskOutlasts(w: Watch, ts: Timed, due: Time)
    requires LongEnough(w) && Paced(w, ts) && Alive(w, ts) && ts.asked == Some(ts.now)
    requires ts.st.hostnames[w.query.host].ips[w.ip] + w.t.refreshInterval >= due + w.t.minTtl
    requires due + w.t.refreshInterval > ts.now && (ts.now == ts.lastTick || due > ts.lastTick)
    ensures Outlasts(w, ts)
  {
    HorizonBound(w, ts.lastTick, ts.now);
  }

  lemma {:induction false} TickKeepsHorizon(w: Watch, ts: Timed, ts': Timed)
    requires w.t.refreshInterval > 0 && Paced(w, ts) && Paced(w, ts') && Alive(w, ts) && Alive(w, ts') && Outlasts(w, ts)
    requires ts.asked.Some? && ts'.asked == ts.asked
    requires ts'.lastTick == ts.lastTick || ts'.lastTick == ts.lastTick + w.t.refreshInterval
    requires ts'.st.hostnames[w.query.host].ips[w.ip] == ts.st.hostnames[w.query.host].ips[w.ip]
    ensures Outlasts(w, ts')
  {
  }

  /** What a step does to a known address: it is renewed, kept, or expired by a tick. */
  lemma {:induction false} AddressAfter(w: Watch, ts: Timed, e: Event, at: Time)
    requires w.t.refreshInterval > 0 && Paced(w, ts) && OnTime(w, ts, e, at)
    ensures var h, ts' := w.query.host, Step(w, ts, e, at);
            && h in ts'.st.hostnames
            && (Alive(w, ts) && !Alive(w, ts') ==> e.RefreshTick? && ts.st.hostnames[h].ips[w.ip] <= at)
            && (Alive(w, ts') ==>
                  || ts'.st.hostnames[h].ips[w.ip] >= at + w.t.minTtl
                  || (Alive(w, ts) && ts'.st.hostnames[h].ips[w.ip] == ts.st.hostnames[h].ips[w.ip]))
            && (ts.asked.Some? && ts'.asked.None? ==> Alive(w, ts') && ts'.st.hostnames[h].ips[w.ip] >= at + w.t.minTtl)
  {
    HostAfter(w, ts.st, e, at);
    if ts.asked.Some? && Step(w, ts, e, at).asked.None? {
      OnlyAnswersSettle(w, ts.st, e, at);
    }
  }

  /** What a step does when nothing was asked: the next refresh stays where it is, or something is asked now. */
  lemma AskedAfter(w: Watch, ts: Timed, e: Event, at: Time)
    requires w.t.refreshInterval > 0 && Paced(w, ts) && OnTime(w, ts, e, at) && ts.asked.None?
    ensures var h, ts' := w.query.host, Step(w, ts, e, at); var due := ts.st.hostnames[h].nextRefreshAt;
            && h in ts'.st.hostnames
            && (ts'.asked.None? ==> ts'.st.hostnames[h].nextRefreshAt == due)
            && (ts'.asked.Some? ==> ts'.asked == Some(at))
            && due + w.t.refreshInterval > at && (at == ts'.lastTick || due > ts'.lastTick)
  {
    HostAfter(w, ts.st, e, at);
    if (e.Hostnames? || e.RefreshTick?) && Due(w.t, w.query.host, ts.st.hostnames[w.query.host], at) {
      RefreshAsks(w, ts.st, e, at);
    }
  }

  lemma SurvivesTick(w: Watch, ts: Timed, e: Event, at: Time)
    requires LongEnough(w) && Paced(w, ts) && OnTime(w, ts, e, at) && e.RefreshTick?
    requires Alive(w, ts) && Outlasts(w, ts)
    ensures ts.st.hostnames[w.query.host].ips[w.ip] > at
  {
    HorizonBound(w, ts.lastTick, ts.lastTick);
  }

  lemma StepKeepsAlive(w: Watch, ts: Timed, e: Event, at: Time)
    requires LongEnough(w) && Paced(w, ts) && OnTime(w, ts, e, at)
    requires Alive(w, ts) && Outlasts(w, ts)
    ensures Paced(w, Step(w, ts, e, at)) && Alive(w, Step(w, ts, e, at)) && Outlasts(w, Step(w, ts, e, at))
  {
    var ts', h := Step(w, ts, e, at), w.query.host;
    StepKeepsPace(w, ts, e, at);
    AddressAfter(w, ts, e, at);
    if ts.asked.None? {
      AskedAfter(w, ts, e, at);
    }
    if e.RefreshTick? {
      SurvivesTick(w, ts, e, at);
    }
    if ts'.st.hostnames[h].ips[w.ip] >= at + w.t.minTtl {
      RecordOutlasts(w, ts');
    } else if ts.asked.Some? {
      TickKeepsHorizon(w, ts, ts');
    } else if ts'.asked.Some? {
      AskOutlasts(w, ts', ts.st.hostnames[h].nextRefreshAt);
    }
  }

  ghost predicate Settled(w: Watch, ts: Timed)
    requires w.t.refreshInterval > 0 && Paced(w, ts)
  {
    (Alive(w, ts) ==> Outlasts(w, ts)) && (ts.asked.None? ==> Alive(w, ts))
  }

  lemma StepSettles(w: Watch, ts: Timed, e: Event, at: Time)
    requires LongEnough(w) && Paced(w, ts) && Settled(w, ts) && OnTime(w, ts, e, at)
    ensures Paced(w, Step(w, ts, e, at)) && Settled(w, Step(w, ts, e, at))
    ensures Alive(w, ts) ==> Alive(w, Step(w, ts, e, at))
  {
    if Alive(w, ts) {
      StepKeepsAlive(w, ts, e, at);
    } else {
      StepKeepsPace(w, ts, e, at);
      AddressAfter(w, ts, e, at);
      if Alive(w, Step(w, ts, e, at)) {
        RecordOutlasts(w, Step(w, ts, e, at));
      }
    }
  }

  lemma {:induction false} FollowingSettles(w: Watch, a: Timed, e: (Event, Time), b: Timed)
    requires LongEnough(w) && Paced(w, a) && Settled(w, a) && StepsTo(w, a, e, b)
    ensures Paced(w, b) && Settled(w, b) && (Alive(w, a) ==> Alive(w, b))
  {
    StepSettles(w, a, e.0, e.1);
  }

  /** With a long enough floor, in every run a known address outlasts every tick before its next answer. */
  lemma {:induction false} EveryRunIsSettled(w: Watch, run: seq<Timed>, events: seq<(Event, Time)>, i: nat)
    requires LongEnough(w) && IsRun(w, run, events) && i < |run|
    ensures Paced(w, run[i]) && Settled(w, run[i])
  {
    if i > 0 {
      EveryRunIsSettled(w, run, events, i - 1);
      assert StepsTo(w, run[i - 1], events[i - 1], run[i - 1 + 1]);
      FollowingSettles(w, run[i - 1], events[i - 1], run[i]);
    }
  }

  lemma {:induction false} RunStepKeepsAlive(w: Watch, run: seq<Timed>, events: seq<(Event, Time)>, k: nat)
    requires LongEnough(w) && IsRun(w, run, events) && k < |events| && Alive(w, run[k])
    ensures Alive(w, run[k + 1])
  {
    EveryRunIsSettled(w, run, events, k);
    assert StepsTo(w, run[k], events[k], run[k + 1]);
    FollowingSettles(w, run[k], events[k], run[k + 1]);
  }

  lemma {:induction false} AnsweredIsAlive(w: Watch, run: seq<Timed>, events: seq<(Event, Time)>, i: nat)
    requires LongEnough(w) && IsRun(w, run, events) && i < |run| && run[i].asked.None?
    ensures Alive(w, run[i])
  {
    EveryRunIsSettled(w, run, events, i);
  }

  /**
    An address present in every answer is known as soon as nothing is
    unanswered, and from then on never expires.
   */
  lemma {:induction false} StableAddressNeverExpires(w: Watch, run: seq<Timed>, events: seq<(Event, Time)>, i: nat, j: nat)
    requires LongEnough(w) && IsRun(w, run, events) && i <= j < |run|
    requires Alive(w, run[i]) || run[i].asked.None?
    ensures Alive(w, run[j])
    decreases j
  {
    if i < j {
      StableAddressNeverExpires(w, run, events, i, j - 1);
      RunStepKeepsAlive(w, run, events, j - 1);
    } else if run[i].asked.None? {
      AnsweredIsAlive(w, run, events, i);
    }
  }

  // ----- the bound is the right one ----------------------------------------------------

  /** The hostname is asked about, and its queries can return the address. */
  predicate Askable(w: Watch) {
    w.t.refreshInterval > 0 && w.t.literal(w.query.host).None? && Returns(w.query.rtype, w.ip)
  }

  /** The resolver just after its only hostname was registered, at time 1. */
  function Registration(w: Watch): Timed {
    Timed(Next(INIT, w.t, Hostnames({w.query.host}), 1).0, 1, 0, Some(1))
  }

  lemma RegistrationAsks(w: Watch)
    requires Askable(w)
    ensures JustRegistered(w, Registration(w)) && w.query in Registration(w).st.queued && Registration(w).st.pending == {}
  {
    var q := w.query;
    assert q.rtype.A? || q.rtype.AAAA?;
    var base := Literals(Registered(INIT, {q.host}, 1), w.t, 1);
    assert Query(q.host, q.rtype) in DueQueries(base, w.t, 1);
  }

  function Answer(w: Watch): Event {
    TaskDone(w.query, Records(map[w.ip := 0]))
  }

  /** The query is in flight, nothing is known yet. */
  ghost predicate InFlight(w: Watch, ts: Timed) {
    var q := w.query;
    && ts.now == 1 && ts.lastTick == 0 && ts.asked == Some(1) && q in ts.st.tasks && q in ts.st.pending && q !in ts.st.queued
    && q.host in ts.st.hostnames && ts.st.hostnames[q.host] == HostState(map[], 1 + w.t.refreshInterval)
  }

  lemma {:induction false} SentAtOnce(w: Watch)
    requires Askable(w)
    ensures var t0 := Registration(w);
            OnTime(w, t0, QueryTick(w.query), 1) && InFlight(w, Step(w, t0, QueryTick(w.query), 1))
  {
    RegistrationAsks(w);
    HostAfter(w, Registration(w).st, QueryTick(w.query), 1);
  }

  lemma {:induction false} AnsweredAtOnce(w: Watch, ts: Timed)
    requires Askable(w) && InFlight(w, ts)
    ensures OnTime(w, ts, Answer(w), 1) && FreshlyAnswered(w, Step(w, ts, Answer(w), 1))
  {
    HostAfter(w, ts.st, Answer(w), 1);
    assert Renewed(w.t, map[], map[w.ip := 0], 1) == map[w.ip := 1 + w.t.minTtl];
  }

  lemma Continue(w: Watch, run: seq<Timed>, events: seq<(Event, Time)>, e: (Event, Time), next: Timed)
    requires IsRun(w, run, events) && StepsTo(w, run[|run|-1], e, next)
    ensures IsRun(w, run + [next], events + [e])
  {
  }

  ghost predicate FreshlyAnswered(w: Watch, ts: Timed) {
    var r, h := w.t.refreshInterval, w.query.host;
    && ts.now == 1 && ts.lastTick == 0 && ts.asked.None? && !Unanswered(ts.st, w.query)
    && h in ts.st.hostnames && ts.st.hostnames[h] == HostState(map[w.ip := 1 + w.t.minTtl], 1 + r)
  }

  lemma AnsweredRun(w: Watch) returns (run: seq<Timed>, events: seq<(Event, Time)>)
    requires Askable(w)
    ensures IsRun(w, run, events) && |run| == 3 && FreshlyAnswered(w, run[2])
  {
    RegistrationAsks(w);
    SentAtOnce(w);
    var t0 := Registration(w);
    var t1 := Step(w, t0, QueryTick(w.query), 1);
    AnsweredAtOnce(w, t1);
    var t2 := Step(w, t1, Answer(w), 1);
    Continue(w, [t0], [], (QueryTick(w.query), 1), t1);
    run, events := [t0] + [t1], [] + [(QueryTick(w.query), 1)];
    Continue(w, run, events, (Answer(w), 1), t2);
    run, events := run + [t2], events + [(Answer(w), 1)];
  }

  /** The address was answered at time 1; ticks have gone by, and the one at `2 * r` asked again without an answer. */
  ghost predicate Waiting(w: Watch, ts: Timed, k: nat) {
    var r, h := w.t.refreshInterval, w.query.host;
    && ts.now == k * r && ts.lastTick == k * r && h in ts.st.hostnames
    && (k < 2 ==> ts.asked.None? && ts.st.hostnames[h].nextRefreshAt == 1 + r)
    && (k >= 2 ==> ts.asked == Some(2 * r) && Unanswered(ts.st, w.query))
    && (Alive(w, ts) ==> k * r < ts.st.hostnames[h].ips[w.ip] == 1 + w.t.minTtl)
  }

  lemma NextMultiple(r: Time, k: nat)
    ensures (k + 1) * r == k * r + r
  {
  }

  lemma MultipleInTime(r: Time, k: nat, delay: Time)
    requires r > 0 && 2 <= k + 1 <= 2 + delay / r
    ensures (k + 1) * r <= 2 * r + delay
  {
    var q := delay / r;
    assert q * r <= delay;
    assert (2 + q - (k + 1)) * r >= 0;
    assert (k + 1) * r + (2 + q - (k + 1)) * r == 2 * r + q * r;
  }

  lemma FirstTick(w: Watch, ts: Timed)
    requires Askable(w) && FreshlyAnswered(w, ts)
    ensures var r := w.t.refreshInterval; OnTime(w, ts, RefreshTick, r) && Waiting(w, Step(w, ts, RefreshTick, r), 1)
  {
    var r := w.t.refreshInterval;
    HostAfter(w, ts.st, RefreshTick, r);
    assert w.query !in DueQueries(ts.st, w.t, r);
  }

  lemma LaterTick(w: Watch, ts: Timed, k: nat)
    requires Askable(w)
    requires 1 <= k < 2 + w.delay / w.t.refreshInterval && Waiting(w, ts, k)
    ensures var at := (k + 1) * w.t.refreshInterval;
            OnTime(w, ts, RefreshTick, at) && Waiting(w, Step(w, ts, RefreshTick, at), k + 1)
  {
    var r := w.t.refreshInterval;
    NextMultiple(r, k);
    if k >= 2 {
      MultipleInTime(r, k, w.delay);
    }
    HostAfter(w, ts.st, RefreshTick, (k + 1) * r);
    if k == 1 {
      RefreshAsks(w, ts.st, RefreshTick, 2 * r);
    }
  }

  lemma {:induction false} WaitingRun(w: Watch, k: nat) returns (run: seq<Timed>, events: seq<(Event, Time)>)
    requires Askable(w) && 1 <= k <= 2 + w.delay / w.t.refreshInterval
    ensures IsRun(w, run, events) && |run| == 3 + k && Alive(w, run[2]) && Waiting(w, run[|run| - 1], k)
  {
    var r := w.t.refreshInterval;
    if k == 1 {
      run, events := AnsweredRun(w);
      FirstTick(w, run[2]);
    } else {
      run, events := WaitingRun(w, k - 1);
      LaterTick(w, run[|run| - 1], k - 1);
    }
    var next := Step(w, run[|run| - 1], RefreshTick, k * r);
    Continue(w, run, events, (RefreshTick, k * r), next);
    run, events := run + [next], events + [(RefreshTick, k * r)];
  }

  lemma WaitingTooLong(w: Watch, ts: Timed)
    requires w.t.refreshInterval > 0 && !LongEnough(w) && Waiting(w, ts, 2 + w.delay / w.t.refreshInterval)
    ensures !Alive(w, ts)
  {
    var r, d := w.t.refreshInterval, w.delay / w.t.refreshInterval;
    assert (2 + d) * r == 2 * r + d * r;
  }

  /**
    Below the bound the address is lost in some run: registered and answered one
    instant after a refresh tick, asked for again at the second tick after, and
    gone at the last tick the slowest answer may wait for.
   */
  lemma ShorterFloorLosesAddress(w: Watch) returns (run: seq<Timed>, events: seq<(Event, Time)>)
    requires Askable(w) && !LongEnough(w)
    ensures IsRun(w, run, events) && |run| > 2 && Alive(w, run[2]) && !Alive(w, run[|run| - 1])
  {
    run, events := WaitingRun(w, 2 + w.delay / w.t.refreshInterval);
    WaitingTooLong(w, run[|run| - 1]);
  }

  /** No run loses the address once it is known. */
  ghost predicate NeverLost(w: Watch) {
    forall run: seq<Timed>, events: seq<(Event, Time)>, i: nat, j: nat ::
      IsRun(w, run, events) && i <= j < |run| && Alive(w, run[i]) ==> Alive(w, run[j])
  }

  /** The exact condition, for every interval, delay and floor. */
  lemma NeverLostIffLongEnough(w: Watch)
    requires Askable(w)
    ensures NeverLost(w) <==> LongEnough(w)
  {
    if LongEnough(w) {
      forall run: seq<Timed>, events: seq<(Event, Time)>, i: nat, j: nat
        | IsRun(w, run, events) && i <= j < |run| && Alive(w, run[i])
        ensures Alive(w, run[j])
      {
        StableAddressNeverExpires(w, run, events, i, j);
      }
    } else {
      var run, events := ShorterFloorLosesAddress(w);
      assert IsRun(w, run, events) && Alive(w, run[2]) && !Alive(w, run[|run| - 1]);
    }
  }

  /** The floor the configuration recommends, two intervals, is right exactly when answers take less than one interval. */
  lemma RecommendedFloorIffFastAnswers(w: Watch)
    requires Askable(w) && w.t.minTtl == 2 * w.t.refreshInterval
    ensures NeverLost(w) <==> w.delay < w.t.refreshInterval
  {
    var r := w.t.refreshInterval;
    NeverLostIffLongEnough(w);
    LastTickIsRounded(r, w.delay);
  }
}
