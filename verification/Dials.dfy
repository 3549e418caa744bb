/** Dial discipline and backoff spacing over runs of the control plane (src/orch.rs). */
module Dials {
  import opened Base
  import opened Net
  import opened Peers
  import opened PeerRules
  import opened Orch
  import opened ControlPlane
  import opened Connections
  import Dns

  // ----- dials that have not been accounted for -----------------------------------

  predicate IsReport(e: Event, k: DialKey) {
    || e == DialFailed(k.peer, k.ip)
    || (e.Connected? && e.conn.endpoint.Some? && e.peer == k.peer && e.conn.dest.ip == k.ip)
  }

  function Reports(inbox: seq<Event>, k: DialKey): nat {
    if inbox == [] then 0 else (if IsReport(inbox[0], k) then 1 else 0) + Reports(inbox[1..], k)
  }

  /** Running tasks and undelivered reports. */
  function Outstanding(s: System, k: DialKey): nat {
    |TasksFor(s.orch.dialing, k)| + Reports(s.inbox, k)
  }

  function DialOf(peers: map<string, PeerEntry>, k: DialKey): Option<DialState> {
    if k.peer in peers && k.ip in peers[k.peer].dials then Some(peers[k.peer].dials[k.ip]) else None
  }

  predicate IsResolved(peers: map<string, PeerEntry>, k: DialKey) {
    k.peer in peers && k.ip in peers[k.peer].resolved
  }

  predicate InFlight(peers: map<string, PeerEntry>, k: DialKey) {
    DialOf(peers, k).Some? && DialOf(peers, k).value.inFlight
  }

  lemma {:induction false} PushReport(inbox: seq<Event>, e: Event, k: DialKey)
    ensures Reports(inbox + [e], k) == Reports(inbox, k) + if IsReport(e, k) then 1 else 0
  {
    if inbox != [] {
      assert (inbox + [e])[1..] == inbox[1..] + [e];
      PushReport(inbox[1..], e, k);
    }
  }

  // ----- one key through each handler -----------------------------------------------

  /** The pass starts a dial for this key. */
  predicate StartsDial(peers: map<string, PeerEntry>, closed: set<Chan>, now: Time, k: DialKey) {
    k.peer in peers && k.ip in ToDial(Pruned(peers[k.peer], closed), now)
  }

  lemma PassEffect(o: Orch.State, closed: set<Chan>, now: Time, k: DialKey)
    ensures var o' := PassAll(o, closed, now);
            && IsResolved(o'.peers, k) == IsResolved(o.peers, k)
            && (StartsDial(o.peers, closed, now, k) ==>
                  && IsResolved(o.peers, k) && !Blocked(o.peers[k.peer], k.ip, now)
                  && DialOf(o'.peers, k) == Some(MarkInFlight(o.peers[k.peer].dials, k.ip, now))
                  && TasksFor(o'.dialing, k) == TasksFor(o.dialing, k) + [ConfigEndpoint(o.peers[k.peer].config)])
            && (!StartsDial(o.peers, closed, now, k) ==>
                  && DialOf(o'.peers, k) == (if IsResolved(o.peers, k) then DialOf(o.peers, k) else None)
                  && TasksFor(o'.dialing, k) == TasksFor(o.dialing, k))
  {
    var news := NewDials(o.peers, closed, now);
    assert k in news <==> StartsDial(o.peers, closed, now, k) by {
      if StartsDial(o.peers, closed, now, k) {
        assert DialKey(k.peer, k.ip) in news;
      }
    }
    if k.peer in o.peers {
      var e := Pruned(o.peers[k.peer], closed);
      assert k.ip in e.dials <==> k.ip in o.peers[k.peer].dials && k.ip in o.peers[k.peer].resolved;
    }
  }

  lemma ReconcileEffect(o: Orch.State, closed: set<Chan>, now: Time, k: DialKey)
    ensures var o' := Reconciled(o, closed, now); var q := PassAll(o, closed, now);
            o'.peers == q.peers && o'.dialing == q.dialing
  {
  }

  lemma SnapshotEffect(o: Orch.State, view: Dns.View, closed: set<Chan>, now: Time, k: DialKey)
    ensures var mid := o.(peers := Resolved(o.peers, view));
            && WithSnapshot(o, view, closed, now).peers == PassAll(mid, closed, now).peers
            && WithSnapshot(o, view, closed, now).dialing == PassAll(mid, closed, now).dialing
            && DialOf(mid.peers, k) == DialOf(o.peers, k)
            && (k.peer in o.peers <==> k.peer in mid.peers)
  {
  }

  lemma {:induction false} BoundEffect(o: Orch.State, peer: string, c: Conn, closed: set<Chan>, k: DialKey)
    ensures var o' := Bound(o, peer, c, closed);
            && IsResolved(o'.peers, k) == IsResolved(o.peers, k) && o'.dialing == o.dialing
            && (k.peer in o'.peers <==> k.peer in o.peers)
            && DialOf(o'.peers, k) ==
                 if IsReport(Connected(peer, c), k) || (k.peer == peer && !IsResolved(o.peers, k)) then None
                 else DialOf(o.peers, k)
  {
    if peer in o.peers {
      var e := o.peers[peer];
      var e' := WithBound(e, c, closed);
      assert e'.resolved == e.resolved;
    }
  }

  lemma DialFailedEffect(o: Orch.State, peer: string, ip: Ip, b: Backoff, now: Time, k: DialKey)
    ensures var o' := DialFailedAt(o, peer, ip, b, now);
            && IsResolved(o'.peers, k) == IsResolved(o.peers, k) && o'.dialing == o.dialing
            && DialOf(o'.peers, k) ==
                 if k == DialKey(peer, ip) && DialOf(o.peers, k).Some?
                 then Some(RecordFailure(DialOf(o.peers, k).value, b, now)) else DialOf(o.peers, k)
  {
  }

  lemma EditEffect(o: Orch.State, e: Event, b: Backoff, closed: set<Chan>, now: Time, k: DialKey)
    requires e.Post? || e.Delete?
    ensures var o' := Handled(o, e, b, closed, now);
            && o'.dialing == o.dialing
            && (k.peer in o.peers && k.peer in o'.peers ==>
                  IsResolved(o'.peers, k) == IsResolved(o.peers, k) && DialOf(o'.peers, k) == DialOf(o.peers, k))
            && (k.peer !in o.peers ==> DialOf(o'.peers, k).None? && !IsResolved(o'.peers, k))
  {
    if e.Post? {
      InstalledKeepsState(o.peers, e.peers, k.peer);
    }
  }

  // ----- the system seen through one key ---------------------------------------------

  datatype KeyView = KeyView(resolved: bool, dial: Option<DialState>, out: nat)

  function Seen(s: System, k: DialKey): KeyView {
    KeyView(IsResolved(s.orch.peers, k), DialOf(s.orch.peers, k), Outstanding(s, k))
  }

  function Started(dial: Option<DialState>, now: Time): DialState {
    match dial
    case Some(d) => d.(inFlight := true)
    case None => DialState(0, now, true)
  }

  /** The only ways a step can touch one peer's dialing of one address. */
  ghost predicate KeyStep(a: KeyView, b: KeyView, bo: Backoff, now: Time) {
    && (b.dial.Some? ==> b.resolved)
    && (|| (b.out == a.out && b.dial == a.dial && b.resolved == a.resolved)    // untouched
        || (b.out == a.out && b.dial.None?                                     // let go, or not dialed yet
            && (a.resolved && b.resolved ==> a.dial.None?))
        || (b.out == a.out + 1 && b.resolved && b.dial == Some(Started(a.dial, now))
            && (a.dial.Some? ==> !a.dial.value.inFlight && a.dial.value.nextAllowedAt <= now))
        || (a.out == b.out + 1 && b.resolved == a.resolved && b.dial.None?)    // connected
        || (a.out == b.out + 1 && b.resolved == a.resolved                     // failed
            && a.dial.Some? && b.dial == Some(RecordFailure(a.dial.value, bo, now))))
  }

  lemma PassIsKeyStep(s: System, o: Orch.State, o': Orch.State, inbox': seq<Event>, k: DialKey, bo: Backoff)
    requires DialOf(s.orch.peers, k).Some? ==> IsResolved(s.orch.peers, k)
    requires DialOf(o.peers, k) == DialOf(s.orch.peers, k) && o.dialing == s.orch.dialing
    requires o'.peers == PassAll(o, s.closed, s.now).peers && o'.dialing == PassAll(o, s.closed, s.now).dialing
    requires Reports(inbox', k) == Reports(s.inbox, k)
    ensures KeyStep(Seen(s, k), Seen(s.(orch := o', inbox := inbox'), k), bo, s.now)
  {
    PassEffect(o, s.closed, s.now, k);
  }

  lemma {:induction false} PassEventIsKeyStep(s: System, p: Params, k: DialKey)
    requires CanStep(s, OrchEvent) && (DialOf(s.orch.peers, k).Some? ==> IsResolved(s.orch.peers, k))
    requires s.inbox[0].Snapshot? || s.inbox[0].PeerActorExited?
    ensures KeyStep(Seen(s, k), Seen(After(s, OrchEvent, p), k), p.backoff, s.now)
  {
    var e := s.inbox[0];
    var o' := Handled(s.orch, e, p.backoff, s.closed, s.now);
    assert Reports(s.inbox[1..], k) == Reports(s.inbox, k);
    if e.Snapshot? {
      SnapshotEffect(s.orch, e.view, s.closed, s.now, k);
      PassIsKeyStep(s, s.orch.(peers := Resolved(s.orch.peers, e.view)), o', s.inbox[1..], k, p.backoff);
    } else {
      ReconcileEffect(s.orch, s.closed, s.now, k);
      PassIsKeyStep(s, s.orch, o', s.inbox[1..], k, p.backoff);
    }
  }

  lemma {:induction false} ReportIsKeyStep(s: System, p: Params, k: DialKey)
    requires CanStep(s, OrchEvent) && (DialOf(s.orch.peers, k).Some? ==> IsResolved(s.orch.peers, k))
    requires s.inbox[0].Connected? || s.inbox[0].DialFailed?
    ensures KeyStep(Seen(s, k), Seen(After(s, OrchEvent, p), k), p.backoff, s.now)
  {
    var e := s.inbox[0];
    if e.Connected? {
      BoundEffect(s.orch, e.peer, e.conn, s.closed, k);
    } else {
      DialFailedEffect(s.orch, e.peer, e.ip, p.backoff, s.now, k);
    }
  }

  lemma {:induction false} EditIsKeyStep(s: System, p: Params, k: DialKey)
    requires CanStep(s, OrchEvent) && (DialOf(s.orch.peers, k).Some? ==> IsResolved(s.orch.peers, k))
    requires s.inbox[0].Post? || s.inbox[0].Delete?
    ensures KeyStep(Seen(s, k), Seen(After(s, OrchEvent, p), k), p.backoff, s.now)
  {
    EditEffect(s.orch, s.inbox[0], p.backoff, s.closed, s.now, k);
  }

  lemma {:induction false} OrchEventIsKeyStep(s: System, p: Params, k: DialKey)
    requires CanStep(s, OrchEvent) && (DialOf(s.orch.peers, k).Some? ==> IsResolved(s.orch.peers, k))
    ensures KeyStep(Seen(s, k), Seen(After(s, OrchEvent, p), k), p.backoff, s.now)
  {
    var e := s.inbox[0];
    if e.Snapshot? || e.PeerActorExited? {
      PassEventIsKeyStep(s, p, k);
    } else if e.Connected? || e.DialFailed? {
      ReportIsKeyStep(s, p, k);
    } else {
      EditIsKeyStep(s, p, k);
    }
  }

  /** Every step of the whole system, seen through one key, is one of the steps above. */
  lemma {:induction false} StepIsKeyStep(s: System, step: Step, p: Params, k: DialKey)
    requires CanStep(s, step) && (DialOf(s.orch.peers, k).Some? ==> IsResolved(s.orch.peers, k))
    ensures KeyStep(Seen(s, k), Seen(After(s, step, p), k), p.backoff, s.now)
  {
    match step
    case Arrive(e) => PushReport(s.inbox, e, k);
    case DialDone(key, i, tx) => PushReport(s.inbox, Report(key, TasksFor(s.orch.dialing, key)[i], tx), k);
    case OrchEvent => OrchEventIsKeyStep(s, p, k);
    case OrchTick =>
      ReconcileEffect(s.orch, s.closed, s.now, k);
      PassIsKeyStep(s, s.orch, Reconciled(s.orch, s.closed, s.now), s.inbox, k, p.backoff);
    case DnsReceive => DeliverKeepsReports(s.(orch := s.orch.(toDns := s.orch.toDns[1..])), Dns.Hostnames(s.orch.toDns[0]), p, k);
    case DnsTurn(e) => DeliverKeepsReports(s, e, p, k);
    case _ =>
  }

  lemma DeliverKeepsReports(s: System, e: Dns.Event, p: Params, k: DialKey)
    ensures Deliver(s, e, p).orch == s.orch && Reports(Deliver(s, e, p).inbox, k) == Reports(s.inbox, k)
  {
    match Dns.Next(s.dns, p.dns, e, s.now).1
    case Some(view) => PushReport(s.inbox, Snapshot(view), k);
    case None => assert Deliver(s, e, p).inbox == s.inbox;
  }

  // ----- runs of one key ---------------------------------------------------------------

  /** Dial state only for resolved addresses, and no mark without a dial behind it. */
  ghost predicate MarkInv(v: KeyView) {
    v.dial.Some? ==> v.resolved && (v.dial.value.inFlight ==> v.out > 0)
  }

  ghost predicate KeyRun(vs: seq<KeyView>, ts: seq<Time>, b: Backoff) {
    && |vs| == |ts|
    && (forall i :: 0 <= i < |vs| ==> MarkInv(vs[i]))
    && (forall i :: 0 <= i < |vs| - 1 ==> KeyStep(vs[i], vs[i+1], b, ts[i]) && ts[i] <= ts[i+1])
  }

  ghost predicate Resolving(vs: seq<KeyView>, i: nat, j: nat) {
    j < |vs| && forall m :: i <= m <= j ==> vs[m].resolved
  }

  /** Exactly the marked dial is outstanding. */
  ghost predicate Exclusive(v: KeyView) {
    v.out == if v.dial.Some? && v.dial.value.inFlight then 1 else 0
  }

  lemma {:induction false} StaysExclusive(vs: seq<KeyView>, ts: seq<Time>, b: Backoff, i: nat, j: nat)
    requires KeyRun(vs, ts, b) && i <= j < |vs| && Resolving(vs, i, j) && Exclusive(vs[i])
    ensures Exclusive(vs[j])
    decreases j
  {
    if i < j {
      StaysExclusive(vs, ts, b, i, j - 1);
      assert KeyStep(vs[j-1], vs[j-1+1], b, ts[j-1]);
    }
  }

  lemma EntryDecides(vs: seq<KeyView>, ts: seq<Time>, b: Backoff, i: nat)
    requires KeyRun(vs, ts, b) && i + 1 < |vs| && !vs[i].resolved && vs[i+1].resolved
    ensures Exclusive(vs[i+1]) <==> vs[i].out == 0
    ensures vs[i].out > 0 && vs[i+1].dial.Some? ==> vs[i+1].out >= 2
  {
    assert KeyStep(vs[i], vs[i+1], b, ts[i]) && MarkInv(vs[i]);
  }

  function TotalDelay(b: Backoff, n: nat): Time {
    if n == 0 then 0 else TotalDelay(b, n - 1) + Delay(b, n - 1)
  }

  lemma {:induction false} TotalDelayGrows(b: Backoff, m: nat, n: nat)
    requires m <= n
    ensures TotalDelay(b, m) <= TotalDelay(b, n)
    decreases n
  {
    if m < n {
      TotalDelayGrows(b, m, n - 1);
    }
  }

  /** The next dial is at least the sum of the earlier delays after `start`, and no dial runs ahead of its time. */
  ghost predicate Spaced(v: KeyView, b: Backoff, start: Time, now: Time) {
    && start <= now
    && (v.dial.Some? ==>
          && start + TotalDelay(b, v.dial.value.attempt) <= v.dial.value.nextAllowedAt
          && (v.dial.value.inFlight ==> v.dial.value.nextAllowedAt <= now))
  }

  lemma KeyStepKeepsSpacing(a: KeyView, z: KeyView, b: Backoff, start: Time, now: Time)
    requires KeyStep(a, z, b, now) && Exclusive(a) && Spaced(a, b, start, now)
    ensures Spaced(z, b, start, now)
  {
    if z.dial.Some? && z.dial != a.dial && a.dial.Some? {
      TotalDelayGrows(b, z.dial.value.attempt, a.dial.value.attempt + 1);
    }
  }

  lemma {:induction false} StaysSpaced(vs: seq<KeyView>, ts: seq<Time>, b: Backoff, i: nat, j: nat)
    requires KeyRun(vs, ts, b) && i <= j < |vs| && !vs[i].resolved && vs[i].out == 0 && Resolving(vs, i + 1, j)
    ensures Spaced(vs[j], b, ts[i], ts[j])
    decreases j
  {
    if i < j {
      StaysSpaced(vs, ts, b, i, j - 1);
      if i < j - 1 {
        EntryDecides(vs, ts, b, i);
        StaysExclusive(vs, ts, b, i + 1, j - 1);
      }
      assert KeyStep(vs[j-1], vs[j-1+1], b, ts[j-1]) && ts[j-1] <= ts[j-1+1];
      KeyStepKeepsSpacing(vs[j-1], vs[j], b, ts[i], ts[j-1]);
    }
  }

  predicate Marked(v: KeyView) {
    v.dial.Some? && v.dial.value.inFlight
  }

  lemma DialUntilNextMark(a: KeyView, z: KeyView, b: Backoff, now: Time)
    requires KeyStep(a, z, b, now) && Exclusive(a) && a.resolved && z.resolved
    requires a.dial.Some? && (Marked(a) ==> z.dial.Some?) && !Marked(z)
    ensures z.dial == Some(if Marked(a) then RecordFailure(a.dial.value, b, now) else a.dial.value)
  {
  }

  lemma {:induction false} FailureStateKept(vs: seq<KeyView>, ts: seq<Time>, b: Backoff, i: nat, j: nat)
    requires KeyRun(vs, ts, b) && i < j < |vs| && Resolving(vs, i, j) && Exclusive(vs[i])
    requires Marked(vs[i]) && vs[i+1].dial.Some? && forall m :: i < m <= j ==> !Marked(vs[m])
    ensures vs[j].dial == Some(RecordFailure(vs[i].dial.value, b, ts[i]))
    decreases j
  {
    assert KeyStep(vs[j-1], vs[j-1+1], b, ts[j-1]);
    if i < j - 1 {
      FailureStateKept(vs, ts, b, i, j - 1);
      StaysExclusive(vs, ts, b, i, j - 1);
    }
    DialUntilNextMark(vs[j-1], vs[j], b, ts[j-1]);
  }

  // ----- what every run of the system keeps ------------------------------------------------

  lemma KeyStepKeepsMark(a: KeyView, b: KeyView, bo: Backoff, now: Time)
    requires MarkInv(a) && KeyStep(a, b, bo, now)
    ensures MarkInv(b)
  {
  }

  lemma {:induction false} FollowingKeepsMark(s: System, step: Step, t: System, p: Params, k: DialKey)
    requires Follows(p)(s, step, t) && MarkInv(Seen(s, k))
    ensures MarkInv(Seen(t, k))
  {
    StepIsKeyStep(s, step, p, k);
    KeyStepKeepsMark(Seen(s, k), Seen(t, k), p.backoff, s.now);
  }

  lemma {:induction false} EveryMarkHasADial(run: seq<System>, steps: seq<Step>, configs: map<string, Peer>, p: Params, i: nat, k: DialKey)
    requires ValidPeerMap(configs) && IsRun(run, steps, configs, p) && i < |run|
    ensures MarkInv(Seen(run[i], k))
  {
    if i > 0 {
      EveryMarkHasADial(run, steps, configs, p, i - 1, k);
      assert Follows(p)(run[i-1], steps[i-1], run[i-1+1]);
      FollowingKeepsMark(run[i-1], steps[i-1], run[i], p, k);
    }
  }

  ghost function Views(run: seq<System>, k: DialKey): seq<KeyView> {
    seq(|run|, i requires 0 <= i < |run| => Seen(run[i], k))
  }

  ghost function Times(run: seq<System>): seq<Time> {
    seq(|run|, i requires 0 <= i < |run| => run[i].now)
  }

  lemma {:induction false} StepProjects(run: seq<System>, steps: seq<Step>, configs: map<string, Peer>, p: Params, k: DialKey, i: nat)
    requires ValidPeerMap(configs) && IsRun(run, steps, configs, p) && i < |steps|
    ensures KeyStep(Seen(run[i], k), Seen(run[i+1], k), p.backoff, run[i].now) && run[i].now <= run[i+1].now
  {
    EveryMarkHasADial(run, steps, configs, p, i, k);
    assert Follows(p)(run[i], steps[i], run[i+1]);
    StepIsKeyStep(run[i], steps[i], p, k);
    assert After(run[i], steps[i], p).now >= run[i].now;
  }

  lemma {:induction false} ViewKeepsMark(run: seq<System>, steps: seq<Step>, configs: map<string, Peer>, p: Params, k: DialKey, i: nat)
    requires ValidPeerMap(configs) && IsRun(run, steps, configs, p) && i < |run|
    ensures MarkInv(Views(run, k)[i])
  {
    EveryMarkHasADial(run, steps, configs, p, i, k);
  }

  lemma {:induction false} ViewSteps(run: seq<System>, steps: seq<Step>, configs: map<string, Peer>, p: Params, k: DialKey, i: nat)
    requires ValidPeerMap(configs) && IsRun(run, steps, configs, p) && i < |run| - 1
    ensures KeyStep(Views(run, k)[i], Views(run, k)[i + 1], p.backoff, Times(run)[i]) && Times(run)[i] <= Times(run)[i + 1]
  {
    StepProjects(run, steps, configs, p, k, i);
  }

  lemma {:induction false} Projection(run: seq<System>, steps: seq<Step>, configs: map<string, Peer>, p: Params, k: DialKey)
    requires ValidPeerMap(configs) && IsRun(run, steps, configs, p)
    ensures KeyRun(Views(run, k), Times(run), p.backoff)
  {
    var vs, ts := Views(run, k), Times(run);
    forall i | 0 <= i < |vs|
      ensures MarkInv(vs[i])
    {
      ViewKeepsMark(run, steps, configs, p, k, i);
    }
    forall i | 0 <= i < |vs| - 1
      ensures KeyStep(vs[i], vs[i + 1], p.backoff, ts[i]) && ts[i] <= ts[i + 1]
    {
      ViewSteps(run, steps, configs, p, k, i);
    }
  }

  ghost predicate StaysResolved(run: seq<System>, k: DialKey, i: nat, j: nat) {
    j < |run| && forall m :: i <= m <= j ==> IsResolved(run[m].orch.peers, k)
  }

  /** A stretch without marks, seen through the key. */
  lemma {:induction false} SeenAlong(run: seq<System>, k: DialKey, i: nat, j: nat)
    requires i < j && StaysResolved(run, k, i, j + 1) && forall m :: i < m <= j ==> !InFlight(run[m].orch.peers, k)
    ensures Resolving(Views(run, k), i, j) && forall m :: i < m <= j ==> !Marked(Views(run, k)[m])
  {
    var vs := Views(run, k);
    forall m | i <= m <= j
      ensures vs[m].resolved && (i < m ==> !Marked(vs[m]))
    {
      assert vs[m] == Seen(run[m], k);
    }
  }

  /** After a prune-and-connect pass no resolved address is forgotten. */
  lemma PassLeavesNothingOut(e: PeerEntry, closed: set<Chan>, now: Time, ip: Ip)
    requires ip in e.resolved
    ensures var e' := Pass(e, closed, now); Covered(e', ip) || Blocked(e', ip, now)
  {
    var q, e' := Pruned(e, closed), Pass(e, closed, now);
    assert Covered(q, ip) ==> Covered(e', ip);
    if !Covered(q, ip) && !Blocked(q, ip, now) {
      assert ip in ToDial(q, now);
    }
  }

  /**
    When an address becomes resolved, its dials are exclusive from then on
    exactly when no dial from an earlier stay is still outstanding; if one is
    and the address is dialed again, two overlap at once.
   */
  lemma ExclusiveIffNothingStale(run: seq<System>, steps: seq<Step>, configs: map<string, Peer>, p: Params, k: DialKey, i: nat)
    requires ValidPeerMap(configs) && IsRun(run, steps, configs, p) && i + 1 < |run|
    requires !IsResolved(run[i].orch.peers, k) && IsResolved(run[i+1].orch.peers, k)
    ensures Exclusive(Seen(run[i+1], k)) <==> Outstanding(run[i], k) == 0
    ensures Outstanding(run[i], k) > 0 && InFlight(run[i+1].orch.peers, k) ==> Outstanding(run[i+1], k) >= 2
  {
    Projection(run, steps, configs, p, k);
    EntryDecides(Views(run, k), Times(run), p.backoff, i);
  }

  /** At most one dial per stay, when the stay begins with none outstanding. */
  lemma {:induction false} AtMostOneDial(run: seq<System>, steps: seq<Step>, configs: map<string, Peer>, p: Params, k: DialKey, i: nat, j: nat)
    requires ValidPeerMap(configs) && IsRun(run, steps, configs, p) && i < j < |run|
    requires !IsResolved(run[i].orch.peers, k) && StaysResolved(run, k, i + 1, j) && Outstanding(run[i], k) == 0
    ensures Outstanding(run[j], k) <= 1
    ensures Outstanding(run[j], k) == 1 <==> InFlight(run[j].orch.peers, k)
  {
    Projection(run, steps, configs, p, k);
    EntryDecides(Views(run, k), Times(run), p.backoff, i);
    StaysExclusive(Views(run, k), Times(run), p.backoff, i + 1, j);
  }

  /**
    While an address stays resolved, starting with no dial outstanding, the dial
    after `n` consecutive failures cannot start before the sum of the first `n`
    delays has passed since the stay began, whatever else the system does.
   */
  lemma DialsAreSpaced(run: seq<System>, steps: seq<Step>, configs: map<string, Peer>, p: Params, k: DialKey, i: nat, j: nat)
    requires ValidPeerMap(configs) && IsRun(run, steps, configs, p) && i < j < |run|
    requires !IsResolved(run[i].orch.peers, k) && StaysResolved(run, k, i + 1, j) && Outstanding(run[i], k) == 0
    ensures Spaced(Seen(run[j], k), p.backoff, run[i].now, run[j].now)
  {
    Projection(run, steps, configs, p, k);
    StaysSpaced(Views(run, k), Times(run), p.backoff, i, j);
  }

  /** The failure at step `i` is remembered until the next dial. */
  lemma {:induction false} FailureRemembered(run: seq<System>, steps: seq<Step>, configs: map<string, Peer>, p: Params, k: DialKey, i: nat, j: nat, d: DialState)
    requires ValidPeerMap(configs) && IsRun(run, steps, configs, p) && i < j < j + 1 < |run|
    requires StaysResolved(run, k, i, j + 1) && Exclusive(Seen(run[i], k))
    requires DialOf(run[i].orch.peers, k) == Some(d) && d.inFlight && DialOf(run[i+1].orch.peers, k).Some?
    requires forall m :: i < m <= j ==> !InFlight(run[m].orch.peers, k)
    ensures DialOf(run[j].orch.peers, k) == Some(RecordFailure(d, p.backoff, run[i].now))
  {
    Projection(run, steps, configs, p, k);
    SeenAlong(run, k, i, j);
    var vs, ts := Views(run, k), Times(run);
    assert vs[i] == Seen(run[i], k) && vs[i+1] == Seen(run[i+1], k) && ts[i] == run[i].now;
    FailureStateKept(vs, ts, p.backoff, i, j);
    assert vs[j] == Seen(run[j], k);
  }

  /**
    After a failure at step `i` that followed `d.attempt` earlier ones, the next
    dial for the address, at step `j`, starts no earlier than the matching delay
    later, and keeps the count.
   */
  lemma {:induction false} NextDialWaits(run: seq<System>, steps: seq<Step>, configs: map<string, Peer>, p: Params, k: DialKey, i: nat, j: nat, d: DialState)
    requires ValidPeerMap(configs) && IsRun(run, steps, configs, p) && i < j < j + 1 < |run|
    requires StaysResolved(run, k, i, j + 1) && Exclusive(Seen(run[i], k))
    requires DialOf(run[i].orch.peers, k) == Some(d) && d.inFlight && DialOf(run[i+1].orch.peers, k).Some?
    requires forall m :: i < m <= j ==> !InFlight(run[m].orch.peers, k)
    requires InFlight(run[j+1].orch.peers, k)
    ensures run[i].now + Delay(p.backoff, d.attempt) <= run[j].now
    ensures DialOf(run[j+1].orch.peers, k).value.attempt == Min(d.attempt + 1, 4_294_967_295)
  {
    FailureRemembered(run, steps, configs, p, k, i, j, d);
    StepProjects(run, steps, configs, p, k, j);
  }

  /** The step is a pass of the orchestrator over its peers. */
  predicate IsPass(s: System, step: Step) {
    step.OrchTick? || (step.OrchEvent? && s.inbox != [] && (s.inbox[0].Snapshot? || s.inbox[0].PeerActorExited?))
  }

  /** The address is resolved, no open and current connection leads to it, and no dial for it is running or held back. */
  ghost predicate NeedsDial(e: PeerEntry, closed: set<Chan>, now: Time, ip: Ip) {
    && ip in e.resolved
    && (forall c :: c in e.bounds && c.dest.ip == ip ==> c.tx in closed || !Current(e, c))
    && (ip in e.dials ==> !e.dials[ip].inFlight && e.dials[ip].nextAllowedAt <= now)
  }

  /** The endpoint a peer is dialed at. */
  function Target(q: Peer): Option<Endpoint> {
    match q.transport
    case Bare(udp, _) => Some(ToUdp(udp))
    case H3(h3, _, _, _) => if h3.Some? then Some(ToH3(h3.value)) else None
  }

  lemma {:induction false} StartsDialIff(peers: map<string, PeerEntry>, closed: set<Chan>, now: Time, k: DialKey)
    requires k.peer in peers
    ensures StartsDial(peers, closed, now, k) <==> NeedsDial(peers[k.peer], closed, now, k.ip)
  {
    var e := peers[k.peer];
    var q := Pruned(e, closed);
    PruneKeepsLive(e, closed);
    assert Covered(q, k.ip) <==> exists c :: c in q.bounds && c.dest.ip == k.ip;
  }

  /** The pass leaves the key's tasks as they are, or adds one for its peer's endpoint exactly when it needs a dial. */
  ghost predicate DialsAsNeeded(o: Orch.State, o': Orch.State, closed: set<Chan>, now: Time, k: DialKey) {
    k.peer in o.peers && k.peer in o'.peers &&
    var e := o.peers[k.peer].(resolved := o'.peers[k.peer].resolved);
    TasksFor(o'.dialing, k) == TasksFor(o.dialing, k) + if NeedsDial(e, closed, now, k.ip) then [Target(e.config)] else []
  }

  lemma {:induction false} PassTasks(mid: Orch.State, closed: set<Chan>, now: Time, k: DialKey)
    requires k.peer in mid.peers
    ensures TasksFor(PassAll(mid, closed, now).dialing, k) ==
              TasksFor(mid.dialing, k) + if StartsDial(mid.peers, closed, now, k) then [Target(mid.peers[k.peer].config)] else []
  {
    PassEffect(mid, closed, now, k);
  }

  lemma {:induction false} PassKeepsResolved(mid: Orch.State, closed: set<Chan>, now: Time, id: string)
    requires id in mid.peers
    ensures id in PassAll(mid, closed, now).peers && PassAll(mid, closed, now).peers[id].resolved == mid.peers[id].resolved
  {
    PassKeepsShape(mid.peers, closed, now);
  }

  /** What a pass over `mid` does to one key. */
  lemma {:induction false} PassAddsNeeded(mid: Orch.State, closed: set<Chan>, now: Time, k: DialKey, q: Orch.State)
    requires k.peer in mid.peers && Same(q, PassAll(mid, closed, now))
    ensures var e := mid.peers[k.peer];
            && k.peer in q.peers && q.peers[k.peer].resolved == e.resolved
            && TasksFor(q.dialing, k) == TasksFor(mid.dialing, k) + if NeedsDial(e, closed, now, k.ip) then [Target(e.config)] else []
  {
    StartsDialIff(mid.peers, closed, now, k);
    PassTasks(mid, closed, now, k);
    PassKeepsResolved(mid, closed, now, k.peer);
  }

  lemma {:induction false} ReconcilingDials(o: Orch.State, closed: set<Chan>, now: Time, k: DialKey, o': Orch.State)
    requires k.peer in o.peers && Same(o', Reconciled(o, closed, now))
    ensures DialsAsNeeded(o, o', closed, now, k)
  {
    ReconcileEffect(o, closed, now, k);
    PassAddsNeeded(o, closed, now, k, PassAll(o, closed, now));
    var e := o.peers[k.peer];
    assert e.(resolved := e.resolved) == e;
  }

  lemma {:induction false} SnapshotDials(o: Orch.State, view: Dns.View, closed: set<Chan>, now: Time, k: DialKey, o': Orch.State)
    requires k.peer in o.peers && Same(o', WithSnapshot(o, view, closed, now))
    ensures DialsAsNeeded(o, o', closed, now, k)
  {
    var mid := o.(peers := Resolved(o.peers, view));
    SnapshotEffect(o, view, closed, now, k);
    PassAddsNeeded(mid, closed, now, k, PassAll(mid, closed, now));
    assert mid.peers[k.peer] == o.peers[k.peer].(resolved := mid.peers[k.peer].resolved);
  }

  /** A pass dials exactly the addresses that need it, at the peer's configured endpoint. */
  lemma {:induction false} PassDialsAsNeeded(s: System, step: Step, t: System, p: Params, k: DialKey)
    requires Follows(p)(s, step, t) && IsPass(s, step) && k.peer in s.orch.peers
    ensures DialsAsNeeded(s.orch, t.orch, s.closed, s.now, k)
  {
    if step.OrchEvent? && s.inbox[0].Snapshot? {
      SnapshotDials(s.orch, s.inbox[0].view, s.closed, s.now, k, t.orch);
    } else {
      ReconcilingDials(s.orch, s.closed, s.now, k, t.orch);
    }
  }

  /** No connection the peer keeps leads to the address. */
  ghost predicate Unconnected(s: System, k: DialKey) {
    k.peer in s.orch.peers &&
    forall c :: c in s.orch.peers[k.peer].bounds && c.dest.ip == k.ip ==> c.tx in s.closed
  }

  /**
    After a failure at step `i` that followed `d.attempt` earlier ones, a pass at
    step `j`, no earlier than the doubled and capped delay after it, dials the
    address again, if it is still resolved and no connection leads to it.
   */
  lemma {:induction false} NextDialComes(run: seq<System>, steps: seq<Step>, configs: map<string, Peer>, p: Params, k: DialKey, i: nat, j: nat, d: DialState)
    requires ValidPeerMap(configs) && IsRun(run, steps, configs, p) && i < j < j + 1 < |run| && p.backoff.max <= 18_446_744_073_709_551_615_999_999_999
    requires StaysResolved(run, k, i, j + 1) && Exclusive(Seen(run[i], k))
    requires DialOf(run[i].orch.peers, k) == Some(d) && d.inFlight && DialOf(run[i+1].orch.peers, k).Some?
    requires forall m :: i < m <= j ==> !InFlight(run[m].orch.peers, k)
    requires IsPass(run[j], steps[j]) && Unconnected(run[j], k)
    requires run[j].now >= run[i].now + Min(p.backoff.max, p.backoff.min * Pow2(Min(d.attempt, 30)))
    ensures TasksFor(run[j+1].orch.dialing, k) == TasksFor(run[j].orch.dialing, k) + [Target(run[j].orch.peers[k.peer].config)]
  {
    FailureRemembered(run, steps, configs, p, k, i, j, d);
    assert Follows(p)(run[j], steps[j], run[j+1]);
    PassDialsAsNeeded(run[j], steps[j], run[j+1], p, k);
    assert IsResolved(run[j+1].orch.peers, k);
  }

  lemma {:induction false} Pow2Grows(m: nat, n: nat)
    requires m <= n
    ensures Pow2(m) <= Pow2(n)
    decreases n
  {
    if m < n {
      Pow2Grows(m, n - 1);
    }
  }

  /** For validated tuning the delays stay within the bounds, start at the minimum and never shrink. */
  lemma DelaysGrowWithinBounds(b: Backoff, m: nat, n: nat)
    requires b.min <= b.max <= 18_446_744_073_709_551_615_999_999_999 && m <= n
    ensures b.min <= Delay(b, m) <= Delay(b, n) <= b.max
    ensures Delay(b, 0) == b.min
    ensures Delay(b, n) == Min(b.max, b.min * Pow2(Min(n, 30)))
  {
    Pow2Grows(0, Min(m, 30));
    Pow2Grows(Min(m, 30), Min(n, 30));
    MulGrows(b.min, 1, Pow2(Min(m, 30)));
    MulGrows(b.min, Pow2(Min(m, 30)), Pow2(Min(n, 30)));
  }

  lemma MulGrows(x: nat, a: nat, b: nat)
    requires a <= b
    ensures x * a <= x * b
  {
  }
}
