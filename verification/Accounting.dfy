/** What a batch adds to the counters, in terms of its packets (src/router.rs, src/metrics.rs). */
module Accounting {
  import opened Base
  import opened Sequences
  import opened Net
  import opened Ttl
  import opened Routing
  import opened Metrics
  import opened Ingress

  // ----- counting by where packets go --------------------------------------------------------

  /** Which packets to count, by outlet and by whether their TTL ran out. */
  type Choice = (Outlet, bool) -> bool

  function All(): Choice {
    (_, _) => true
  }

  function Picked(g: Choice): Action -> seq<Packet> {
    (a: Action) => if g(a.outlet, a.expired) then a.packets else []
  }

  /** How many packets of the log's actions are chosen. */
  function LogCount(g: Choice, log: seq<Action>): nat {
    |FlatMap(Picked(g), log)|
  }

  function Chosen(x: Context, g: Choice): Packet -> seq<Packet> {
    (p: Packet) => var (to, item) := RouteOne(x, p); if g(to, item.expired) then [p] else []
  }

  /** How many packets of the batch are chosen, each routed alone. */
  function BatchCount(x: Context, g: Choice, batch: seq<Packet>): nat {
    |FlatMap(Chosen(x, g), batch)|
  }

  lemma {:induction false} AllCounted(x: Context, batch: seq<Packet>)
    ensures BatchCount(x, All(), batch) == |batch|
  {
    if batch != [] {
      AllCounted(x, batch[..|batch|-1]);
    }
  }

  lemma {:induction false} WholeCount(x: Context, g: Choice, group: seq<Packet>, out: Outlet)
    requires forall i :: 0 <= i < |group| ==> RouteOne(x, group[i]).0 == out && !RouteOne(x, group[i]).1.expired
    ensures BatchCount(x, g, group) == if g(out, false) then |group| else 0
  {
    if group != [] {
      WholeCount(x, g, group[..|group|-1], out);
    }
  }

  /** The packet goes on to `tx`, or back to the TUN when its TTL runs out. */
  predicate GoesOn(x: Context, tx: Chan, p: Packet) {
    && OldTtl(p).Some?
    && RouteOne(x, p).0 == (if OldTtl(p).value <= 1 then To(x.input) else To(tx))
    && RouteOne(x, p).1.expired == (OldTtl(p).value <= 1)
  }

  lemma {:induction false} SplitCount(x: Context, g: Choice, group: seq<Packet>, tx: Chan)
    requires forall i :: 0 <= i < |group| ==> GoesOn(x, tx, group[i])
    ensures BatchCount(x, g, group) ==
              (if g(To(tx), false) then |Part(group, false)| else 0) + (if g(To(x.input), true) then |Part(group, true)| else 0)
  {
    if group != [] {
      assert GoesOn(x, tx, group[|group|-1]);
      SplitCount(x, g, group[..|group|-1], tx);
    }
  }

  lemma {:induction false} SentCount(g: Choice, tx: Chan, packets: seq<Packet>, expired: bool, ok: bool, acts: seq<Action>)
    requires acts == SentIfAny(tx, packets, expired, ok)
    ensures LogCount(g, acts) == if g(To(tx), expired) then |packets| else 0
  {
    if packets != [] {
      FlatMapOne(Picked(g), acts[0]);
    }
  }

  lemma {:induction false} SplitActionsCount(
    g: Choice, out: Chan, input: Chan, forward: seq<Packet>, expired: seq<Packet>, accepts: nat -> bool, n: nat, acts: seq<Action>)
    requires acts == SplitActions(out, input, forward, expired, accepts, n)
    ensures LogCount(g, acts) == (if g(To(out), false) then |forward| else 0) + (if g(To(input), true) then |expired| else 0)
  {
    var first := SentIfAny(out, forward, false, accepts(n));
    var second := SentIfAny(input, expired, true, accepts(n + |first|));
    SentCount(g, out, forward, false, accepts(n), first);
    SentCount(g, input, expired, true, accepts(n + |first|), second);
    FlatMapAppend(Picked(g), first, second);
  }

  lemma {:induction false} GroupCount(
    x: Context, g: Choice, group: seq<Packet>, dst: Ip, accepts: nat -> bool, n: nat, acts: seq<Action>)
    requires SameDst(group, dst) && acts == RouteActions(x, Lookup(x.trie, dst), group, accepts, n)
    ensures LogCount(g, acts) == BatchCount(x, g, group)
  {
    var route := Lookup(x.trie, dst);
    if route.None? || route.value.entry.tx == x.input {
      WholeCount(x, g, group, if route.None? then Discard(NoRoute) else To(x.input));
      FlatMapOne(Picked(g), acts[0]);
    } else {
      SameDstHasTtl(group, dst);
      forall i | 0 <= i < |group|
        ensures GoesOn(x, route.value.entry.tx, group[i])
      {
        assert OldTtl(group[i]).Some?;
      }
      SplitCount(x, g, group, route.value.entry.tx);
      SplitActionsCount(g, route.value.entry.tx, x.input, Part(group, false), Part(group, true), accepts, n, acts);
    }
  }

  lemma {:induction false} FrontCount(x: Context, g: Choice, batch: seq<Packet>, accepts: nat -> bool, n: nat, acts: seq<Action>)
    requires batch != [] && acts == FrontActions(x, batch, accepts, n)
    ensures LogCount(g, acts) == BatchCount(x, g, batch[..FrontSize(batch)])
  {
    match ExtractDstIp(batch[0])
    case None =>
      var a := Action(Discard(InvalidIpVersion), [batch[0]], false, false);
      assert acts == [a] && batch[..1] == [batch[0]];
      FlatMapOne(Picked(g), a);
      FlatMapOne(Chosen(x, g), batch[0]);
      assert RouteOne(x, batch[0]) == (Discard(InvalidIpVersion), Item(batch[0], false));
      assert |Picked(g)(a)| == |Chosen(x, g)(batch[0])|;
    case Some(dst) =>
      GroupCount(x, g, batch[..FrontSize(batch)], dst, accepts, n, acts);
  }

  lemma {:induction false} FrontIsCounted(x: Context, g: Choice, batch: seq<Packet>, accepts: nat -> bool, n: nat)
    returns (k: nat, acts: seq<Action>, rest: seq<Packet>, m: nat, more: seq<Action>)
    requires batch != []
    ensures 1 <= k <= |batch| && rest == batch[k..] && m == n + |acts| && Same(more, BatchActions(x, rest, accepts, m))
    ensures Same(BatchActions(x, batch, accepts, n), acts + more)
    ensures LogCount(g, acts) == BatchCount(x, g, batch[..k]) && Honest(x, acts, accepts, n)
  {
    k, acts := FrontSize(batch), FrontActions(x, batch, accepts, n);
    rest, m := batch[k..], n + |acts|;
    more := BatchActions(x, rest, accepts, m);
    FrontCount(x, g, batch, accepts, n, acts);
    FrontIsHonest(x, batch, accepts, n, acts);
    FrontUnfold(x, batch, accepts, n, acts, rest, m, more);
  }

  /** However packets are chosen, the handler's log holds as many of them as routing each packet alone. */
  lemma {:induction false} LogCountsBatch(x: Context, g: Choice, batch: seq<Packet>, accepts: nat -> bool, n: nat, log: seq<Action>)
    requires Same(log, BatchActions(x, batch, accepts, n))
    ensures LogCount(g, log) == BatchCount(x, g, batch) && Honest(x, log, accepts, n)
    decreases |batch|
  {
    if batch != [] {
      var k, acts, rest, m, more := FrontIsCounted(x, g, batch, accepts, n);
      LogCountsBatch(x, g, rest, accepts, m, more);
      HonestAppend(x, acts, more, accepts, n, m, log);
      FlatMapSizes(Chosen(x, g), Picked(g), batch, k, acts, more, log);
    }
  }

  // ----- what the actions say about the channels ----------------------------------------------

  /** Every action reports what its channel said, and only the TUN is offered expired packets. */
  ghost predicate Honest(x: Context, log: seq<Action>, accepts: nat -> bool, n: nat) {
    forall i :: 0 <= i < |log| ==>
      (log[i].outlet.To? ==> log[i].ok == accepts(n + i)) && (log[i].expired ==> log[i].outlet == To(x.input))
  }

  lemma {:induction false} HonestAppend(x: Context, a: seq<Action>, b: seq<Action>, accepts: nat -> bool, n: nat, m: nat, log: seq<Action>)
    requires Honest(x, a, accepts, n) && m == n + |a| && Honest(x, b, accepts, m) && log == a + b
    ensures Honest(x, log, accepts, n)
  {
    forall i | 0 <= i < |log|
      ensures log[i].outlet.To? ==> log[i].ok == accepts(n + i)
      ensures log[i].expired ==> log[i].outlet == To(x.input)
    {
      if i >= |a| {
        assert log[i] == b[i - |a|] && n + i == m + (i - |a|);
      }
    }
  }

  lemma {:induction false} SplitIsHonest(
    x: Context, out: Chan, forward: seq<Packet>, expired: seq<Packet>, accepts: nat -> bool, n: nat, acts: seq<Action>)
    requires acts == SplitActions(out, x.input, forward, expired, accepts, n)
    ensures Honest(x, acts, accepts, n)
  {
    var first := SentIfAny(out, forward, false, accepts(n));
    HonestAppend(x, first, SentIfAny(x.input, expired, true, accepts(n + |first|)), accepts, n, n + |first|, acts);
  }

  lemma {:induction false} FrontIsHonest(x: Context, batch: seq<Packet>, accepts: nat -> bool, n: nat, acts: seq<Action>)
    requires batch != [] && acts == FrontActions(x, batch, accepts, n)
    ensures Honest(x, acts, accepts, n)
  {
    if ExtractDstIp(batch[0]).Some? {
      var route := Lookup(x.trie, ExtractDstIp(batch[0]).value);
      var group := batch[..FrontSize(batch)];
      if route.Some? && route.value.entry.tx != x.input {
        SplitIsHonest(x, route.value.entry.tx, Part(group, false), Part(group, true), accepts, n, acts);
      }
    }
  }

  // ----- the counters of a log ----------------------------------------------------------------

  function One(a: Action): PktCounters {
    PktCounters(1, |a.packets|, Bytes(a.packets))
  }

  predicate Succeeds(a: Action) {
    a.outlet.To? && a.ok && !a.expired
  }

  /** The reasons an action is counted as dropped for: none, one, or two for an expired group nobody took. */
  predicate DroppedFor(a: Action, r: DropReason) {
    || (a.outlet.Discard? && r == a.outlet.reason)
    || (a.outlet.To? && a.expired && r == TtlExpired)
    || (a.outlet.To? && !a.ok && r == ChannelClosed)
  }

  function Succeeded(log: seq<Action>): PktCounters {
    if log == [] then ZERO else
      var n := |log| - 1;
      Plus(Succeeded(log[..n]), Times(if Succeeds(log[n]) then 1 else 0, One(log[n])))
  }

  function Dropped(log: seq<Action>, r: DropReason): PktCounters {
    if log == [] then ZERO else
      var n := |log| - 1;
      Plus(Dropped(log[..n], r), Times(if DroppedFor(log[n], r) then 1 else 0, One(log[n])))
  }

  function Times(k: nat, c: PktCounters): PktCounters {
    if k == 0 then ZERO else if k == 1 then c else Plus(c, c)
  }

  /** How often an action is counted as dropped: at most twice. */
  function DropCount(a: Action): nat {
    if a.outlet.Discard? then 1 else (if a.expired then 1 else 0) + (if a.ok then 0 else 1)
  }

  function DroppedTotal(log: seq<Action>): PktCounters {
    if log == [] then ZERO else
      var n := |log| - 1;
      Plus(DroppedTotal(log[..n]), Times(DropCount(log[n]), One(log[n])))
  }

  /** `before` with everything in the log counted. */
  ghost predicate Accounts(before: Stats, after: Stats, log: seq<Action>) {
    && after.succeeded == Add(before.succeeded, Succeeded(log))
    && after.dropped == Add(before.dropped, DroppedTotal(log))
    && (forall r: DropReason :: r in before.reasons && r in after.reasons &&
          after.reasons[r] == Add(before.reasons[r], Dropped(log, r)))
  }

  /** Expired packets a closed channel refused. */
  function RefusedExpired(log: seq<Action>): nat {
    if log == [] then 0 else
      var a := log[|log|-1];
      RefusedExpired(log[..|log|-1]) + if a.outlet.To? && a.expired && !a.ok then |a.packets| else 0
  }

  /** Each packet is counted once, as succeeded or dropped, and an expired one that is refused twice. */
  lemma {:induction false} CountedOnce(log: seq<Action>)
    requires forall i :: 0 <= i < |log| && log[i].outlet.Discard? ==> !log[i].expired
    ensures Succeeded(log).packets + DroppedTotal(log).packets == LogCount(All(), log) + RefusedExpired(log)
  {
    if log != [] {
      var front, a := log[..|log|-1], log[|log|-1];
      CountedOnce(front);
    }
  }

  lemma {:induction false} SumsAppend(log: seq<Action>, a: Action, r: DropReason)
    ensures Succeeded(log + [a]) == Plus(Succeeded(log), Times(if Succeeds(a) then 1 else 0, One(a)))
    ensures DroppedTotal(log + [a]) == Plus(DroppedTotal(log), Times(DropCount(a), One(a)))
    ensures Dropped(log + [a], r) == Plus(Dropped(log, r), Times(if DroppedFor(a, r) then 1 else 0, One(a)))
  {
    assert (log + [a])[..|log|] == log;
  }

  /** Recording `one` so many times, one after the other. */
  function Recorded(c: PktCounters, k: nat, one: PktCounters): PktCounters {
    if k == 0 then c else if k == 1 then Add(c, one) else Add(Add(c, one), one)
  }

  lemma RecordedIsSum(before: PktCounters, sum: PktCounters, k: nat, one: PktCounters)
    ensures Recorded(Add(before, sum), k, one) == Add(before, Plus(sum, Times(k, one)))
  {
    AddTwice(before, sum, one);
    AddTwice(before, Plus(sum, one), one);
  }

  lemma {:induction false} CountedTotals(s: Stats, a: Action, after: Stats)
    requires AllReasons(s.reasons) && after == Counted(s, a)
    ensures after.succeeded == Recorded(s.succeeded, if Succeeds(a) then 1 else 0, One(a))
    ensures after.dropped == Recorded(s.dropped, DropCount(a), One(a))
    ensures AllReasons(after.reasons)
  {
  }

  lemma {:induction false} CountedReason(s: Stats, a: Action, after: Stats, r: DropReason)
    requires AllReasons(s.reasons) && after == Counted(s, a)
    ensures r in after.reasons && after.reasons[r] == Recorded(s.reasons[r], if DroppedFor(a, r) then 1 else 0, One(a))
  {
  }

  lemma {:induction false} ReasonOneMore(before: Stats, mid: Stats, log: seq<Action>, a: Action, after: Stats, r: DropReason)
    requires Accounts(before, mid, log) && AllReasons(mid.reasons) && after == Counted(mid, a)
    ensures r in before.reasons && r in after.reasons && after.reasons[r] == Add(before.reasons[r], Dropped(log + [a], r))
  {
    CountedReason(mid, a, after, r);
    SumsAppend(log, a, r);
    RecordedIsSum(before.reasons[r], Dropped(log, r), if DroppedFor(a, r) then 1 else 0, One(a));
  }

  lemma {:induction false} TotalsOneMore(before: Stats, mid: Stats, log: seq<Action>, a: Action, after: Stats)
    requires Accounts(before, mid, log)
    requires after.succeeded == Recorded(mid.succeeded, if Succeeds(a) then 1 else 0, One(a))
    requires after.dropped == Recorded(mid.dropped, DropCount(a), One(a))
    ensures after.succeeded == Add(before.succeeded, Succeeded(log + [a]))
    ensures after.dropped == Add(before.dropped, DroppedTotal(log + [a]))
  {
    SumsAppend(log, a, NoRoute);
    RecordedIsSum(before.succeeded, Succeeded(log), if Succeeds(a) then 1 else 0, One(a));
    RecordedIsSum(before.dropped, DroppedTotal(log), DropCount(a), One(a));
  }

  lemma {:induction false} AccountOneMore(before: Stats, mid: Stats, log: seq<Action>, a: Action, after: Stats)
    requires Accounts(before, mid, log) && AllReasons(mid.reasons) && after == Counted(mid, a)
    ensures Accounts(before, after, log + [a])
  {
    CountedTotals(mid, a, after);
    TotalsOneMore(before, mid, log, a, after);
    forall r: DropReason
      ensures r in before.reasons && r in after.reasons && after.reasons[r] == Add(before.reasons[r], Dropped(log + [a], r))
    {
      ReasonOneMore(before, mid, log, a, after, r);
    }
  }

  lemma {:induction false} CountingAccounts(before: Stats, log: seq<Action>)
    requires AllReasons(before.reasons) && Fits(before.succeeded) && Fits(before.dropped)
    requires forall r: DropReason :: Fits(before.reasons[r])
    ensures Accounts(before, CountedAll(before, log), log)
  {
    if log != [] {
      var front, a := log[..|log|-1], log[|log|-1];
      CountingAccounts(before, front);
      AccountOneMore(before, CountedAll(before, front), front, a, CountedAll(before, log));
      assert front + [a] == log;
    }
  }

  /**
    Whatever the channels do, the counters grow by exactly the packets and bytes
    of the log; each packet of the batch counts once, as succeeded or dropped,
    except that an expired packet a closed TUN channel refuses counts twice.
   */
  lemma BatchAccounting(before: Stats, x: Context, batch: seq<Packet>, accepts: nat -> bool)
    requires AllReasons(before.reasons) && Fits(before.succeeded) && Fits(before.dropped)
    requires forall r: DropReason :: Fits(before.reasons[r])
    ensures var log := BatchActions(x, batch, accepts, 0);
            && Accounts(before, CountedAll(before, log), log)
            && Succeeded(log).packets + DroppedTotal(log).packets == |batch| + RefusedExpired(log)
  {
    var log := BatchActions(x, batch, accepts, 0);
    CountingAccounts(before, log);
    LogCountsBatch(x, All(), batch, accepts, 0, log);
    AllCounted(x, batch);
    CountedOnce(log);
  }

  // ----- the counters of a batch, when channels stay as they are ---------------------------------

  function Delivers(closed: set<Chan>): Choice {
    (o: Outlet, expired: bool) => o.To? && o.chan !in closed && !expired
  }

  function DropsFor(closed: set<Chan>, r: DropReason): Choice {
    (o: Outlet, expired: bool) =>
      || (o.Discard? && r == o.reason)
      || (o.To? && expired && r == TtlExpired)
      || (o.To? && o.chan in closed && r == ChannelClosed)
  }

  function ExpiresInto(closed: set<Chan>): Choice {
    (o: Outlet, expired: bool) => o.To? && expired && o.chan in closed
  }

  /** The packet's TTL runs out on the way to another channel than the TUN's. */
  function Expires(): Choice {
    (_, expired: bool) => expired
  }

  lemma {:induction false} SteadyCounts(log: seq<Action>, closed: set<Chan>, r: DropReason)
    requires Steady(log, closed)
    ensures Succeeded(log).packets == LogCount(Delivers(closed), log)
    ensures Dropped(log, r).packets == LogCount(DropsFor(closed, r), log)
    ensures RefusedExpired(log) == LogCount(ExpiresInto(closed), log)
  {
    if log != [] {
      var n := |log| - 1;
      SteadyCounts(log[..n], closed, r);
      assert log[n].outlet.To? ==> (log[n].ok <==> log[n].outlet.chan !in closed);
    }
  }

  lemma {:induction false} ExpiredGoToTun(x: Context, batch: seq<Packet>, closed: set<Chan>)
    ensures BatchCount(x, ExpiresInto(closed), batch) == if x.input in closed then BatchCount(x, Expires(), batch) else 0
  {
    if batch != [] {
      var n := |batch| - 1;
      ExpiredGoToTun(x, batch[..n], closed);
      assert RouteOne(x, batch[n]).1.expired ==> RouteOne(x, batch[n]).0 == To(x.input);
    }
  }

  /**
    From the packets, the table and the closed channels alone: when channels
    neither open nor close during the batch, every counter grows by the packets
    that routing each alone assigns to it, and the packets counted twice are
    those whose TTL runs out, exactly when the TUN channel is closed.
   */
  lemma CountersFromBatch(x: Context, batch: seq<Packet>, accepts: nat -> bool, closed: set<Chan>, r: DropReason)
    requires Steady(BatchActions(x, batch, accepts, 0), closed)
    ensures var log := BatchActions(x, batch, accepts, 0);
            && Succeeded(log).packets == BatchCount(x, Delivers(closed), batch)
            && Dropped(log, r).packets == BatchCount(x, DropsFor(closed, r), batch)
            && Succeeded(log).packets + DroppedTotal(log).packets ==
                 |batch| + if x.input in closed then BatchCount(x, Expires(), batch) else 0
  {
    var log := BatchActions(x, batch, accepts, 0);
    SteadyCounts(log, closed, r);
    LogCountsBatch(x, Delivers(closed), batch, accepts, 0, log);
    LogCountsBatch(x, DropsFor(closed, r), batch, accepts, 0, log);
    LogCountsBatch(x, ExpiresInto(closed), batch, accepts, 0, log);
    LogCountsBatch(x, All(), batch, accepts, 0, log);
    ExpiredGoToTun(x, batch, closed);
    AllCounted(x, batch);
    CountedOnce(log);
  }

  lemma {:induction false} ExpiredAlone(x: Context, p: Packet, accepts: nat -> bool)
    requires RouteOne(x, p).1.expired
    ensures BatchActions(x, [p], accepts, 0) == [Action(To(x.input), [Decremented(p)], true, accepts(0))]
  {
    var batch := [p];
    assert FrontSize(batch) == 1 && batch[..1] == batch && batch[1..] == [];
    FlatMapOne(Kept(false), p);
    FlatMapOne(Kept(true), p);
    var acts := FrontActions(x, batch, accepts, 0);
    assert acts == [] + [Action(To(x.input), [Decremented(p)], true, accepts(0))];
    FrontUnfold(x, batch, accepts, 0, acts, [], |acts|, []);
  }

  /** One packet, a default route to another channel, a closed TUN: the packet is counted twice. */
  lemma ExpiredCountedTwice() returns (x: Context, p: Packet)
    ensures var log := BatchActions(x, [p], _ => false, 0);
            && Steady(log, {x.input}) && BatchCount(x, Expires(), [p]) == 1
            && Dropped(log, TtlExpired).packets == 1 && Dropped(log, ChannelClosed).packets == 1
            && Succeeded(log).packets + DroppedTotal(log).packets == 2
  {
    p := seq(20, i => if i == 0 then 0x45 else if i == 8 then 1 else 0);
    x := Context(map[Prefix(V4, []) := RouteEntry("peer", 1)], 0);
    var dst := Ip(V4, BitsAt(p, 16, 4));
    assert ExtractDstIp(p) == Some(dst) && OldTtl(p) == Some(1);
    LookupIsLongestMatch(x.trie, dst);
    assert InPrefix(Prefix(V4, []), dst);
    ExpiredAlone(x, p, _ => false);
    FlatMapOne(Chosen(x, Expires()), p);
    FlatMapOne(Chosen(x, DropsFor({0}, TtlExpired)), p);
    FlatMapOne(Chosen(x, DropsFor({0}, ChannelClosed)), p);
    CountersFromBatch(x, [p], _ => false, {0}, TtlExpired);
    CountersFromBatch(x, [p], _ => false, {0}, ChannelClosed);
  }
}
