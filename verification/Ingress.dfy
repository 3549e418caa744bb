/** Forwarding of ingress batches (src/router.rs). */
module Ingress {
  import opened Base
  import opened Sequences
  import opened Net
  import opened Ttl
  import opened Routing
  import opened Metrics

  type Packet = seq<byte>

  // ----- destination address ----------------------------------------------------------

  function Weight(k: nat): (w: nat)
    ensures w > 0
  {
    if k == 0 then 128 else if k == 1 then 64 else if k == 2 then 32 else if k == 3 then 16
    else if k == 4 then 8 else if k == 5 then 4 else if k == 6 then 2 else 1
  }

  /** Bit `k` of a byte, the most significant first. */
  function BitOf(b: byte, k: nat): bool {
    b / Weight(k) % 2 == 1
  }

  /** The bits of `n` bytes from position `from`. */
  function BitsAt(p: Packet, from: nat, n: nat): (bits: seq<bool>)
    requires from + n <= |p|
    ensures |bits| == 8 * n
  {
    seq(8 * n, k requires 0 <= k < 8 * n => BitOf(p[from + k / 8], k % 8))
  }

  function ExtractDstIp(p: Packet): Option<Ip> {
    if IsV4(p) then Some(Ip(V4, BitsAt(p, 16, 4)))
    else if IsV6(p) then Some(Ip(V6, BitsAt(p, 24, 16)))
    else None
  }

  /** The branch for a packet that has a destination but no TTL cannot be taken. */
  lemma DestinationImpliesTtl(p: Packet)
    ensures ExtractDstIp(p).Some? <==> OldTtl(p).Some?
  {
  }

  // ----- routing one packet ---------------------------------------------------------------

  datatype Outlet = To(chan: Chan) | Discard(reason: DropReason)

  /** A packet as it leaves, and whether it leaves because its TTL ran out. */
  datatype Item = Item(packet: Packet, expired: bool)

  datatype Context = Context(trie: Trie, input: Chan)

  function RouteOne(x: Context, p: Packet): (Outlet, Item) {
    match ExtractDstIp(p)
    case None => (Discard(InvalidIpVersion), Item(p, false))
    case Some(dst) => RouteTo(x, Lookup(x.trie, dst), p)
  }

  function RouteTo(x: Context, route: Option<RouteMatch>, p: Packet): (Outlet, Item) {
    match route
    case None => (Discard(NoRoute), Item(p, false))
    case Some(m) =>
      if m.entry.tx == x.input then (To(x.input), Item(p, false))
      else match OldTtl(p) {
        case None => (Discard(InvalidIpVersion), Item(p, false))
        case Some(ttl) =>
          if ttl <= 1 then (To(x.input), Item(Decremented(p), true)) else (To(m.entry.tx), Item(Decremented(p), false))
      }
  }

  /** What routing one packet sends to an outlet. */
  function Emitted(x: Context, o: Outlet): Packet -> seq<Item> {
    (p: Packet) => var (to, item) := RouteOne(x, p); if to == o then [item] else []
  }

  /** What reaches one outlet when the packets are routed one at a time. */
  function FlowAlone(x: Context, batch: seq<Packet>, o: Outlet): seq<Item> {
    FlatMap(Emitted(x, o), batch)
  }

  // ----- what the batch handler did ----------------------------------------------------------

  /** A group handed to one outlet; `ok` says whether a channel took it. */
  datatype Action = Action(outlet: Outlet, packets: seq<Packet>, expired: bool, ok: bool)

  function Items(packets: seq<Packet>, expired: bool): seq<Item> {
    seq(|packets|, i requires 0 <= i < |packets| => Item(packets[i], expired))
  }

  function Share(o: Outlet): Action -> seq<Item> {
    (a: Action) => if a.outlet == o then Items(a.packets, a.expired) else []
  }

  function Flow(log: seq<Action>, o: Outlet): seq<Item> {
    FlatMap(Share(o), log)
  }

  function Bytes(packets: seq<Packet>): nat {
    if packets == [] then 0 else Bytes(packets[..|packets|-1]) + |packets[|packets|-1]|
  }

  /** The counters after one more action. */
  function Counted(s: Stats, a: Action): Stats
    requires ChannelClosed in s.reasons && TtlExpired in s.reasons && (a.outlet.Discard? ==> a.outlet.reason in s.reasons)
  {
    var count, bytes := |a.packets|, Bytes(a.packets);
    match a.outlet
    case Discard(r) => WithDrop(s, r, count, bytes)
    case To(_) =>
      var m := if a.expired then WithDrop(s, TtlExpired, count, bytes) else s;
      if !a.ok then WithDrop(m, ChannelClosed, count, bytes) else if a.expired then m else WithSuccess(m, count, bytes)
  }

  lemma {:induction false} CountedKeepsReasons(s: Stats, a: Action)
    requires AllReasons(s.reasons)
    ensures AllReasons(Counted(s, a).reasons)
  {
  }

  // ----- the batch handler ------------------------------------------------------------------

  method BatchStats(batch: seq<Packet>) returns (count: nat, bytes: nat)
    ensures count == |batch| && bytes == Bytes(batch)
  {
    count, bytes := |batch|, 0;
    for i := 0 to |batch|
      invariant bytes == Bytes(batch[..i])
    {
      assert batch[..i+1][..i] == batch[..i];
      bytes := bytes + |batch[i]|;
    }
    assert batch[..|batch|] == batch;
  }

  function Kept(expired: bool): Packet -> seq<Packet> {
    (p: Packet) => if OldTtl(p).Some? && (OldTtl(p).value <= 1) == expired then [Decremented(p)] else []
  }

  /** Packets of the group that are forwarded (`expired` false) or have run out of TTL, decremented. */
  function Part(group: seq<Packet>, expired: bool): seq<Packet> {
    FlatMap(Kept(expired), group)
  }

  predicate SameDst(group: seq<Packet>, dst: Ip) {
    forall i :: 0 <= i < |group| ==> ExtractDstIp(group[i]) == Some(dst)
  }

  predicate AllHaveTtl(group: seq<Packet>) {
    forall i :: 0 <= i < |group| ==> OldTtl(group[i]).Some?
  }

  lemma SameDstHasTtl(group: seq<Packet>, dst: Ip)
    requires SameDst(group, dst)
    ensures AllHaveTtl(group)
  {
    forall i | 0 <= i < |group|
      ensures OldTtl(group[i]).Some?
    {
      DestinationImpliesTtl(group[i]);
    }
  }

  /** Decrements every packet of a group and splits it; each packet is a buffer updated in place. */
  method SplitGroup(group: seq<Packet>, dst: Ip) returns (forward: seq<Packet>, expired: seq<Packet>)
    requires SameDst(group, dst)
    ensures forward == Part(group, false) && expired == Part(group, true)
  {
    forward, expired := [], [];
    for i := 0 to |group|
      invariant forward == Part(group[..i], false) && expired == Part(group[..i], true)
    {
      assert group[..i+1][..i] == group[..i];
      var p := group[i];
      var buf := new byte[|p|](k requires 0 <= k < |p| => p[k]);
      assert buf[..] == p;
      var old_ttl := DecrementTtl(buf);
      DestinationImpliesTtl(p);
      match old_ttl {
        case Some(ttl) =>
          if ttl <= 1 {
            expired := expired + [buf[..]];
          } else {
            forward := forward + [buf[..]];
          }
        case None =>
          assert false;
      }
    }
    assert group[..|group|] == group;
  }

  /** How many packets at the front of the batch go to `dst`. */
  function RunLength(batch: seq<Packet>, dst: Ip): (n: nat)
    ensures n <= |batch| && SameDst(batch[..n], dst)
    ensures n < |batch| ==> ExtractDstIp(batch[n]) != Some(dst)
    ensures batch != [] && ExtractDstIp(batch[0]) == Some(dst) ==> n >= 1
  {
    if batch == [] || ExtractDstIp(batch[0]) != Some(dst) then 0 else
      var n := RunLength(batch[1..], dst);
      assert batch[..n+1] == [batch[0]] + batch[1..][..n];
      n + 1
  }

  method GroupEnd(batch: seq<Packet>, dst: Ip) returns (end: nat)
    requires batch != [] && ExtractDstIp(batch[0]) == Some(dst)
    ensures end == RunLength(batch, dst)
  {
    end := 1;
    while end < |batch|
      invariant 1 <= end <= |batch| && end + RunLength(batch[end..], dst) == RunLength(batch, dst)
    {
      if ExtractDstIp(batch[end]) != Some(dst) {
        break;
      }
      assert batch[end..][1..] == batch[end+1..];
      end := end + 1;
    }
  }

  // ----- the actions of a batch -----------------------------------------------------------

  function SentIfAny(tx: Chan, packets: seq<Packet>, expired: bool, ok: bool): seq<Action> {
    if packets == [] then [] else [Action(To(tx), packets, expired, ok)]
  }

  function SplitActions(out: Chan, input: Chan, forward: seq<Packet>, expired: seq<Packet>, accepts: nat -> bool, n: nat): seq<Action> {
    var first := SentIfAny(out, forward, false, accepts(n));
    first + SentIfAny(input, expired, true, accepts(n + |first|))
  }

  /** What is done with a group that shares a route; the `i`-th action overall is taken exactly when `accepts(i)`. */
  function RouteActions(x: Context, route: Option<RouteMatch>, group: seq<Packet>, accepts: nat -> bool, n: nat): seq<Action> {
    match route
    case None => [Action(Discard(NoRoute), group, false, false)]
    case Some(m) =>
      if m.entry.tx == x.input then [Action(To(x.input), group, false, accepts(n))]
      else SplitActions(m.entry.tx, x.input, Part(group, false), Part(group, true), accepts, n)
  }

  /** How many packets are handled together at the front of a batch. */
  function FrontSize(batch: seq<Packet>): (k: nat)
    requires batch != []
    ensures 1 <= k <= |batch|
  {
    match ExtractDstIp(batch[0])
    case None => 1
    case Some(dst) => RunLength(batch, dst)
  }

  function FrontActions(x: Context, batch: seq<Packet>, accepts: nat -> bool, n: nat): seq<Action>
    requires batch != []
  {
    match ExtractDstIp(batch[0])
    case None => [Action(Discard(InvalidIpVersion), [batch[0]], false, false)]
    case Some(dst) => RouteActions(x, Lookup(x.trie, dst), batch[..FrontSize(batch)], accepts, n)
  }

  function BatchActions(x: Context, batch: seq<Packet>, accepts: nat -> bool, n: nat): seq<Action>
    decreases |batch|
  {
    if batch == [] then [] else
      var acts := FrontActions(x, batch, accepts, n);
      acts + BatchActions(x, batch[FrontSize(batch)..], accepts, n + |acts|)
  }

  function CountedAll(s: Stats, log: seq<Action>): (t: Stats)
    requires AllReasons(s.reasons)
    ensures AllReasons(t.reasons)
  {
    if log == [] then s else
      var m := CountedAll(s, log[..|log|-1]);
      CountedKeepsReasons(m, log[|log|-1]);
      Counted(m, log[|log|-1])
  }

  // ----- performing them --------------------------------------------------------------------

  method DiscardAll(reason: DropReason, packets: seq<Packet>, counters: Counters) returns (a: Action)
    requires counters.Valid()
    modifies counters
    ensures counters.Valid() && a == Action(Discard(reason), packets, false, false)
    ensures counters.Value() == Counted(old(counters.Value()), a)
  {
    var count, bytes := BatchStats(packets);
    counters.RecordDrop(reason, count, bytes);
    a := Action(Discard(reason), packets, false, false);
  }

  method Send(tx: Chan, packets: seq<Packet>, ok: bool, counters: Counters) returns (a: Action)
    requires counters.Valid()
    modifies counters
    ensures counters.Valid() && a == Action(To(tx), packets, false, ok)
    ensures counters.Value() == Counted(old(counters.Value()), a)
  {
    var count, bytes := BatchStats(packets);
    var wait: Option<Time> := *;
    counters.SendAndRecord(ok, wait, count, bytes);
    a := Action(To(tx), packets, false, ok);
  }

  method SendExpired(tx: Chan, packets: seq<Packet>, ok: bool, counters: Counters) returns (a: Action)
    requires counters.Valid()
    modifies counters
    ensures counters.Valid() && a == Action(To(tx), packets, true, ok)
    ensures counters.Value() == Counted(old(counters.Value()), a)
  {
    var count, bytes := BatchStats(packets);
    counters.RecordDrop(TtlExpired, count, bytes);
    var wait: Option<Time> := *;
    if ok && wait.Some? {
      counters.RecordQueueFull(wait.value);
    }
    if !ok {
      counters.RecordDrop(ChannelClosed, count, bytes);
    }
    a := Action(To(tx), packets, true, ok);
  }

  lemma CountOne(s: Stats, a: Action)
    requires AllReasons(s.reasons)
    ensures CountedAll(s, [a]) == Counted(s, a)
  {
    assert [a][..0] == [];
  }

  lemma {:induction false} CountAppend(s: Stats, a: seq<Action>, b: seq<Action>)
    requires AllReasons(s.reasons)
    ensures Same(CountedAll(s, a + b), CountedAll(CountedAll(s, a), b))
    decreases |b|
  {
    if b == [] {
      assert a + b == a;
    } else {
      assert (a + b)[..|a + b| - 1] == a + b[..|b|-1];
      CountAppend(s, a, b[..|b|-1]);
    }
  }

  /** Offers the packets to a channel, if there are any. */
  method SendIfAny(tx: Chan, packets: seq<Packet>, expired: bool, ok: bool, counters: Counters) returns (acts: seq<Action>)
    requires counters.Valid()
    modifies counters
    ensures counters.Valid() && Same(acts, SentIfAny(tx, packets, expired, ok))
    ensures Same(counters.Value(), CountedAll(old(counters.Value()), acts))
  {
    acts := [];
    if packets != [] {
      var a: Action;
      if expired {
        a := SendExpired(tx, packets, ok, counters);
      } else {
        a := Send(tx, packets, ok, counters);
      }
      CountOne(old(counters.Value()), a);
      acts := [a];
    }
  }

  /** Counting two logs one after the other counts them together. */
  lemma {:induction false} CountBoth(s0: Stats, s1: Stats, s2: Stats, first: seq<Action>, second: seq<Action>, acts: seq<Action>)
    requires AllReasons(s0.reasons) && AllReasons(s1.reasons) && acts == first + second
    requires Same(s1, CountedAll(s0, first)) && Same(s2, CountedAll(s1, second))
    ensures Same(s2, CountedAll(s0, acts))
  {
    CountAppend(s0, first, second);
  }

  method SendBoth(out: Chan, input: Chan, forward: seq<Packet>, expired: seq<Packet>, counters: Counters, accepts: nat -> bool, n: nat)
    returns (acts: seq<Action>)
    requires counters.Valid()
    modifies counters
    ensures counters.Valid() && Same(acts, SplitActions(out, input, forward, expired, accepts, n))
    ensures Same(counters.Value(), CountedAll(old(counters.Value()), acts))
  {
    ghost var s0 := counters.Value();
    var first := SendIfAny(out, forward, false, accepts(n), counters);
    ghost var s1 := counters.Value();
    var second := SendIfAny(input, expired, true, accepts(n + |first|), counters);
    acts := first + second;
    CountBoth(s0, s1, counters.Value(), first, second, acts);
  }

  /** Decrements a group that is not for this host; sends what lives on, then hands what expired to the TUN. */
  method ForwardGroup(x: Context, route: RouteMatch, group: seq<Packet>, dst: Ip, counters: Counters, accepts: nat -> bool, n: nat)
    returns (acts: seq<Action>)
    requires counters.Valid() && SameDst(group, dst) && route.entry.tx != x.input
    modifies counters
    ensures counters.Valid() && Same(acts, RouteActions(x, Some(route), group, accepts, n))
    ensures Same(counters.Value(), CountedAll(old(counters.Value()), acts))
  {
    var forward, expired := SplitGroup(group, dst);
    acts := SendBoth(route.entry.tx, x.input, forward, expired, counters, accepts, n);
  }

  method HandleGroup(x: Context, group: seq<Packet>, dst: Ip, counters: Counters, accepts: nat -> bool, n: nat)
    returns (acts: seq<Action>)
    requires counters.Valid() && SameDst(group, dst)
    modifies counters
    ensures counters.Valid() && acts == RouteActions(x, Lookup(x.trie, dst), group, accepts, n)
    ensures Same(counters.Value(), CountedAll(old(counters.Value()), acts))
  {
    match Lookup(x.trie, dst) {
      case None =>
        var a := DiscardAll(NoRoute, group, counters);
        CountOne(old(counters.Value()), a);
        acts := [a];
      case Some(route) =>
        if route.entry.tx == x.input {
          var a := Send(route.entry.tx, group, accepts(n), counters);
          CountOne(old(counters.Value()), a);
          acts := [a];
        } else {
          acts := ForwardGroup(x, route, group, dst, counters, accepts, n);
        }
    }
  }

  method HandleFront(x: Context, batch: seq<Packet>, counters: Counters, accepts: nat -> bool, n: nat)
    returns (acts: seq<Action>, rest: seq<Packet>)
    requires counters.Valid() && batch != []
    modifies counters
    ensures counters.Valid() && acts == FrontActions(x, batch, accepts, n) && rest == batch[FrontSize(batch)..]
    ensures Same(counters.Value(), CountedAll(old(counters.Value()), acts))
  {
    match ExtractDstIp(batch[0]) {
      case None =>
        var a := DiscardAll(InvalidIpVersion, [batch[0]], counters);
        CountOne(old(counters.Value()), a);
        acts, rest := [a], batch[1..];
      case Some(dst) =>
        var end := GroupEnd(batch, dst);
        acts := HandleGroup(x, batch[..end], dst, counters, accepts, n);
        rest := batch[end..];
    }
  }

  lemma {:induction false} FrontUnfold(
    x: Context, batch: seq<Packet>, accepts: nat -> bool, n: nat,
    acts: seq<Action>, rest: seq<Packet>, m: nat, more: seq<Action>)
    requires batch != [] && acts == FrontActions(x, batch, accepts, n) && rest == batch[FrontSize(batch)..]
    requires m == n + |acts| && Same(more, BatchActions(x, rest, accepts, m))
    ensures Same(BatchActions(x, batch, accepts, n), acts + more)
  {
  }

  lemma {:induction false} Regroup(whole: seq<Action>, log: seq<Action>, acts: seq<Action>, more: seq<Action>, all: seq<Action>)
    requires log + whole == all && whole == acts + more
    ensures Same((log + acts) + more, all)
  {
    assert (log + acts) + more == all;
  }

  /** Drains the batch group by group from the front, performing and counting its actions. */
  method HandleIngressBatch(batch: seq<Packet>, x: Context, counters: Counters, accepts: nat -> bool) returns (log: seq<Action>)
    requires counters.Valid()
    modifies counters
    ensures counters.Valid() && log == BatchActions(x, batch, accepts, 0)
    ensures counters.Value() == CountedAll(old(counters.Value()), log)
  {
    log := [];
    var rest, n := batch, 0;
    ghost var all := BatchActions(x, batch, accepts, 0);
    ghost var todo := all;
    assert log + todo == all;
    while rest != []
      invariant counters.Valid() && n == |log| && Same(log + todo, all) && Same(todo, BatchActions(x, rest, accepts, n))
      invariant Same(counters.Value(), CountedAll(old(counters.Value()), log))
      decreases |rest|
    {
      var acts, next := HandleFront(x, rest, counters, accepts, n);
      ghost var more := BatchActions(x, next, accepts, n + |acts|);
      FrontUnfold(x, rest, accepts, n, acts, next, n + |acts|, more);
      CountAppend(old(counters.Value()), log, acts);
      Regroup(todo, log, acts, more, all);
      log, rest, n, todo := log + acts, next, n + |acts|, more;
    }
  }

  // ----- batching refines routing each packet alone ----------------------------------------

  function EmittedVia(x: Context, route: Option<RouteMatch>, o: Outlet): Packet -> seq<Item> {
    (p: Packet) => var (to, item) := RouteTo(x, route, p); if to == o then [item] else []
  }

  /** What reaches one outlet when packets that share a route are handled one at a time. */
  function FlowVia(x: Context, route: Option<RouteMatch>, group: seq<Packet>, o: Outlet): seq<Item> {
    FlatMap(EmittedVia(x, route, o), group)
  }

  lemma {:induction false} SharedRoute(x: Context, group: seq<Packet>, dst: Ip, o: Outlet)
    requires SameDst(group, dst)
    ensures FlowAlone(x, group, o) == FlowVia(x, Lookup(x.trie, dst), group, o)
  {
    FlatMapAgree(Emitted(x, o), EmittedVia(x, Lookup(x.trie, dst), o), group);
  }

  lemma {:induction false} WholeFlow(x: Context, route: Option<RouteMatch>, group: seq<Packet>, o: Outlet)
    requires route.None? || route.value.entry.tx == x.input
    ensures var out := if route.None? then Discard(NoRoute) else To(x.input);
            FlowVia(x, route, group, o) == if o == out then Items(group, false) else []
  {
    if group != [] {
      var n := |group| - 1;
      WholeFlow(x, route, group[..n], o);
      ItemsAppend(group[..n], group[n], false);
      assert group[..n] + [group[n]] == group;
    }
  }

  lemma {:induction false} SplitFlow(x: Context, route: Option<RouteMatch>, group: seq<Packet>, o: Outlet)
    requires AllHaveTtl(group) && route.Some? && route.value.entry.tx != x.input
    ensures FlowVia(x, route, group, o) ==
              if o == To(route.value.entry.tx) then Items(Part(group, false), false)
              else if o == To(x.input) then Items(Part(group, true), true) else []
  {
    if group != [] {
      var n := |group| - 1;
      SplitFlow(x, route, group[..n], o);
      var expired := OldTtl(group[n]).value <= 1;
      ItemsAppend(Part(group[..n], expired), Decremented(group[n]), expired);
    }
  }

  lemma ItemsAppend(packets: seq<Packet>, p: Packet, expired: bool)
    ensures Items(packets + [p], expired) == Items(packets, expired) + [Item(p, expired)]
  {
  }

  lemma {:induction false} SentFlow(tx: Chan, packets: seq<Packet>, expired: bool, ok: bool, acts: seq<Action>, o: Outlet)
    requires acts == SentIfAny(tx, packets, expired, ok)
    ensures Flow(acts, o) == if o == To(tx) then Items(packets, expired) else []
  {
    if packets != [] {
      FlatMapOne(Share(o), acts[0]);
    }
  }

  lemma {:induction false} SplitActionsFlow(
    out: Chan, input: Chan, forward: seq<Packet>, expired: seq<Packet>, accepts: nat -> bool, n: nat, acts: seq<Action>, o: Outlet)
    requires out != input && acts == SplitActions(out, input, forward, expired, accepts, n)
    ensures Flow(acts, o) ==
              if o == To(out) then Items(forward, false) else if o == To(input) then Items(expired, true) else []
  {
    var first := SentIfAny(out, forward, false, accepts(n));
    var second := SentIfAny(input, expired, true, accepts(n + |first|));
    SentFlow(out, forward, false, accepts(n), first, o);
    SentFlow(input, expired, true, accepts(n + |first|), second, o);
    PairFlow(out, input, forward, expired, first, second, acts, o);
  }

  lemma {:induction false} PairFlow(
    out: Chan, input: Chan, forward: seq<Packet>, expired: seq<Packet>, first: seq<Action>, second: seq<Action>, acts: seq<Action>, o: Outlet)
    requires out != input && acts == first + second
    requires Flow(first, o) == (if o == To(out) then Items(forward, false) else [])
    requires Flow(second, o) == (if o == To(input) then Items(expired, true) else [])
    ensures Flow(acts, o) ==
              if o == To(out) then Items(forward, false) else if o == To(input) then Items(expired, true) else []
  {
    FlatMapPair(Share(o), first, second, acts, Flow(first, o), Flow(second, o));
  }

  lemma {:induction false} RouteFlow(
    x: Context, route: Option<RouteMatch>, group: seq<Packet>, accepts: nat -> bool, n: nat, acts: seq<Action>, o: Outlet)
    requires AllHaveTtl(group) && acts == RouteActions(x, route, group, accepts, n)
    ensures Flow(acts, o) == FlowVia(x, route, group, o)
  {
    if route.None? || route.value.entry.tx == x.input {
      WholeFlow(x, route, group, o);
      FlatMapOne(Share(o), acts[0]);
    } else {
      SplitFlow(x, route, group, o);
      SplitActionsFlow(route.value.entry.tx, x.input, Part(group, false), Part(group, true), accepts, n, acts, o);
    }
  }

  lemma FrontFlow(x: Context, batch: seq<Packet>, accepts: nat -> bool, n: nat, o: Outlet)
    requires batch != []
    ensures Flow(FrontActions(x, batch, accepts, n), o) == FlowAlone(x, batch[..FrontSize(batch)], o)
  {
    match ExtractDstIp(batch[0])
    case None =>
      var a := Action(Discard(InvalidIpVersion), [batch[0]], false, false);
      FlatMapOne(Share(o), a);
      FlatMapOne(Emitted(x, o), batch[0]);
      assert batch[..1] == [batch[0]];
    case Some(dst) =>
      var group := batch[..FrontSize(batch)];
      SameDstHasTtl(group, dst);
      RouteFlow(x, Lookup(x.trie, dst), group, accepts, n, FrontActions(x, batch, accepts, n), o);
      SharedRoute(x, group, dst, o);
  }

  lemma {:induction false} FrontFacts(x: Context, batch: seq<Packet>, accepts: nat -> bool, n: nat, o: Outlet)
    returns (k: nat, acts: seq<Action>, rest: seq<Packet>, m: nat, more: seq<Action>)
    requires batch != []
    ensures 1 <= k <= |batch| && rest == batch[k..] && m == n + |acts| && Same(more, BatchActions(x, rest, accepts, m))
    ensures Same(BatchActions(x, batch, accepts, n), acts + more)
    ensures Flow(acts, o) == FlowAlone(x, batch[..k], o)
  {
    k, acts := FrontSize(batch), FrontActions(x, batch, accepts, n);
    rest, m := batch[k..], n + |acts|;
    more := BatchActions(x, rest, accepts, m);
    FrontFlow(x, batch, accepts, n, o);
    FrontUnfold(x, batch, accepts, n, acts, rest, m, more);
  }

  lemma {:induction false} LogRefinesPackets(x: Context, batch: seq<Packet>, accepts: nat -> bool, n: nat, log: seq<Action>, o: Outlet)
    requires Same(log, BatchActions(x, batch, accepts, n))
    ensures Flow(log, o) == FlowAlone(x, batch, o)
    decreases |batch|
  {
    if batch != [] {
      var k, acts, rest, m, more := FrontFacts(x, batch, accepts, n, o);
      LogRefinesPackets(x, rest, accepts, m, more, o);
      FlatMapCompose(Emitted(x, o), Share(o), batch, k, acts, more, log);
    }
  }

  /** Every outlet gets, in order, exactly what routing each packet of the batch alone would send there. */
  lemma {:induction false} BatchRefinesPackets(x: Context, batch: seq<Packet>, accepts: nat -> bool, n: nat, o: Outlet)
    ensures Flow(BatchActions(x, batch, accepts, n), o) == FlowAlone(x, batch, o)
  {
    LogRefinesPackets(x, batch, accepts, n, BatchActions(x, batch, accepts, n), o);
  }

  // ----- channels that stay as they are -----------------------------------------------------

  function Taken(c: Chan): Action -> seq<Item> {
    (a: Action) => if a.outlet == To(c) && a.ok then Items(a.packets, a.expired) else []
  }

  /** What a channel took. */
  function Delivered(log: seq<Action>, c: Chan): seq<Item> {
    FlatMap(Taken(c), log)
  }

  /** Exactly the channels in `closed` refuse. */
  predicate Steady(log: seq<Action>, closed: set<Chan>) {
    forall i :: 0 <= i < |log| && log[i].outlet.To? ==> (log[i].ok <==> log[i].outlet.chan !in closed)
  }

  lemma {:induction false} DeliveredIsFlow(log: seq<Action>, c: Chan, closed: set<Chan>)
    requires Steady(log, closed)
    ensures Delivered(log, c) == if c in closed then [] else Flow(log, To(c))
  {
    if c !in closed {
      FlatMapAgree(Taken(c), Share(To(c)), log);
    } else if log != [] {
      DeliveredIsFlow(log[..|log|-1], c, closed);
    }
  }

  /** When channels neither close nor open during the batch, each open one receives its whole share in order. */
  lemma OpenChannelsReceiveAll(x: Context, batch: seq<Packet>, accepts: nat -> bool, closed: set<Chan>, c: Chan)
    requires Steady(BatchActions(x, batch, accepts, 0), closed)
    ensures Delivered(BatchActions(x, batch, accepts, 0), c) == if c in closed then [] else FlowAlone(x, batch, To(c))
  {
    DeliveredIsFlow(BatchActions(x, batch, accepts, 0), c, closed);
    BatchRefinesPackets(x, batch, accepts, 0, To(c));
  }
}
