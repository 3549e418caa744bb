/** Ranking of outbound interfaces by the routes that match an address (src/bind.rs, on Linux). */
module RouteRank {
  import opened Base
  import opened Sequences
  import opened Net
  import opened RouteSync

  datatype Match = Match(prefix: nat, main: bool, metric: Option<nat>, ifIndex: nat)

  function RouteMatch(r: Route, target: Ip): Option<Match> {
    if r.ifIndex.None? || NetOf(r).None? || !Contains(NetOf(r).value, target) then None
    else Some(Match(r.prefix, r.table == MAIN_TABLE, r.metric, r.ifIndex.value))
  }

  function Metric(m: Match): nat {
    if m.metric.Some? then m.metric.value else 0
  }

  /** Longer prefix first, then the main table, then the lower metric. */
  predicate KeyLess(a: Match, b: Match) {
    || a.prefix > b.prefix
    || (a.prefix == b.prefix && a.main && !b.main)
    || (a.prefix == b.prefix && a.main == b.main && Metric(a) < Metric(b))
  }

  /** Position `i` of a listing ranks before position `j`: by key, and by listing order on a tie. */
  predicate Precedes(ms: seq<Match>, i: nat, j: nat)
    requires i < |ms| && j < |ms|
  {
    KeyLess(ms[i], ms[j]) || (!KeyLess(ms[j], ms[i]) && i < j)
  }

  lemma PrecedesIsStrictOrder(ms: seq<Match>, i: nat, j: nat, k: nat)
    requires i < |ms| && j < |ms| && k < |ms|
    ensures !Precedes(ms, i, i)
    ensures Precedes(ms, i, j) ==> !Precedes(ms, j, i)
    ensures i != j ==> Precedes(ms, i, j) || Precedes(ms, j, i)
    ensures Precedes(ms, i, j) && Precedes(ms, j, k) ==> Precedes(ms, i, k)
  {
  }

  // ----- stable sorting --------------------------------------------------------------

  /** `at` lists the first `n` positions of `ms`, each once, in ranking order. */
  ghost predicate Ordered(ms: seq<Match>, n: nat, at: seq<nat>) {
    && n <= |ms| && |at| == n
    && (forall k :: 0 <= k < n ==> at[k] < n)
    && (forall k, l :: 0 <= k < l < n ==> Precedes(ms, at[k], at[l]))
    && (forall p: nat :: p < n ==> p in at)
  }

  /** Inserting position `n` before the first one whose key is greater keeps the order. */
  lemma InsertKeepsOrder(ms: seq<Match>, n: nat, at: seq<nat>, p: nat, at': seq<nat>)
    requires Ordered(ms, n, at) && n < |ms| && p <= n
    requires forall k :: 0 <= k < p ==> !KeyLess(ms[n], ms[at[k]])
    requires p < n ==> KeyLess(ms[n], ms[at[p]])
    requires at' == at[..p] + [n] + at[p..]
    ensures Ordered(ms, n + 1, at')
  {
    forall k, l | 0 <= k < l < n + 1
      ensures Precedes(ms, at'[k], at'[l])
    {
      if k == p && l > p + 1 {
        PrecedesIsStrictOrder(ms, n, at[p], at[l - 1]);
      }
    }
    forall q: nat | q < n + 1
      ensures q in at'
    {
      if q == n {
        assert at'[p] == n;
      } else {
        assert q in at;
        var k :| 0 <= k < n && at[k] == q;
        assert at'[if k < p then k else k + 1] == q;
      }
    }
  }

  /** A stable sort by key; `at` says where each match stood. */
  method SortStable(ms: seq<Match>) returns (sorted: seq<Match>, ghost at: seq<nat>)
    ensures Ordered(ms, |ms|, at) && |sorted| == |ms|
    ensures forall k :: 0 <= k < |ms| ==> sorted[k] == ms[at[k]]
  {
    sorted, at := [], [];
    for n := 0 to |ms|
      invariant Ordered(ms, n, at) && |sorted| == n
      invariant forall k :: 0 <= k < n ==> sorted[k] == ms[at[k]]
    {
      var p := 0;
      while p < n && !KeyLess(ms[n], sorted[p])
        invariant 0 <= p <= n && forall k :: 0 <= k < p ==> !KeyLess(ms[n], sorted[k])
      {
        p := p + 1;
      }
      InsertKeepsOrder(ms, n, at, p, at[..p] + [n] + at[p..]);
      sorted := sorted[..p] + [ms[n]] + sorted[p..];
      at := at[..p] + [n] + at[p..];
    }
  }

  // ----- what a ranking is -----------------------------------------------------------

  predicate Via(ms: seq<Match>, i: nat, iface: nat) {
    i < |ms| && ms[i].ifIndex == iface
  }

  /** Some match of interface `x` ranks before every match of interface `y`. */
  ghost predicate Beats(ms: seq<Match>, x: nat, y: nat) {
    exists a: nat :: Via(ms, a, x) && forall b: nat :: Via(ms, b, y) ==> Precedes(ms, a, b)
  }

  /** Every interface with a match except the TUN, each once, ordered by its best match. */
  ghost predicate IsRanking(ms: seq<Match>, tun: Option<nat>, out: seq<nat>) {
    && (forall i, j :: 0 <= i < j < |out| ==> out[i] != out[j])
    && (forall x: nat :: x in out <==> tun != Some(x) && exists a: nat :: Via(ms, a, x))
    && (forall i, j :: 0 <= i < j < |out| ==> Beats(ms, out[i], out[j]))
  }

  lemma BeatsIsAsymmetric(ms: seq<Match>, x: nat, y: nat)
    requires Beats(ms, x, y)
    ensures !Beats(ms, y, x)
  {
    var a: nat :| Via(ms, a, x) && forall b: nat :: Via(ms, b, y) ==> Precedes(ms, a, b);
    if Beats(ms, y, x) {
      var b: nat :| Via(ms, b, y) && forall c: nat :: Via(ms, c, x) ==> Precedes(ms, b, c);
      PrecedesIsStrictOrder(ms, a, b, a);
    }
  }

  /** Rankings that agree on the first `k` interfaces agree on the next. */
  lemma {:induction false} NextAgrees(ms: seq<Match>, tun: Option<nat>, xs: seq<nat>, ys: seq<nat>, k: nat)
    requires IsRanking(ms, tun, xs) && IsRanking(ms, tun, ys) && k < |xs| && k <= |ys|
    requires forall t :: 0 <= t < k ==> xs[t] == ys[t]
    ensures k < |ys| && xs[k] == ys[k]
  {
    assert xs[k] in xs && xs[k] in ys;
    var i :| 0 <= i < |ys| && ys[i] == xs[k];
    assert i >= k;
    if i > k {
      assert ys[k] in ys && ys[k] in xs;
      var j :| 0 <= j < |xs| && xs[j] == ys[k];
      assert j > k;
      BeatsIsAsymmetric(ms, ys[k], ys[i]);
      assert false;
    }
  }

  lemma {:induction false} RankingsAgree(ms: seq<Match>, tun: Option<nat>, xs: seq<nat>, ys: seq<nat>, n: nat)
    requires IsRanking(ms, tun, xs) && IsRanking(ms, tun, ys) && n <= |xs|
    ensures n <= |ys| && forall t :: 0 <= t < n ==> xs[t] == ys[t]
  {
    if n > 0 {
      RankingsAgree(ms, tun, xs, ys, n - 1);
      NextAgrees(ms, tun, xs, ys, n - 1);
    }
  }

  /** The ranking is determined by its three clauses. */
  lemma RankingIsUnique(ms: seq<Match>, tun: Option<nat>, xs: seq<nat>, ys: seq<nat>)
    requires IsRanking(ms, tun, xs) && IsRanking(ms, tun, ys)
    ensures xs == ys
  {
    RankingsAgree(ms, tun, xs, ys, |xs|);
    RankingsAgree(ms, tun, ys, xs, |ys|);
  }

  // ----- the ranking method ----------------------------------------------------------

  /** `out` holds the interfaces of the first `n` sorted matches, without the TUN; `first[i]` is where `out[i]` was first seen. */
  ghost predicate Deduped(sorted: seq<Match>, n: nat, tun: Option<nat>, out: seq<nat>, first: seq<nat>) {
    && n <= |sorted| && |first| == |out|
    && (forall i :: 0 <= i < |out| ==> first[i] < n && sorted[first[i]].ifIndex == out[i] && tun != Some(out[i]))
    && (forall i, k :: 0 <= i < |out| && 0 <= k < first[i] ==> sorted[k].ifIndex != out[i])
    && (forall i, j :: 0 <= i < j < |out| ==> first[i] < first[j])
    && (forall k :: 0 <= k < n && tun != Some(sorted[k].ifIndex) ==> sorted[k].ifIndex in out)
  }

  method Dedupe(sorted: seq<Match>, tun: Option<nat>) returns (out: seq<nat>, ghost first: seq<nat>)
    ensures Deduped(sorted, |sorted|, tun, out, first)
    ensures forall i, j :: 0 <= i < j < |out| ==> out[i] != out[j]
    ensures forall x: nat :: x in out <==> tun != Some(x) && exists k :: 0 <= k < |sorted| && sorted[k].ifIndex == x
  {
    out, first := [], [];
    var seen: set<nat> := {};
    for n := 0 to |sorted|
      invariant Deduped(sorted, n, tun, out, first)
      invariant forall x :: x in seen <==> x in out
    {
      var x := sorted[n].ifIndex;
      if tun != Some(x) && x !in seen {
        seen := seen + {x};
        out := out + [x];
        first := first + [n];
      }
    }
  }

  lemma DedupedIsRanking(ms: seq<Match>, at: seq<nat>, sorted: seq<Match>, tun: Option<nat>, out: seq<nat>, first: seq<nat>)
    requires Ordered(ms, |ms|, at) && |sorted| == |ms|
    requires forall k :: 0 <= k < |ms| ==> sorted[k] == ms[at[k]]
    requires Deduped(sorted, |sorted|, tun, out, first)
    ensures IsRanking(ms, tun, out)
  {
    forall x: nat
      ensures x in out <==> tun != Some(x) && exists a: nat :: Via(ms, a, x)
    {
      if x in out {
        var i :| 0 <= i < |out| && out[i] == x;
        assert Via(ms, at[first[i]], x);
      }
      if tun != Some(x) && exists a: nat :: Via(ms, a, x) {
        var a: nat :| Via(ms, a, x);
        assert a in at;
        var k :| 0 <= k < |at| && at[k] == a;
        assert sorted[k].ifIndex == x;
      }
    }
    forall i, j | 0 <= i < j < |out|
      ensures Beats(ms, out[i], out[j]) && out[i] != out[j]
    {
      FirstSeenBeats(ms, at, sorted, tun, out, first, i, j);
    }
  }

  lemma FirstSeenBeats(ms: seq<Match>, at: seq<nat>, sorted: seq<Match>, tun: Option<nat>, out: seq<nat>, first: seq<nat>, i: nat, j: nat)
    requires Ordered(ms, |ms|, at) && |sorted| == |ms|
    requires forall k :: 0 <= k < |ms| ==> sorted[k] == ms[at[k]]
    requires Deduped(sorted, |sorted|, tun, out, first)
    requires i < j < |out|
    ensures Beats(ms, out[i], out[j]) && out[i] != out[j]
  {
    var a := at[first[i]];
    assert Via(ms, a, out[i]);
    forall b: nat | Via(ms, b, out[j])
      ensures Precedes(ms, a, b)
    {
      assert b in at;
      var l :| 0 <= l < |at| && at[l] == b;
      assert sorted[l].ifIndex == out[j];
      assert first[j] <= l;
    }
  }

  function Matching(target: Ip): Route -> seq<Match> {
    (r: Route) => match RouteMatch(r, target) case Some(m) => [m] case None => []
  }

  // ----- the ranking, on the routes themselves ----------------------------------------

  /** The route has an interface, and the target shares the bits its prefix fixes. */
  predicate Reaches(r: Route, target: Ip) {
    && r.ifIndex.Some? && r.destination.family == target.family && r.prefix <= |target.bits|
    && forall k :: 0 <= k < r.prefix ==> r.destination.bits[k] == target.bits[k]
  }

  /** A longer prefix, then table 254, then the lower metric, none counting as zero, then the place in the listing. */
  predicate Earlier(routes: seq<Route>, i: nat, j: nat)
    requires i < |routes| && j < |routes|
  {
    var a, b := routes[i], routes[j];
    var m, n := if a.metric.Some? then a.metric.value else 0, if b.metric.Some? then b.metric.value else 0;
    if a.prefix != b.prefix then a.prefix > b.prefix
    else if (a.table == 254) != (b.table == 254) then a.table == 254
    else if m != n then m < n
    else i < j
  }

  predicate Carries(routes: seq<Route>, target: Ip, i: nat, iface: nat) {
    i < |routes| && Reaches(routes[i], target) && routes[i].ifIndex == Some(iface)
  }

  ghost predicate Outranks(routes: seq<Route>, target: Ip, x: nat, y: nat) {
    exists a: nat :: Carries(routes, target, a, x) && forall b: nat :: Carries(routes, target, b, y) ==> Earlier(routes, a, b)
  }

  /** Every interface with a route to the target except the TUN, each once, ordered by its earliest route. */
  ghost predicate RanksRoutes(routes: seq<Route>, target: Ip, tun: Option<nat>, out: seq<nat>) {
    && (forall i, j :: 0 <= i < j < |out| ==> out[i] != out[j])
    && (forall x: nat :: x in out <==> tun != Some(x) && exists a: nat :: Carries(routes, target, a, x))
    && (forall i, j :: 0 <= i < j < |out| ==> Outranks(routes, target, out[i], out[j]))
  }

  lemma MatchIsReach(r: Route, target: Ip)
    ensures RouteMatch(r, target).Some? <==> Reaches(r, target)
    ensures Reaches(r, target) ==>
              var m := RouteMatch(r, target).value;
              r.ifIndex == Some(m.ifIndex) && m.prefix == r.prefix && m.main == (r.table == 254) && m.metric == r.metric
  {
    if r.prefix <= Width(r.destination.family) {
      assert r.destination.bits[..r.prefix] <= target.bits <==>
        r.prefix <= |target.bits| && r.destination.bits[..r.prefix] == target.bits[..r.prefix];
    }
  }

  /** `at` says where in the listing each match stands. */
  ghost predicate Places(routes: seq<Route>, target: Ip, ms: seq<Match>, at: seq<nat>) {
    && |at| == |ms|
    && (forall k :: 0 <= k < |at| ==> at[k] < |routes| && RouteMatch(routes[at[k]], target) == Some(ms[k]))
    && (forall k, l :: 0 <= k < l < |at| ==> at[k] < at[l])
    && (forall i: nat :: i < |routes| && RouteMatch(routes[i], target).Some? ==> i in at)
  }

  lemma {:induction false} PlacesOneMore(routes: seq<Route>, target: Ip, ms: seq<Match>, before: seq<nat>, ms': seq<Match>, at: seq<nat>)
    requires routes != [] && Places(routes[..|routes| - 1], target, ms, before)
    requires var m := RouteMatch(routes[|routes| - 1], target);
             if m.Some? then ms' == ms + [m.value] && at == before + [|routes| - 1] else ms' == ms && at == before
    ensures Places(routes, target, ms', at)
  {
    var n := |routes| - 1;
    forall i: nat | i < |routes| && RouteMatch(routes[i], target).Some?
      ensures i in at
    {
      if i == n {
        assert at[|before|] == n;
      } else {
        assert routes[i] == routes[..n][i];
        assert i in before;
      }
    }
  }

  lemma {:induction false} PlacesOfMatches(routes: seq<Route>, target: Ip) returns (at: seq<nat>)
    ensures Places(routes, target, FlatMap(Matching(target), routes), at)
  {
    at := [];
    if routes != [] {
      var n := |routes| - 1;
      var before := PlacesOfMatches(routes[..n], target);
      assert routes == routes[..n] + [routes[n]];
      FlatMapAppend(Matching(target), routes[..n], [routes[n]]);
      FlatMapOne(Matching(target), routes[n]);
      at := if RouteMatch(routes[n], target).Some? then before + [n] else before;
      PlacesOneMore(routes, target, FlatMap(Matching(target), routes[..n]), before, FlatMap(Matching(target), routes), at);
    }
  }

  lemma {:induction false} PrecedesIsEarlier(routes: seq<Route>, target: Ip, ms: seq<Match>, at: seq<nat>, k: nat, l: nat)
    requires Places(routes, target, ms, at) && k < |ms| && l < |ms| && Precedes(ms, k, l)
    ensures Earlier(routes, at[k], at[l])
  {
    MatchIsReach(routes[at[k]], target);
    MatchIsReach(routes[at[l]], target);
    if k > l {
      assert at[l] < at[k];
    } else if k < l {
      assert at[k] < at[l];
    }
  }

  lemma {:induction false} ViaIsCarries(routes: seq<Route>, target: Ip, ms: seq<Match>, at: seq<nat>, i: nat, x: nat) returns (k: nat)
    requires Places(routes, target, ms, at) && Carries(routes, target, i, x)
    ensures Via(ms, k, x) && at[k] == i
  {
    MatchIsReach(routes[i], target);
    assert i in at;
    k :| 0 <= k < |at| && at[k] == i;
  }

  lemma {:induction false} CarriesIsVia(routes: seq<Route>, target: Ip, ms: seq<Match>, at: seq<nat>, k: nat, x: nat)
    requires Places(routes, target, ms, at) && Via(ms, k, x)
    ensures Carries(routes, target, at[k], x)
  {
    MatchIsReach(routes[at[k]], target);
  }

  lemma {:induction false} BeatsIsOutranks(routes: seq<Route>, target: Ip, ms: seq<Match>, at: seq<nat>, x: nat, y: nat)
    requires Places(routes, target, ms, at) && Beats(ms, x, y)
    ensures Outranks(routes, target, x, y)
  {
    var a: nat :| Via(ms, a, x) && forall b: nat :: Via(ms, b, y) ==> Precedes(ms, a, b);
    CarriesIsVia(routes, target, ms, at, a, x);
    forall i: nat | Carries(routes, target, i, y)
      ensures Earlier(routes, at[a], i)
    {
      var b := ViaIsCarries(routes, target, ms, at, i, y);
      PrecedesIsEarlier(routes, target, ms, at, a, b);
    }
  }

  /** A ranking of the matches ranks the routes. */
  lemma {:induction false} RankingOfRoutes(routes: seq<Route>, target: Ip, tun: Option<nat>, out: seq<nat>)
    requires IsRanking(FlatMap(Matching(target), routes), tun, out)
    ensures RanksRoutes(routes, target, tun, out)
  {
    var ms := FlatMap(Matching(target), routes);
    var at := PlacesOfMatches(routes, target);
    forall x: nat
      ensures x in out <==> tun != Some(x) && exists i: nat :: Carries(routes, target, i, x)
    {
      if a: nat :| Via(ms, a, x) {
        CarriesIsVia(routes, target, ms, at, a, x);
      }
      if i: nat :| Carries(routes, target, i, x) {
        var a := ViaIsCarries(routes, target, ms, at, i, x);
      }
    }
    forall i, j | 0 <= i < j < |out|
      ensures Outranks(routes, target, out[i], out[j])
    {
      BeatsIsOutranks(routes, target, ms, at, out[i], out[j]);
    }
  }

  /** Ranks the interfaces other than the TUN that have a route to `target`. */
  method MatchingRouteIndexes(routes: seq<Route>, target: Ip, tun: Option<nat>) returns (out: seq<nat>)
    ensures IsRanking(FlatMap(Matching(target), routes), tun, out)
    ensures RanksRoutes(routes, target, tun, out)
  {
    var ms: seq<Match> := [];
    for i := 0 to |routes|
      invariant ms == FlatMap(Matching(target), routes[..i])
    {
      assert routes[..i+1][..i] == routes[..i];
      match RouteMatch(routes[i], target) {
        case Some(m) => ms := ms + [m];
        case None =>
      }
    }
    assert routes[..|routes|] == routes;
    ghost var at, first;
    var sorted;
    sorted, at := SortStable(ms);
    out, first := Dedupe(sorted, tun);
    DedupedIsRanking(ms, at, sorted, tun, out, first);
    RankingOfRoutes(routes, target, tun, out);
  }
}
