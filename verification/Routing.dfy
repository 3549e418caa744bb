/** The routing table (src/router.rs); the trie is a map from prefixes without host bits. */
module Routing {
  import opened Base
  import opened Net
  import opened Peers

  const LOCAL_PEER_ID: string := "__local__"

  datatype RouteEntry = RouteEntry(peer: string, tx: Chan)

  datatype RouteMatch = RouteMatch(prefix: Prefix, entry: RouteEntry)

  datatype RoutingError = ConflictingPrefix(prefix: IpNet, existing: string, rejected: string)

  type Trie = map<Prefix, RouteEntry>

  // ----- lookup ------------------------------------------------------------------

  function LongestUpTo(trie: Trie, ip: Ip, len: nat): Option<RouteMatch>
    requires len <= |ip.bits|
  {
    var p := Prefix(ip.family, ip.bits[..len]);
    if p in trie then Some(RouteMatch(p, trie[p]))
    else if len == 0 then None
    else LongestUpTo(trie, ip, len - 1)
  }

  function Lookup(trie: Trie, ip: Ip): Option<RouteMatch> {
    LongestUpTo(trie, ip, |ip.bits|)
  }

  lemma {:induction false} LongestUpToIsLongest(trie: Trie, ip: Ip, len: nat)
    requires len <= |ip.bits|
    ensures match LongestUpTo(trie, ip, len)
            case Some(m) =>
              && m.prefix in trie && trie[m.prefix] == m.entry && InPrefix(m.prefix, ip)
              && (forall p :: p in trie && InPrefix(p, ip) && |p.bits| <= len && p != m.prefix ==> |p.bits| < |m.prefix.bits|)
            case None => forall p :: p in trie && |p.bits| <= len ==> !InPrefix(p, ip)
  {
    forall p | p in trie && InPrefix(p, ip) && |p.bits| == len
      ensures p == Prefix(ip.family, ip.bits[..len])
    {
    }
    if Prefix(ip.family, ip.bits[..len]) !in trie && len > 0 {
      LongestUpToIsLongest(trie, ip, len - 1);
    }
  }

  /** The unique longest prefix of the table that contains the address, if any does. */
  lemma LookupIsLongestMatch(trie: Trie, ip: Ip)
    ensures match Lookup(trie, ip)
            case Some(m) =>
              && m.prefix in trie && trie[m.prefix] == m.entry && InPrefix(m.prefix, ip)
              && (forall p :: p in trie && InPrefix(p, ip) && p != m.prefix ==> |p.bits| < |m.prefix.bits|)
            case None => forall p :: p in trie ==> !InPrefix(p, ip)
  {
    LongestUpToIsLongest(trie, ip, |ip.bits|);
  }

  // ----- insertion, one claim after the other ----------------------------------------

  datatype Claim = Claim(net: IpNet, entry: RouteEntry)

  function Inserted(trie: Trie, c: Claim): Result<Trie, RoutingError> {
    var p := Canonical(c.net);
    if p !in trie then Ok(trie[p := c.entry])
    else if trie[p].peer == c.entry.peer then Ok(trie)
    else Err(ConflictingPrefix(c.net, trie[p].peer, c.entry.peer))
  }

  function InsertedAll(claims: seq<Claim>): Result<Trie, RoutingError> {
    if claims == [] then Ok(map[])
    else match InsertedAll(claims[..|claims|-1]) {
      case Err(e) => Err(e)
      case Ok(trie) => Inserted(trie, claims[|claims|-1])
    }
  }

  function PeerClaims(p: Peer, tx: Chan): seq<Claim> {
    seq(|p.allowed|, i requires 0 <= i < |p.allowed| => Claim(p.allowed[i], RouteEntry(p.id, tx)))
  }

  /** What the peers with a channel ask for, in order. */
  function Claims(peers: seq<Peer>, txs: map<string, Chan>): seq<Claim> {
    if peers == [] then [] else
      var p := peers[|peers|-1];
      Claims(peers[..|peers|-1], txs) + if p.id in txs then PeerClaims(p, txs[p.id]) else []
  }

  /** Local host routes are added where no route for the same prefix exists yet. */
  function WithLocal(trie: Trie, addrs: seq<IpNet>, input: Chan): Trie {
    if addrs == [] then trie else
      var t := WithLocal(trie, addrs[..|addrs|-1], input);
      var p := Canonical(HostNet(addrs[|addrs|-1].addr));
      if p in t then t else t[p := RouteEntry(LOCAL_PEER_ID, input)]
  }

  function Made(peers: seq<Peer>, txs: map<string, Chan>, addrs: seq<IpNet>, input: Chan): Result<Trie, RoutingError> {
    match InsertedAll(Claims(peers, txs))
    case Err(e) => Err(e)
    case Ok(trie) => Ok(WithLocal(trie, addrs, input))
  }

  class RoutingTable {
    var trie: Trie

    constructor ()
      ensures trie == map[]
    {
      trie := map[];
    }

    method Insert(net: IpNet, entry: RouteEntry) returns (r: Result<(), RoutingError>)
      modifies this
      ensures match Inserted(old(trie), Claim(net, entry))
              case Ok(t) => r == Ok(()) && trie == t
              case Err(e) => r == Err(e) && trie == old(trie)
    {
      var p := Canonical(net);
      if p in trie {
        if trie[p].peer == entry.peer {
          return Ok(());
        }
        return Err(ConflictingPrefix(net, trie[p].peer, entry.peer));
      }
      trie := trie[p := entry];
      return Ok(());
    }

    /** Inserts a peer's prefixes until one conflicts; `made` is what was inserted before. */
    method InsertPeer(p: Peer, tx: Chan, ghost made: seq<Claim>) returns (r: Result<(), RoutingError>)
      requires InsertedAll(made) == Ok(trie)
      modifies this
      ensures match InsertedAll(made + PeerClaims(p, tx))
              case Ok(t) => r == Ok(()) && trie == t
              case Err(e) => r == Err(e)
    {
      ghost var claims := PeerClaims(p, tx);
      assert made + claims[..0] == made;
      for j := 0 to |p.allowed|
        invariant Same(InsertedAll(made + claims[..j]), Ok(trie))
      {
        InsertNext(made, claims, j, trie);
        r := Insert(p.allowed[j], RouteEntry(p.id, tx));
        if r.Err? {
          return r;
        }
      }
      assert claims[..|p.allowed|] == claims;
      return Ok(());
    }

    method InsertLocal(addrs: seq<IpNet>, input: Chan)
      modifies this
      ensures trie == WithLocal(old(trie), addrs, input)
    {
      for k := 0 to |addrs|
        invariant trie == WithLocal(old(trie), addrs[..k], input)
      {
        assert addrs[..k+1][..k] == addrs[..k];
        var _ := Insert(HostNet(addrs[k].addr), RouteEntry(LOCAL_PEER_ID, input));
      }
      assert addrs[..|addrs|] == addrs;
    }

    static method Make(peers: seq<Peer>, txs: map<string, Chan>, addrs: seq<IpNet>, input: Chan)
      returns (table: RoutingTable, r: Result<(), RoutingError>)
      ensures match Made(peers, txs, addrs, input)
              case Ok(t) => r == Ok(()) && table.trie == t
              case Err(e) => r == Err(e)
      ensures fresh(table)
    {
      table := new RoutingTable();
      for i := 0 to |peers|
        invariant fresh(table) && InsertedAll(Claims(peers[..i], txs)) == Ok(table.trie)
      {
        var p := peers[i];
        assert peers[..i+1][..i] == peers[..i];
        if p.id !in txs {
          assert Claims(peers[..i+1], txs) == Claims(peers[..i], txs);
          continue;
        }
        r := table.InsertPeer(p, txs[p.id], Claims(peers[..i], txs));
        if r.Err? {
          ClaimsGrow(peers, txs, i + 1);
          ghost var some, all := Claims(peers[..i+1], txs), Claims(peers, txs);
          FirstErrorWins(some, all[|some|..]);
          assert some + all[|some|..] == all;
          return table, r;
        }
      }
      assert peers[..|peers|] == peers;
      table.InsertLocal(addrs, input);
      return table, Ok(());
    }
  }

  lemma {:induction false} FirstErrorWins(a: seq<Claim>, b: seq<Claim>)
    requires InsertedAll(a).Err?
    ensures InsertedAll(a + b) == InsertedAll(a)
    decreases |b|
  {
    if b == [] {
      assert a + b == a;
    } else {
      assert (a + b)[..|a + b| - 1] == a + b[..|b|-1];
      FirstErrorWins(a, b[..|b|-1]);
    }
  }

  /** The next claim decides: it extends the table, or it is the error of all claims. */
  lemma {:induction false} InsertNext(made: seq<Claim>, claims: seq<Claim>, j: nat, trie: Trie)
    requires j < |claims| && Same(InsertedAll(made + claims[..j]), Ok(trie))
    ensures Same(InsertedAll(made + claims[..j+1]), Inserted(trie, claims[j]))
    ensures Inserted(trie, claims[j]).Err? ==> Same(InsertedAll(made + claims), Inserted(trie, claims[j]))
  {
    var some := made + claims[..j+1];
    assert some[..|some|-1] == made + claims[..j] && some[|some|-1] == claims[j];
    if InsertedAll(some).Err? {
      FirstErrorWins(some, claims[j+1..]);
      assert some + claims[j+1..] == made + claims;
    }
  }

  lemma {:induction false} ClaimsGrow(peers: seq<Peer>, txs: map<string, Chan>, i: nat)
    requires i <= |peers|
    ensures Claims(peers[..i], txs) <= Claims(peers, txs)
    decreases |peers|
  {
    if i == |peers| {
      assert peers[..i] == peers;
    } else {
      var front := peers[..|peers|-1];
      ClaimsGrow(front, txs, i);
      assert front[..i] == peers[..i];
    }
  }

  // ----- what a table holds ---------------------------------------------------------------

  type Pair = (Prefix, RouteEntry)

  function PairOf(c: Claim): Pair {
    (Canonical(c.net), c.entry)
  }

  function Pairs(claims: seq<Claim>): set<Pair> {
    set i | 0 <= i < |claims| :: PairOf(claims[i])
  }

  /** A peer id determines its entry. */
  ghost predicate Uniform(pairs: set<Pair>) {
    forall a, b :: a in pairs && b in pairs && a.1.peer == b.1.peer ==> a.1 == b.1
  }

  ghost predicate Conflicting(pairs: set<Pair>) {
    exists a, b :: a in pairs && b in pairs && a.0 == b.0 && a.1.peer != b.1.peer
  }

  lemma InsertFacts(trie: Trie, c: Claim)
    requires Uniform(trie.Items + {PairOf(c)})
    ensures Inserted(trie, c).Err? <==> Conflicting(trie.Items + {PairOf(c)})
    ensures Inserted(trie, c).Ok? ==> Inserted(trie, c).value.Items == trie.Items + {PairOf(c)}
  {
    var p := Canonical(c.net);
    var all := trie.Items + {PairOf(c)};
    assert PairOf(c) in all;
    if p in trie {
      assert (p, trie[p]) in all;
    } else {
      forall a, b | a in all && b in all && a.0 == b.0
        ensures a.1.peer == b.1.peer
      {
      }
      var t := trie[p := c.entry];
      forall x: Pair
        ensures x in t.Items <==> x in all
      {
        assert x == (x.0, x.1);
      }
    }
  }

  /** Inserting succeeds exactly when no prefix is claimed for two peers, and then the table is the set of claims. */
  lemma {:induction false} InsertedAllFacts(claims: seq<Claim>)
    requires Uniform(Pairs(claims))
    ensures InsertedAll(claims).Err? <==> Conflicting(Pairs(claims))
    ensures InsertedAll(claims).Ok? ==> InsertedAll(claims).value.Items == Pairs(claims)
  {
    if claims != [] {
      var n := |claims| - 1;
      var front := claims[..n];
      assert Pairs(claims) == Pairs(front) + {PairOf(claims[n])} by {
        assert forall i :: 0 <= i < n ==> front[i] == claims[i];
      }
      InsertedAllFacts(front);
      if InsertedAll(front).Ok? {
        InsertFacts(InsertedAll(front).value, claims[n]);
      }
    }
  }

  /** The peer `id`, which has a channel, is allowed prefix `p`. */
  ghost predicate Owns(peers: seq<Peer>, txs: map<string, Chan>, id: string, p: Prefix) {
    id in txs && exists q :: q in peers && q.id == id && Allows(q, p)
  }

  ghost predicate Allows(q: Peer, p: Prefix) {
    exists j :: 0 <= j < |q.allowed| && Canonical(q.allowed[j]) == p
  }

  lemma {:induction false} ClaimPairs(peers: seq<Peer>, txs: map<string, Chan>)
    ensures forall p, e :: (p, e) in Pairs(Claims(peers, txs)) <==> Owns(peers, txs, e.peer, p) && e.tx == txs[e.peer]
  {
    if peers != [] {
      var n := |peers| - 1;
      var front, last := peers[..n], peers[n];
      ClaimPairs(front, txs);
      assert peers == front + [last];
      if last.id in txs {
        var mine := PeerClaims(last, txs[last.id]);
        assert Pairs(Claims(peers, txs)) == Pairs(Claims(front, txs)) + Pairs(mine) by {
          PairsAppend(Claims(front, txs), mine);
        }
        forall p, e
          ensures (p, e) in Pairs(mine) <==> e == RouteEntry(last.id, txs[last.id]) && Allows(last, p)
        {
          if e == RouteEntry(last.id, txs[last.id]) && Allows(last, p) {
            var j :| 0 <= j < |last.allowed| && Canonical(last.allowed[j]) == p;
            assert PairOf(mine[j]) == (p, e);
          }
        }
      }
      if last.id !in txs {
        assert Claims(peers, txs) == Claims(front, txs);
      }
      forall p, e
        ensures (p, e) in Pairs(Claims(peers, txs)) <==> Owns(peers, txs, e.peer, p) && e.tx == txs[e.peer]
      {
        assert e == RouteEntry(e.peer, e.tx);
        OwnsSplit(front, last, txs, e.peer, p);
      }
    }
  }

  lemma OwnsSplit(front: seq<Peer>, last: Peer, txs: map<string, Chan>, id: string, p: Prefix)
    ensures Owns(front + [last], txs, id, p) <==>
              Owns(front, txs, id, p) || (id in txs && last.id == id && Allows(last, p))
  {
    assert forall q :: q in front + [last] <==> q in front || q == last;
  }

  lemma PairsAppend(a: seq<Claim>, b: seq<Claim>)
    ensures Pairs(a + b) == Pairs(a) + Pairs(b)
  {
    forall x | x in Pairs(a) + Pairs(b)
      ensures x in Pairs(a + b)
    {
      if x in Pairs(a) {
        var i :| 0 <= i < |a| && PairOf(a[i]) == x;
        assert (a + b)[i] == a[i];
      } else {
        var i :| 0 <= i < |b| && PairOf(b[i]) == x;
        assert (a + b)[|a| + i] == b[i];
      }
    }
  }

  ghost predicate Disputed(peers: seq<Peer>, txs: map<string, Chan>) {
    exists a, b, p :: a != b && Owns(peers, txs, a, p) && Owns(peers, txs, b, p)
  }

  ghost predicate IsLocal(addrs: seq<IpNet>, p: Prefix) {
    exists k :: 0 <= k < |addrs| && Canonical(HostNet(addrs[k].addr)) == p
  }

  lemma {:induction false} WithLocalFacts(trie: Trie, addrs: seq<IpNet>, input: Chan)
    ensures var t := WithLocal(trie, addrs, input);
            && (forall p :: p in trie ==> p in t && t[p] == trie[p])
            && (forall p :: p !in trie ==> (p in t <==> IsLocal(addrs, p)))
            && (forall p :: p !in trie && p in t ==> t[p] == RouteEntry(LOCAL_PEER_ID, input))
  {
    if addrs != [] {
      var n := |addrs| - 1;
      var front := addrs[..n];
      WithLocalFacts(trie, front, input);
      forall p
        ensures IsLocal(addrs, p) <==> IsLocal(front, p) || Canonical(HostNet(addrs[n].addr)) == p
      {
        if IsLocal(front, p) {
          var k :| 0 <= k < n && Canonical(HostNet(front[k].addr)) == p;
          assert addrs[k] == front[k];
        }
      }
    }
  }

  /** Every route of a table comes from one of its claims. */
  lemma {:induction false} RoutesAreClaimed(claims: seq<Claim>, p: Prefix)
    requires InsertedAll(claims).Ok? && p in InsertedAll(claims).value
    ensures exists i :: 0 <= i < |claims| && Canonical(claims[i].net) == p && claims[i].entry == InsertedAll(claims).value[p]
  {
    var n := |claims| - 1;
    var front := InsertedAll(claims[..n]).value;
    if p in front && front[p] == InsertedAll(claims).value[p] {
      RoutesAreClaimed(claims[..n], p);
      var i :| 0 <= i < n && Canonical(claims[..n][i].net) == p && claims[..n][i].entry == front[p];
      assert claims[i] == claims[..n][i];
    } else {
      assert Canonical(claims[n].net) == p;
    }
  }

  /** The claim at `j` is the first that cannot be inserted: an earlier one gave its prefix to another peer. */
  ghost predicate FirstConflict(claims: seq<Claim>, j: nat, e: RoutingError) {
    && j < |claims| && InsertedAll(claims[..j]).Ok? && claims[j].net == e.prefix && claims[j].entry.peer == e.rejected
    && e.existing != e.rejected
    && exists i :: 0 <= i < j && Canonical(claims[i].net) == Canonical(e.prefix) && claims[i].entry.peer == e.existing
  }

  /** A refused table names the conflict: the network, the peer that had it and the one that came later. */
  lemma {:induction false} ErrorNamesConflict(claims: seq<Claim>) returns (j: nat)
    requires InsertedAll(claims).Err?
    ensures FirstConflict(claims, j, InsertedAll(claims).error)
  {
    var n := |claims| - 1;
    if InsertedAll(claims[..n]).Err? {
      j := ErrorNamesConflict(claims[..n]);
      assert claims[..n][..j] == claims[..j];
      var e := InsertedAll(claims).error;
      var i :| 0 <= i < j && Canonical(claims[..n][i].net) == Canonical(e.prefix) && claims[..n][i].entry.peer == e.existing;
      assert claims[i] == claims[..n][i];
    } else {
      j := n;
      var p := Canonical(claims[n].net);
      RoutesAreClaimed(claims[..n], p);
      var i :| 0 <= i < n && Canonical(claims[..n][i].net) == p && claims[..n][i].entry == InsertedAll(claims[..n]).value[p];
      assert claims[i] == claims[..n][i];
    }
  }

  /**
    Building fails exactly when two distinct peers with channels share a prefix.
    Otherwise each owned prefix leads to its owner, each local host prefix
    nobody owns leads to the TUN, and there is nothing else.
   */
  lemma MadeFacts(peers: seq<Peer>, txs: map<string, Chan>, addrs: seq<IpNet>, input: Chan)
    ensures Made(peers, txs, addrs, input).Err? <==> Disputed(peers, txs)
    ensures Made(peers, txs, addrs, input).Ok? ==>
              var t := Made(peers, txs, addrs, input).value;
              && (forall p, id :: Owns(peers, txs, id, p) ==> p in t && t[p] == RouteEntry(id, txs[id]))
              && (forall p :: p in t ==> Owns(peers, txs, t[p].peer, p) || (IsLocal(addrs, p) && t[p] == RouteEntry(LOCAL_PEER_ID, input)))
              && (forall p :: IsLocal(addrs, p) ==> p in t)
  {
    var pairs := Pairs(Claims(peers, txs));
    ClaimPairs(peers, txs);
    assert Uniform(pairs);
    InsertedAllFacts(Claims(peers, txs));
    if Disputed(peers, txs) {
      var a, b, p :| a != b && Owns(peers, txs, a, p) && Owns(peers, txs, b, p);
      assert (p, RouteEntry(a, txs[a])) in pairs && (p, RouteEntry(b, txs[b])) in pairs;
    } else {
      assert !Conflicting(pairs);
      var t := InsertedAll(Claims(peers, txs)).value;
      WithLocalFacts(t, addrs, input);
      forall p, id | Owns(peers, txs, id, p)
        ensures p in t && t[p] == RouteEntry(id, txs[id])
      {
        assert (p, RouteEntry(id, txs[id])) in t.Items;
      }
      forall p | p in t
        ensures Owns(peers, txs, t[p].peer, p)
      {
        assert (p, t[p]) in t.Items;
      }
    }
  }

  /** The order of peers does not matter, for the outcome or for any entry. */
  lemma PeerOrderIsIrrelevant(peers: seq<Peer>, other: seq<Peer>, txs: map<string, Chan>, addrs: seq<IpNet>, input: Chan)
    requires forall p :: p in peers <==> p in other
    ensures Made(peers, txs, addrs, input).Ok? <==> Made(other, txs, addrs, input).Ok?
    ensures Made(peers, txs, addrs, input).Ok? ==> Made(peers, txs, addrs, input) == Made(other, txs, addrs, input)
  {
    MadeFacts(peers, txs, addrs, input);
    MadeFacts(other, txs, addrs, input);
    assert forall id, p :: Owns(peers, txs, id, p) <==> Owns(other, txs, id, p);
    if Made(peers, txs, addrs, input).Ok? {
      var a, b := Made(peers, txs, addrs, input).value, Made(other, txs, addrs, input).value;
      SameTable(peers, other, txs, addrs, input, a, b);
      SameTable(other, peers, txs, addrs, input, b, a);
      assert a == b;
    }
  }

  lemma SameTable(peers: seq<Peer>, other: seq<Peer>, txs: map<string, Chan>, addrs: seq<IpNet>, input: Chan, a: Trie, b: Trie)
    requires Made(peers, txs, addrs, input) == Ok(a) && Made(other, txs, addrs, input) == Ok(b)
    requires forall id, p :: Owns(peers, txs, id, p) <==> Owns(other, txs, id, p)
    ensures forall p :: p in a ==> p in b && a[p] == b[p]
  {
    MadeFacts(peers, txs, addrs, input);
    MadeFacts(other, txs, addrs, input);
    forall p | p in a
      ensures p in b && a[p] == b[p]
    {
      if !Owns(peers, txs, a[p].peer, p) {
        assert p in b;
      }
    }
  }

  /** A local TUN address resolves locally, unless a peer owns that exact host prefix. */
  lemma LocalAddressesStayLocal(peers: seq<Peer>, txs: map<string, Chan>, addrs: seq<IpNet>, input: Chan, k: nat)
    requires k < |addrs| && Made(peers, txs, addrs, input).Ok?
    ensures var p := Canonical(HostNet(addrs[k].addr));
            match Lookup(Made(peers, txs, addrs, input).value, addrs[k].addr)
            case Some(m) =>
              && m.prefix == p
              && (if exists id :: Owns(peers, txs, id, p) then Owns(peers, txs, m.entry.peer, p)
                  else m.entry == RouteEntry(LOCAL_PEER_ID, input))
            case None => false
  {
    MadeFacts(peers, txs, addrs, input);
    var t, ip := Made(peers, txs, addrs, input).value, addrs[k].addr;
    var p := Canonical(HostNet(ip));
    assert p == Prefix(ip.family, ip.bits[..|ip.bits|]);
    assert IsLocal(addrs, p);
  }
}
