/** The resolver's handlers performed in place on its fields, proved against module `Dns`. */
module DnsActor {
  import opened Base
  import opened Net
  import opened Dns

  class Resolver {
    const tuning: Tuning
    var hostnames: map<string, HostState>
    var queued: set<Query>
    var pending: set<Query>
    var tasks: multiset<Query>
    var dirty: bool
    /** Snapshots sent to the owner, oldest first. */
    var sent: seq<View>

    function Value(): State
      reads this
    {
      State(hostnames, queued, pending, tasks, dirty)
    }

    constructor (tuning: Tuning)
      ensures Value() == INIT && sent == [] && this.tuning == tuning
    {
      this.tuning := tuning;
      hostnames, queued, pending, tasks, dirty, sent := map[], {}, {}, multiset{}, false, [];
    }

    method RetainHostnames(hosts: set<string>)
      modifies this`hostnames, this`queued, this`dirty
      ensures hostnames == (map h | h in old(hostnames) && h in hosts :: old(hostnames)[h])
      ensures queued == (set q | q in old(queued) && q.host in hosts)
      ensures dirty == (old(dirty) || !(old(hostnames).Keys <= hosts))
    {
      var removed := set h | h in hostnames && h !in hosts;
      assert forall h :: h in hostnames.Keys && h !in hosts <==> h in removed;
      hostnames := map h | h in hostnames && h in hosts :: hostnames[h];
      if removed != {} {
        dirty := true;
      }
      queued := set q | q in queued && q.host in hosts;
    }

    method AddHostnames(hosts: set<string>, now: Time)
      modifies this`hostnames, this`dirty
      ensures hostnames.Keys == old(hostnames).Keys + hosts
      ensures forall h :: h in hostnames ==>
                hostnames[h] == if h in old(hostnames) then old(hostnames)[h] else HostState(map[], now)
      ensures dirty == (old(dirty) || !(hosts <= old(hostnames).Keys))
    {
      var done: set<string> := {};
      while done != hosts
        invariant done <= hosts && hostnames.Keys == old(hostnames).Keys + done
        invariant forall h :: h in hostnames ==>
                    hostnames[h] == if h in old(hostnames) then old(hostnames)[h] else HostState(map[], now)
        invariant dirty == (old(dirty) || !(done <= old(hostnames).Keys))
        decreases hosts - done
      {
        var h :| h in hosts && h !in done;
        if h !in hostnames {
          dirty := true;
          hostnames := hostnames[h := HostState(map[], now)];
        }
        done := done + {h};
      }
    }

    method SetHostnames(hosts: set<string>, now: Time)
      modifies this`hostnames, this`queued, this`dirty
      ensures Value() == Registered(old(Value()), hosts, now)
    {
      RetainHostnames(hosts);
      ghost var kept := hostnames.Keys;
      AddHostnames(hosts, now);
      assert kept == old(hostnames).Keys * hosts;
      assert hostnames == Registered(old(Value()), hosts, now).hostnames;
    }

    method RecordIp(host: string, ip: Ip, ttl: nat, now: Time)
      modifies this`hostnames, this`dirty
      ensures Value() == Recorded(old(Value()), tuning, host, ip, ttl, now)
    {
      if host !in hostnames {
        return;
      }
      var entry := hostnames[host];
      if ip !in entry.ips {
        dirty := true;
      }
      hostnames := hostnames[host := entry.(ips := entry.ips[ip := Expiry(tuning, ttl, now)])];
    }

    method HandleResponse(host: string, ttls: map<Ip, nat>, now: Time)
      modifies this`hostnames, this`dirty
      ensures Value() == RecordedAll(old(Value()), tuning, host, ttls, now)
    {
      var todo := ttls.Keys;
      ghost var done: map<Ip, nat> := map[];
      RecordNothing(Value(), tuning, host, now);
      while todo != {}
        invariant todo <= ttls.Keys && done.Keys == ttls.Keys - todo
        invariant forall ip :: ip in done ==> done[ip] == ttls[ip]
        invariant Value() == RecordedAll(old(Value()), tuning, host, done, now)
        decreases todo
      {
        var ip :| ip in todo;
        RecordOneMore(old(Value()), tuning, host, done, ip, ttls[ip], now);
        RecordIp(host, ip, ttls[ip], now);
        done := done[ip := ttls[ip]];
        todo := todo - {ip};
      }
      assert done == ttls;
    }

    method ExpireHost(h: string, now: Time)
      requires h in hostnames
      modifies this`hostnames, this`dirty
      ensures hostnames == old(hostnames)[h := old(hostnames)[h].(ips := Fresh(old(hostnames)[h].ips, now))]
      ensures dirty == (old(dirty) || Fresh(old(hostnames)[h].ips, now) != old(hostnames)[h].ips)
    {
      var entry := hostnames[h];
      var expired := set ip | ip in entry.ips && entry.ips[ip] <= now;
      hostnames := hostnames[h := entry.(ips := entry.ips - expired)];
      assert entry.ips - expired == Fresh(entry.ips, now);
      if expired != {} {
        dirty := true;
        assert exists ip :: ip in expired && ip !in Fresh(entry.ips, now);
      } else {
        assert Fresh(entry.ips, now) == entry.ips;
      }
    }

    method ExpireStale(now: Time)
      modifies this`hostnames, this`dirty
      ensures Value() == ExpiredAt(old(Value()), now)
    {
      var keys := hostnames.Keys;
      var done: set<string> := {};
      while done != keys
        invariant done <= keys == hostnames.Keys == old(hostnames).Keys
        invariant forall h :: h in keys ==>
                    hostnames[h] == if h in done then old(hostnames)[h].(ips := Fresh(old(hostnames)[h].ips, now)) else old(hostnames)[h]
        invariant dirty == (old(dirty) || exists h :: h in done && Fresh(old(hostnames)[h].ips, now) != old(hostnames)[h].ips)
        decreases keys - done
      {
        var h :| h in keys && h !in done;
        ExpireHost(h, now);
        done := done + {h};
      }
      assert hostnames == ExpiredAt(old(Value()), now).hostnames;
    }

    method RefreshHost(h: string, now: Time)
      requires h in hostnames
      modifies this`hostnames, this`queued
      ensures hostnames == old(hostnames)[h := RefreshedHost(tuning, h, old(hostnames)[h], now)]
      ensures forall q :: q in queued <==>
                q in old(queued) || (q.host == h && q !in pending && Due(tuning, h, old(hostnames)[h], now))
    {
      forall q: Query | q.host == h
        ensures q == Query(h, A) || q == Query(h, AAAA)
      {
        assert q.rtype.A? || q.rtype.AAAA?;
      }
      if Due(tuning, h, hostnames[h], now) {
        hostnames := hostnames[h := hostnames[h].(nextRefreshAt := now + tuning.refreshInterval)];
        if Query(h, A) !in pending {
          queued := queued + {Query(h, A)};
        }
        if Query(h, AAAA) !in pending {
          queued := queued + {Query(h, AAAA)};
        }
      }
    }

    method TriggerRefresh(now: Time)
      modifies this`hostnames, this`queued
      ensures Value() == Refreshed(old(Value()), tuning, now)
    {
      var keys := hostnames.Keys;
      var done: set<string> := {};
      while done != keys
        invariant done <= keys == hostnames.Keys == old(hostnames).Keys
        invariant forall h :: h in keys ==>
                    hostnames[h] == if h in done then RefreshedHost(tuning, h, old(hostnames)[h], now) else old(hostnames)[h]
        invariant forall q :: q in queued <==>
                    q in old(queued) || (q.host in done && q !in pending && Due(tuning, q.host, old(hostnames)[q.host], now))
        decreases keys - done
      {
        var h :| h in keys && h !in done;
        RefreshHost(h, now);
        done := done + {h};
      }
      DueQueriesMember(old(Value()), tuning, now);
      assert hostnames == Refreshed(old(Value()), tuning, now).hostnames;
    }

    method HandleSetHostnames(hosts: set<string>, now: Time)
      modifies this`hostnames, this`queued, this`dirty
      ensures Value() == WithHostnames(old(Value()), tuning, hosts, now)
    {
      SetHostnames(hosts, now);
      ghost var reg := hostnames;
      var todo := hosts;
      while todo != {}
        invariant todo <= hosts == hostnames.Keys
        invariant queued == Registered(old(Value()), hosts, now).queued
        invariant forall h :: h in hosts ==>
                    hostnames[h] == if h in todo then reg[h] else WithLiteral(tuning, h, reg[h], now)
        decreases todo
      {
        var h :| h in todo;
        match tuning.literal(h) {
          case Some(ip) => RecordIp(h, ip, LITERAL_TTL, now);
          case None =>
        }
        todo := todo - {h};
      }
      dirty := true;
      assert Value() == Literals(Registered(old(Value()), hosts, now), tuning, now);
      TriggerRefresh(now);
    }

    method SpawnQuery(q: Query)
      requires q in queued
      modifies this`queued, this`pending, this`tasks
      ensures Value() == Spawned(old(Value()), q)
    {
      queued := queued - {q};
      tasks := tasks + multiset{q};
      pending := pending + {q};
    }

    method HandleQueryResult(q: Query, outcome: Outcome, now: Time)
      requires q in tasks
      modifies this`hostnames, this`queued, this`pending, this`tasks, this`dirty
      ensures Value() == Answered(old(Value()), tuning, q, outcome, now)
    {
      tasks := tasks - multiset{q};
      pending := pending - {q};
      if q.host !in hostnames {
        return;
      }
      match outcome {
        case Records(ttls) => HandleResponse(q.host, ttls, now);
        case Failed => queued := queued + {q};
      }
    }

    method EmitSnapshot()
      modifies this`dirty, this`sent
      ensures Value() == Emitted(old(Value())).0
      ensures sent == old(sent) + match Emitted(old(Value())).1 { case Some(v) => [v] case None => [] }
    {
      if !dirty {
        return;
      }
      dirty := false;
      sent := sent + [ViewOf(Value())];
    }

    /** One turn of the run loop: the chosen arm, then the snapshot. */
    method Turn(e: Event, now: Time)
      requires Enabled(Value(), e)
      modifies this
      ensures Value() == Next(old(Value()), tuning, e, now).0
      ensures sent == old(sent) + match Next(old(Value()), tuning, e, now).1 { case Some(v) => [v] case None => [] }
    {
      match e {
        case Hostnames(hosts) => HandleSetHostnames(hosts, now);
        case TaskDone(q, outcome) => HandleQueryResult(q, outcome, now);
        case RefreshTick =>
          TriggerRefresh(now);
          ExpireStale(now);
        case QueryTick(q) => SpawnQuery(q);
      }
      assert Value() == Handled(old(Value()), tuning, e, now);
      EmitSnapshot();
    }
  }

  lemma RenewOneMore(t: Tuning, ips: map<Ip, Time>, done: map<Ip, nat>, ip: Ip, ttl: nat, now: Time)
    ensures Renewed(t, ips, done[ip := ttl], now) == Renewed(t, ips, done, now)[ip := Expiry(t, ttl, now)]
  {
    var left := Renewed(t, ips, done[ip := ttl], now);
    var right := Renewed(t, ips, done, now)[ip := Expiry(t, ttl, now)];
    assert left.Keys == right.Keys;
    forall x | x in left
      ensures left[x] == right[x]
    {
    }
  }

  lemma RecordNothing(s: State, t: Tuning, host: string, now: Time)
    ensures RecordedAll(s, t, host, map[], now) == s
  {
    if host in s.hostnames {
      assert Renewed(t, s.hostnames[host].ips, map[], now) == s.hostnames[host].ips;
      assert s.hostnames[host := s.hostnames[host]] == s.hostnames;
    }
  }

  lemma RecordOneMore(s: State, t: Tuning, host: string, done: map<Ip, nat>, ip: Ip, ttl: nat, now: Time)
    ensures Recorded(RecordedAll(s, t, host, done, now), t, host, ip, ttl, now)
         == RecordedAll(s, t, host, done[ip := ttl], now)
  {
    if host in s.hostnames {
      var ips := s.hostnames[host].ips;
      RenewOneMore(t, ips, done, ip, ttl, now);
      assert Renewed(t, ips, done, now).Keys == ips.Keys + done.Keys;
      assert (done[ip := ttl]).Keys == done.Keys + {ip};
      var x := s.hostnames[host].(ips := Renewed(t, ips, done, now));
      var y := s.hostnames[host].(ips := Renewed(t, ips, done[ip := ttl], now));
      assert s.hostnames[host := x][host := y] == s.hostnames[host := y];
    }
  }

  lemma DueQueriesMember(s: State, t: Tuning, now: Time)
    ensures forall q :: q in DueQueries(s, t, now) <==> q.host in s.hostnames && Due(t, q.host, s.hostnames[q.host], now)
  {
    forall q: Query | q.host in s.hostnames && Due(t, q.host, s.hostnames[q.host], now)
      ensures q in DueQueries(s, t, now)
    {
      assert q.rtype.A? || q.rtype.AAAA?;
      assert Query(q.host, q.rtype) in DueQueries(s, t, now);
    }
  }
}
