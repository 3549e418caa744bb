/** How much the two actors still have to handle, and that handling it ends (src/orch.rs, src/dns.rs). */
module Progress {
  import opened Base
  import opened Sequences
  import opened Peers
  import opened PeerRules
  import opened Orch
  import opened ControlPlane
  import Dns

  /** The turns an event can cost: an edit is handled, its hostnames are received, and their snapshot is handled. */
  function Cost(e: Event): nat {
    if e.Post? || e.Delete? then 3 else 1
  }

  function Costs(inbox: seq<Event>): nat {
    if inbox == [] then 0 else Costs(inbox[..|inbox|-1]) + Cost(inbox[|inbox|-1])
  }

  /** A bound on the turns needed to handle everything that is queued. */
  function Work(s: System): nat {
    2 * |s.orch.toDns| + Costs(s.inbox)
  }

  /** An actor takes a message out of its inbox. */
  predicate IsTurn(step: Step) {
    step.OrchEvent? || step.DnsReceive?
  }

  function Turns(steps: seq<Step>): nat {
    if steps == [] then 0 else Turns(steps[..|steps|-1]) + if IsTurn(steps[|steps|-1]) then 1 else 0
  }

  /** What a step adds from outside the two inboxes. */
  function Load(step: Step): nat {
    match step
    case Arrive(e) => Cost(e)
    case DialDone(_, _, _) => 1
    case DnsTurn(_) => 1
    case _ => 0
  }

  function Loads(steps: seq<Step>): nat {
    if steps == [] then 0 else Loads(steps[..|steps|-1]) + Load(steps[|steps|-1])
  }

  lemma {:induction false} CostsPush(inbox: seq<Event>, e: Event)
    ensures Costs(inbox + [e]) == Costs(inbox) + Cost(e)
  {
    assert (inbox + [e])[..|inbox|] == inbox;
  }

  lemma {:induction false} CostsPop(inbox: seq<Event>)
    requires inbox != []
    ensures Costs(inbox) == Cost(inbox[0]) + Costs(inbox[1..])
  {
    if |inbox| > 1 {
      var init := inbox[..|inbox|-1];
      CostsPop(init);
      assert inbox[1..][..|inbox|-2] == init[1..];
    }
  }

  /** An event sends hostnames at most once, and only if it is an edit. */
  lemma HandledSends(o: Orch.State, e: Event, b: Backoff, closed: set<Chan>, now: Time)
    ensures var o' := Handled(o, e, b, closed, now);
            2 * |o'.toDns| < 2 * |o.toDns| + Cost(e)
  {
  }

  lemma {:induction false} DeliverAddsOne(s: System, e: Dns.Event, p: Params)
    ensures Work(Deliver(s, e, p)) <= Work(s) + 1 && Deliver(s, e, p).orch == s.orch
  {
    var out := Dns.Next(s.dns, p.dns, e, s.now).1;
    if out.Some? {
      CostsPush(s.inbox, Snapshot(out.value));
    } else {
      assert Deliver(s, e, p).inbox == s.inbox;
    }
  }

  /** A turn takes at least one off the work; any other step adds at most its load. */
  lemma {:induction false} StepWork(s: System, step: Step, p: Params)
    requires CanStep(s, step)
    ensures Work(After(s, step, p)) + (if IsTurn(step) then 1 else 0) <= Work(s) + Load(step)
  {
    match step
    case Arrive(e) => CostsPush(s.inbox, e);
    case DialDone(k, i, tx) => CostsPush(s.inbox, Report(k, TasksFor(s.orch.dialing, k)[i], tx));
    case OrchEvent =>
      CostsPop(s.inbox);
      HandledSends(s.orch, s.inbox[0], p.backoff, s.closed, s.now);
    case DnsReceive =>
      DeliverAddsOne(s.(orch := s.orch.(toDns := s.orch.toDns[1..])), Dns.Hostnames(s.orch.toDns[0]), p);
    case DnsTurn(e) => DeliverAddsOne(s, e, p);
    case _ =>
  }

  /** The step is paid for by the work before it and its own load. */
  ghost predicate Paid(s: System, step: Step, t: System) {
    Work(t) + (if IsTurn(step) then 1 else 0) <= Work(s) + Load(step)
  }

  lemma {:induction false} RunPays(run: seq<System>, steps: seq<Step>, configs: map<string, Peer>, p: Params, x: nat)
    requires IsRun(run, steps, configs, p) && x < |steps|
    ensures Paid(run[x], steps[x], run[x + 1])
  {
    assert Follows(p)(run[x], steps[x], run[x + 1]);
    StepWork(run[x], steps[x], p);
  }

  lemma TurnsGrow(steps: seq<Step>, i: nat, j: nat)
    requires i <= j < |steps|
    ensures Turns(steps[i..j + 1]) == Turns(steps[i..j]) + if IsTurn(steps[j]) then 1 else 0
    ensures Loads(steps[i..j + 1]) == Loads(steps[i..j]) + Load(steps[j])
  {
    assert steps[i..j + 1][..j - i] == steps[i..j];
  }

  lemma {:induction false} PaidAlong(run: seq<System>, steps: seq<Step>, i: nat, j: nat)
    requires i <= j < |run| == |steps| + 1 && forall x :: i <= x < j ==> Paid(run[x], steps[x], run[x + 1])
    ensures Turns(steps[i..j]) + Work(run[j]) <= Work(run[i]) + Loads(steps[i..j])
  {
    if i < j {
      PaidAlong(run, steps, i, j - 1);
      assert Paid(run[j - 1], steps[j - 1], run[j - 1 + 1]);
      TurnsGrow(steps, i, j - 1);
    }
  }

  /** In every run, the turns taken and the work left never exceed the work there was and what arrived since. */
  lemma {:induction false} TurnsAreBounded(run: seq<System>, steps: seq<Step>, configs: map<string, Peer>, p: Params, i: nat, j: nat)
    requires IsRun(run, steps, configs, p) && i <= j < |run|
    ensures Turns(steps[i..j]) + Work(run[j]) <= Work(run[i]) + Loads(steps[i..j])
  {
    forall x | i <= x < j
      ensures Paid(run[x], steps[x], run[x + 1])
    {
      RunPays(run, steps, configs, p, x);
    }
    PaidAlong(run, steps, i, j);
  }

  lemma {:induction false} NoWorkIsQuiescent(s: System)
    ensures Work(s) == 0 <==> s.orch.toDns == [] && s.inbox == []
    ensures Work(s) == 0 ==> Quiescent(s)
    ensures Work(s) > 0 ==> CanStep(s, OrchEvent) || CanStep(s, DnsReceive)
  {
  }

  /** Once arrivals stop, as many turns as there was work lead to quiescence, whatever else happens between them. */
  lemma EnoughTurnsSettle(run: seq<System>, steps: seq<Step>, configs: map<string, Peer>, p: Params, i: nat, j: nat)
    requires IsRun(run, steps, configs, p) && i <= j < |run| && Loads(steps[i..j]) == 0 && Turns(steps[i..j]) >= Work(run[i])
    ensures Quiescent(run[j]) && run[j].inbox == []
  {
    TurnsAreBounded(run, steps, configs, p, i, j);
    NoWorkIsQuiescent(run[j]);
  }

  /** Every run can be continued to quiescence by turns alone, and takes no more of them than there is work. */
  lemma {:induction false} EveryRunSettles(run: seq<System>, steps: seq<Step>, configs: map<string, Peer>, p: Params)
    returns (run': seq<System>, steps': seq<Step>)
    requires IsRun(run, steps, configs, p)
    ensures IsRun(run', steps', configs, p) && run <= run' && steps <= steps'
    ensures Quiescent(run'[|steps'|]) && run'[|steps'|].inbox == [] && run'[|steps'|].now == run[|steps|].now
    ensures |steps'| <= |steps| + Work(run[|steps|])
    decreases Work(run[|steps|])
  {
    var s := run[|steps|];
    NoWorkIsQuiescent(s);
    if Work(s) == 0 {
      run', steps' := run, steps;
    } else {
      var step := if CanStep(s, OrchEvent) then OrchEvent else DnsReceive;
      var t := After(s, step, p);
      StepWork(s, step, p);
      assert Follows(p)(s, step, t);
      ChainGrows(Follows(p), run, steps, step, t);
      assert (run + [t])[0] == run[0] && (run + [t])[|steps + [step]|] == t;
      run', steps' := EveryRunSettles(run + [t], steps + [step], configs, p);
    }
  }
}
