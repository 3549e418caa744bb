/**
  Linked actors (src/actor.rs): a link call is four steps that may interleave with
  other calls and with the monitors of both actors, so the protocol is a state
  machine whose steps are the single channel operations.
 */
module Links {
  import opened Base

  /**
    The monitor of an actor: its task runs, has ended, the link channel is closed
    and being drained (with one received link in hand or none), or the exit has
    been reported. A mailbox has no monitor and its link channel is closed.
   */
  datatype Phase = Running | Exited | Draining(hand: Option<nat>) | Reported | Mailbox

  datatype Actor = Actor(phase: Phase, links: seq<nat>)

  /** Where a call `link(first, second)` stands. */
  datatype Pc = SendFirst | StopSecond | SendSecond | StopFirst | Returned

  datatype Call = Call(first: nat, second: nat, pc: Pc)

  /** `stops` are the actors to which Stop has been sent. */
  datatype State = State(actors: seq<Actor>, calls: seq<Call>, stops: set<nat>)

  datatype Step =
    | Begin(first: nat, second: nat)
    | Advance(call: nat)
    | Exit(actor: nat)
    | CloseLinks(actor: nat)
    | Take(actor: nat)
    | Tell(actor: nat)
    | Report(actor: nat)

  predicate Open(a: Actor) {
    a.phase.Running? || a.phase.Exited?
  }

  predicate Enabled(s: State, step: Step) {
    match step
    case Begin(a, b) => a < |s.actors| && b < |s.actors|
    case Advance(k) => k < |s.calls| && !s.calls[k].pc.Returned? && s.calls[k].first < |s.actors| && s.calls[k].second < |s.actors|
    case Exit(a) => a < |s.actors| && s.actors[a].phase.Running?
    case CloseLinks(a) => a < |s.actors| && s.actors[a].phase.Exited?
    case Take(a) => a < |s.actors| && s.actors[a].phase == Draining(None) && s.actors[a].links != []
    case Tell(a) => a < |s.actors| && s.actors[a].phase.Draining? && s.actors[a].phase.hand.Some?
    case Report(a) => a < |s.actors| && s.actors[a].phase == Draining(None) && s.actors[a].links == []
  }

  function WithPhase(s: State, a: nat, phase: Phase): State
    requires a < |s.actors|
  {
    s.(actors := s.actors[a := s.actors[a].(phase := phase)])
  }

  function WithLink(s: State, a: nat, linked: nat): State
    requires a < |s.actors|
  {
    s.(actors := s.actors[a := s.actors[a].(links := s.actors[a].links + [linked])])
  }

  function WithPc(s: State, k: nat, pc: Pc): State
    requires k < |s.calls|
  {
    s.(calls := s.calls[k := s.calls[k].(pc := pc)])
  }

  /** The next channel operation of a link call. */
  function Advanced(s: State, k: nat): State
    requires Enabled(s, Advance(k))
  {
    var c := s.calls[k];
    match c.pc
    case SendFirst =>
      if Open(s.actors[c.first]) then WithPc(WithLink(s, c.first, c.second), k, SendSecond) else WithPc(s, k, StopSecond)
    case StopSecond => WithPc(s.(stops := s.stops + {c.second}), k, SendSecond)
    case SendSecond =>
      if Open(s.actors[c.second]) then WithPc(WithLink(s, c.second, c.first), k, Returned) else WithPc(s, k, StopFirst)
    case StopFirst => WithPc(s.(stops := s.stops + {c.first}), k, Returned)
  }

  function Next(s: State, step: Step): State
    requires Enabled(s, step)
  {
    match step
    case Begin(a, b) => s.(calls := s.calls + [Call(a, b, SendFirst)])
    case Advance(k) => Advanced(s, k)
    case Exit(a) => WithPhase(s, a, Exited)
    case CloseLinks(a) => WithPhase(s, a, Draining(None))
    case Take(a) =>
      var links := s.actors[a].links;
      s.(actors := s.actors[a := Actor(Draining(Some(links[0])), links[1..])])
    case Tell(a) => WithPhase(s.(stops := s.stops + {s.actors[a].phase.hand.value}), a, Draining(None))
    case Report(a) => WithPhase(s, a, Reported)
  }

  /** Actors that run, or are mailboxes; nothing has been linked or stopped. */
  predicate Initial(s: State) {
    && s.calls == [] && s.stops == {}
    && forall a :: 0 <= a < |s.actors| ==> (s.actors[a].phase.Running? || s.actors[a].phase.Mailbox?) && s.actors[a].links == []
  }

  ghost predicate IsRun(run: seq<State>, steps: seq<Step>) {
    && |run| == |steps| + 1 && Initial(run[0])
    && forall i :: 0 <= i < |steps| ==> Enabled(run[i], steps[i]) && run[i + 1] == Next(run[i], steps[i])
  }

  // ----- safety -------------------------------------------------------------------------

  /** Stop has been sent to `b`, or the monitor of `a` still holds what makes it send it. */
  predicate Promised(s: State, a: nat, b: nat) {
    b in s.stops || (a < |s.actors| && (b in s.actors[a].links || s.actors[a].phase == Draining(Some(b))))
  }

  predicate CallInv(s: State, c: Call) {
    && c.first < |s.actors| && c.second < |s.actors|
    && (c.pc.SendSecond? || c.pc.StopFirst? || c.pc.Returned? ==> Promised(s, c.first, c.second))
    && (c.pc.Returned? ==> Promised(s, c.second, c.first))
  }

  predicate ActorInv(a: Actor) {
    a.phase.Reported? || a.phase.Mailbox? ==> a.links == []
  }

  ghost predicate Inv(s: State) {
    && (forall a :: 0 <= a < |s.actors| ==> ActorInv(s.actors[a]))
    && (forall k :: 0 <= k < |s.calls| ==> CallInv(s, s.calls[k]))
  }

  /** No step withdraws a promise. */
  lemma PromisesLast(s: State, step: Step, a: nat, b: nat)
    requires Enabled(s, step) && Promised(s, a, b)
    ensures Promised(Next(s, step), a, b)
  {
    var t := Next(s, step);
    if a < |s.actors| && b in s.actors[a].links && b !in s.stops {
      if step == Take(a) {
        assert s.actors[a].links == [s.actors[a].links[0]] + s.actors[a].links[1..];
      } else {
        assert s.actors[a].links <= t.actors[a].links;
      }
    }
  }

  lemma AdvanceKeepsCall(s: State, k: nat)
    requires Enabled(s, Advance(k)) && Inv(s)
    ensures var t := Next(s, Advance(k)); CallInv(t, t.calls[k])
  {
    var c := s.calls[k];
    assert CallInv(s, c);
    if !c.pc.SendFirst? && !c.pc.StopSecond? {
      PromisesLast(s, Advance(k), c.first, c.second);
    }
  }

  lemma StepKeepsCalls(s: State, step: Step, k: nat)
    requires Enabled(s, step) && Inv(s) && k < |Next(s, step).calls|
    ensures CallInv(Next(s, step), Next(s, step).calls[k])
  {
    if step == Advance(k) {
      AdvanceKeepsCall(s, k);
    } else if k < |s.calls| {
      var c := s.calls[k];
      assert CallInv(s, c);
      if c.pc.SendSecond? || c.pc.StopFirst? || c.pc.Returned? {
        PromisesLast(s, step, c.first, c.second);
      }
      if c.pc.Returned? {
        PromisesLast(s, step, c.second, c.first);
      }
    }
  }

  lemma StepKeepsInv(s: State, step: Step)
    requires Enabled(s, step) && Inv(s)
    ensures Inv(Next(s, step))
  {
    forall k | 0 <= k < |Next(s, step).calls|
      ensures CallInv(Next(s, step), Next(s, step).calls[k])
    {
      StepKeepsCalls(s, step, k);
    }
    forall a | 0 <= a < |Next(s, step).actors|
      ensures ActorInv(Next(s, step).actors[a])
    {
      assert ActorInv(s.actors[a]);
    }
  }

  lemma {:induction false} RunKeepsInv(run: seq<State>, steps: seq<Step>, i: nat)
    requires IsRun(run, steps) && i < |run|
    ensures Inv(run[i])
  {
    if i > 0 {
      RunKeepsInv(run, steps, i - 1);
      StepKeepsInv(run[i - 1], steps[i - 1]);
    }
  }

  /** A call of `link` on two actors has returned, in either order. */
  ghost predicate Linked(s: State, a: nat, b: nat) {
    exists k :: 0 <= k < |s.calls| && s.calls[k].pc.Returned? &&
      ((s.calls[k].first == a && s.calls[k].second == b) || (s.calls[k].first == b && s.calls[k].second == a))
  }

  /** Whatever the interleaving: once `link` has returned and one of the two is reported, the other has been sent Stop. */
  lemma ReportedStopsLinked(run: seq<State>, steps: seq<Step>, i: nat, a: nat, b: nat)
    requires IsRun(run, steps) && i < |run| && Linked(run[i], a, b)
    ensures a < |run[i].actors| && b < |run[i].actors|
    ensures run[i].actors[a].phase.Reported? ==> b in run[i].stops
    ensures run[i].actors[b].phase.Reported? ==> a in run[i].stops
  {
    RunKeepsInv(run, steps, i);
    var s := run[i];
    var k :| 0 <= k < |s.calls| && s.calls[k].pc.Returned? &&
      ((s.calls[k].first == a && s.calls[k].second == b) || (s.calls[k].first == b && s.calls[k].second == a));
    assert CallInv(s, s.calls[k]);
    assert ActorInv(s.actors[a]) && ActorInv(s.actors[b]);
  }

  // ----- every Stop has a reason -------------------------------------------------------------

  /** Some call, returned or not, joins the two. */
  ghost predicate Joined(s: State, a: nat, b: nat) {
    exists k :: 0 <= k < |s.calls| &&
      ((s.calls[k].first == a && s.calls[k].second == b) || (s.calls[k].first == b && s.calls[k].second == a))
  }

  /** The link channel is closed: the actor is past its end, or is a mailbox. */
  predicate Closed(s: State, a: nat) {
    a < |s.actors| && !s.actors[a].phase.Running? && !s.actors[a].phase.Exited?
  }

  ghost predicate HasReason(s: State, b: nat) {
    exists a :: Closed(s, a) && Joined(s, a, b)
  }

  /** The monitor has taken a link and not yet told it. */
  predicate Holds(a: Actor) {
    a.phase.Draining? && a.phase.hand.Some?
  }

  /** A Stop is sent, or about to be sent, only because of a call with an actor that is closed. */
  ghost predicate ReasonInv(s: State) {
    && (forall b :: b in s.stops ==> HasReason(s, b))
    && (forall a, b :: 0 <= a < |s.actors| && b in s.actors[a].links ==> Joined(s, a, b))
    && (forall a :: 0 <= a < |s.actors| && Holds(s.actors[a]) ==>
          Joined(s, a, s.actors[a].phase.hand.value))
    && (forall k :: 0 <= k < |s.calls| && s.calls[k].pc.StopSecond? ==> Closed(s, s.calls[k].first))
    && (forall k :: 0 <= k < |s.calls| && s.calls[k].pc.StopFirst? ==> Closed(s, s.calls[k].second))
  }

  lemma JoinedLasts(s: State, step: Step, a: nat, b: nat)
    requires Enabled(s, step) && Joined(s, a, b)
    ensures Joined(Next(s, step), a, b)
  {
    var k :| 0 <= k < |s.calls| &&
      ((s.calls[k].first == a && s.calls[k].second == b) || (s.calls[k].first == b && s.calls[k].second == a));
    var c := Next(s, step).calls[k];
    assert c.first == s.calls[k].first && c.second == s.calls[k].second;
  }

  lemma ClosedLasts(s: State, step: Step, a: nat)
    requires Enabled(s, step) && Closed(s, a)
    ensures Closed(Next(s, step), a)
  {
  }

  lemma ReasonLasts(s: State, step: Step, b: nat)
    requires Enabled(s, step) && HasReason(s, b)
    ensures HasReason(Next(s, step), b)
  {
    var a :| Closed(s, a) && Joined(s, a, b);
    ClosedLasts(s, step, a);
    JoinedLasts(s, step, a, b);
  }

  /** The Stop a step sends has its reason already. */
  lemma NewStopHasReason(s: State, step: Step, b: nat)
    requires Enabled(s, step) && ReasonInv(s) && b in Next(s, step).stops && b !in s.stops
    ensures HasReason(s, b)
  {
    match step
    case Advance(k) =>
      var c := s.calls[k];
      assert Joined(s, c.first, c.second) && Joined(s, c.second, c.first);
      if c.pc.StopSecond? {
        assert Closed(s, c.first);
      } else {
        assert Closed(s, c.second);
      }
    case Tell(a) => assert Closed(s, a) && Joined(s, a, b);
  }

  lemma NewLinkIsJoined(s: State, step: Step, a: nat, b: nat)
    requires Enabled(s, step) && ReasonInv(s) && a < |s.actors| && b in Next(s, step).actors[a].links
    ensures Joined(s, a, b)
  {
    if b !in s.actors[a].links {
      assert step.Advance?;
      var c := s.calls[step.call];
      assert Joined(s, c.first, c.second) && Joined(s, c.second, c.first);
    }
  }

  lemma HandIsJoined(s: State, step: Step, a: nat)
    requires Enabled(s, step) && ReasonInv(s) && a < |s.actors| && Holds(Next(s, step).actors[a])
    ensures Joined(s, a, Next(s, step).actors[a].phase.hand.value)
  {
    if step == Take(a) {
      assert s.actors[a].links[0] in s.actors[a].links;
    }
  }

  lemma PendingStopIsClosed(s: State, step: Step, k: nat)
    requires Enabled(s, step) && ReasonInv(s) && k < |Next(s, step).calls|
    ensures var t := Next(s, step); var c := t.calls[k];
            (c.pc.StopSecond? ==> Closed(t, c.first)) && (c.pc.StopFirst? ==> Closed(t, c.second))
  {
    if k < |s.calls| {
      var c := s.calls[k];
      if c.pc.StopSecond? {
        ClosedLasts(s, step, c.first);
      }
      if c.pc.StopFirst? {
        ClosedLasts(s, step, c.second);
      }
    }
  }

  lemma {:induction false} StepKeepsReasons(s: State, step: Step)
    requires Enabled(s, step) && ReasonInv(s)
    ensures ReasonInv(Next(s, step))
  {
    var t := Next(s, step);
    forall b | b in t.stops
      ensures HasReason(t, b)
    {
      if b !in s.stops {
        NewStopHasReason(s, step, b);
      }
      ReasonLasts(s, step, b);
    }
    forall a, b | 0 <= a < |t.actors| && b in t.actors[a].links
      ensures Joined(t, a, b)
    {
      NewLinkIsJoined(s, step, a, b);
      JoinedLasts(s, step, a, b);
    }
    forall a | 0 <= a < |t.actors| && Holds(t.actors[a])
      ensures Joined(t, a, t.actors[a].phase.hand.value)
    {
      HandIsJoined(s, step, a);
      JoinedLasts(s, step, a, t.actors[a].phase.hand.value);
    }
    forall k | 0 <= k < |t.calls|
      ensures (t.calls[k].pc.StopSecond? ==> Closed(t, t.calls[k].first)) && (t.calls[k].pc.StopFirst? ==> Closed(t, t.calls[k].second))
    {
      PendingStopIsClosed(s, step, k);
    }
  }

  lemma {:induction false} RunKeepsReasons(run: seq<State>, steps: seq<Step>, i: nat)
    requires IsRun(run, steps) && i < |run|
    ensures ReasonInv(run[i])
  {
    if i > 0 {
      RunKeepsReasons(run, steps, i - 1);
      StepKeepsReasons(run[i - 1], steps[i - 1]);
    }
  }

  /** In every run an actor is sent Stop only if a call joins it with an actor that is past its end or is a mailbox. */
  lemma {:induction false} StopHasReason(run: seq<State>, steps: seq<Step>, i: nat, b: nat)
    requires IsRun(run, steps) && i < |run| && b in run[i].stops
    ensures exists a, k :: 0 <= a < |run[i].actors| && 0 <= k < |run[i].calls|
              && !run[i].actors[a].phase.Running? && !run[i].actors[a].phase.Exited?
              && {run[i].calls[k].first, run[i].calls[k].second} == {a, b}
  {
    RunKeepsReasons(run, steps, i);
    var s := run[i];
    assert HasReason(s, b);
    var a :| Closed(s, a) && Joined(s, a, b);
    var k :| 0 <= k < |s.calls| &&
      ((s.calls[k].first == a && s.calls[k].second == b) || (s.calls[k].first == b && s.calls[k].second == a));
    assert {s.calls[k].first, s.calls[k].second} == {a, b};
  }

  /** Linking actors stops nobody as long as all of them are open. */
  lemma RunningActorsStopNobody(run: seq<State>, steps: seq<Step>, i: nat)
    requires IsRun(run, steps) && i < |run| && forall a :: 0 <= a < |run[i].actors| ==> Open(run[i].actors[a])
    ensures run[i].stops == {}
  {
    if run[i].stops != {} {
      var b :| b in run[i].stops;
      StopHasReason(run, steps, i, b);
      assert false;
    }
  }

  // ----- whole groups --------------------------------------------------------------------

  /** Nothing is left to do: every call has returned, every ended actor is reported, every stopped one has ended. */
  ghost predicate Quiet(s: State) {
    && (forall k :: 0 <= k < |s.calls| ==> !Enabled(s, Advance(k)))
    && forall a :: 0 <= a < |s.actors| ==>
         !Enabled(s, CloseLinks(a)) && !Enabled(s, Take(a)) && !Enabled(s, Tell(a)) && !Enabled(s, Report(a)) &&
         (a in s.stops ==> !Enabled(s, Exit(a)))
  }

  lemma QuietActors(s: State, a: nat)
    requires Quiet(s) && a < |s.actors|
    ensures s.actors[a].phase.Running? || s.actors[a].phase.Mailbox? || s.actors[a].phase.Reported?
    ensures a in s.stops ==> !s.actors[a].phase.Running?
  {
    assert !Enabled(s, CloseLinks(a)) && !Enabled(s, Take(a)) && !Enabled(s, Tell(a)) && !Enabled(s, Report(a));
  }

  /** Each actor of the path is linked with the one before. */
  ghost predicate LinkedPath(s: State, path: seq<nat>) {
    forall i :: 0 < i < |path| ==> Linked(s, path[i - 1], path[i])
  }

  /** When a run has gone quiet, an ended actor has taken down every actor it is connected to by links, through any others. */
  lemma {:induction false} GroupFallsTogether(run: seq<State>, steps: seq<Step>, path: seq<nat>, n: nat)
    requires IsRun(run, steps) && n < |path|
    requires var s := run[|steps|];
             && Quiet(s) && LinkedPath(s, path)
             && (forall i :: 0 <= i < |path| ==> path[i] < |s.actors| && !s.actors[path[i]].phase.Mailbox?)
             && !s.actors[path[0]].phase.Running?
    ensures run[|steps|].actors[path[n]].phase.Reported?
  {
    var s := run[|steps|];
    QuietActors(s, path[n]);
    if n > 0 {
      GroupFallsTogether(run, steps, path, n - 1);
      assert Linked(s, path[n - 1], path[n]);
      ReportedStopsLinked(run, steps, |steps|, path[n - 1], path[n]);
    }
  }

  // ----- quiet is reached ------------------------------------------------------------------

  function PhaseWork(phase: Phase): nat {
    match phase
    case Running => 4
    case Exited => 3
    case Draining(hand) => if hand.Some? then 2 else 1
    case Reported => 0
    case Mailbox => 0
  }

  function PcWork(pc: Pc): nat {
    match pc
    case SendFirst => 10
    case StopSecond => 9
    case SendSecond => 5
    case StopFirst => 1
    case Returned => 0
  }

  function ActorWork(a: Actor): nat {
    PhaseWork(a.phase) + 3 * |a.links|
  }

  function ActorsWork(actors: seq<Actor>): nat {
    if actors == [] then 0 else ActorsWork(actors[..|actors|-1]) + ActorWork(actors[|actors|-1])
  }

  function CallsWork(calls: seq<Call>): nat {
    if calls == [] then 0 else CallsWork(calls[..|calls|-1]) + PcWork(calls[|calls|-1].pc)
  }

  function Work(s: State): nat {
    ActorsWork(s.actors) + CallsWork(s.calls)
  }

  lemma {:induction false} ActorChange(actors: seq<Actor>, a: nat, to: Actor)
    requires a < |actors|
    ensures ActorsWork(actors[a := to]) == ActorsWork(actors) - ActorWork(actors[a]) + ActorWork(to)
  {
    var n := |actors| - 1;
    if a == n {
      assert actors[a := to][..n] == actors[..n];
    } else {
      assert actors[a := to][..n] == actors[..n][a := to];
      ActorChange(actors[..n], a, to);
    }
  }

  lemma {:induction false} CallChange(calls: seq<Call>, k: nat, to: Call)
    requires k < |calls|
    ensures CallsWork(calls[k := to]) == CallsWork(calls) - PcWork(calls[k].pc) + PcWork(to.pc)
  {
    var n := |calls| - 1;
    if k == n {
      assert calls[k := to][..n] == calls[..n];
    } else {
      assert calls[k := to][..n] == calls[..n][k := to];
      CallChange(calls[..n], k, to);
    }
  }

  lemma {:induction false} AdvanceWorks(s: State, k: nat)
    requires Enabled(s, Advance(k))
    ensures Work(Advanced(s, k)) < Work(s)
  {
    var c, t := s.calls[k], Advanced(s, k);
    CallChange(s.calls, k, t.calls[k]);
    if c.pc.SendFirst? && Open(s.actors[c.first]) {
      ActorChange(s.actors, c.first, t.actors[c.first]);
    }
    if c.pc.SendSecond? && Open(s.actors[c.second]) {
      ActorChange(s.actors, c.second, t.actors[c.second]);
    }
  }

  lemma {:induction false} StepWorks(s: State, step: Step)
    requires Enabled(s, step) && !step.Begin?
    ensures Work(Next(s, step)) < Work(s)
  {
    if step.Advance? {
      AdvanceWorks(s, step.call);
    } else {
      ActorChange(s.actors, step.actor, Next(s, step).actors[step.actor]);
    }
  }

  /** Without new calls a run takes at most as many steps as there is work, so it goes quiet. */
  lemma {:induction false} WorkBoundsRuns(run: seq<State>, steps: seq<Step>, i: nat, j: nat)
    requires IsRun(run, steps) && i <= j <= |steps|
    requires forall k :: i <= k < j ==> !steps[k].Begin?
    ensures j - i + Work(run[j]) <= Work(run[i])
    decreases j
  {
    if i < j {
      WorkBoundsRuns(run, steps, i, j - 1);
      StepWorks(run[j - 1], steps[j - 1]);
    }
  }
}
