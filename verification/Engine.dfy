/** The two backpressure slots of the HTTP/3 engine (src/h3engine.rs). */
module Engine {
  import opened Base

  /** What `try_send` on a bounded channel says. */
  datatype Offer = Accepted | Full | Closed

  /** Batches waiting for a channel, and the batches each channel has taken so far. */
  datatype State<B> = State(
    pendingIngress: Option<B>,
    pendingSend: Option<B>,
    ingress: seq<B>,
    udp: seq<B>,
    running: bool)

  /** What a receive from the UDP channel led to; decoding may yield no packet. */
  datatype Received<B> = NoSender | ControlFailed | Decoded(batch: Option<B>, offer: Offer)

  /** The branch of the select that completed. */
  datatype Arm<B> =
    | UdpRecv(got: Received<B>)
    | IngressReady(open: bool)
    | EgressRecv(open: bool)
    | StopAsked
    | SendReady(open: bool)
    | Timer
    | Keepalive
    | MetricsTick

  /** One trip round the loop: the branch taken, what the connection then has to send, and whether it closed. */
  datatype Turn<B> = Turn(arm: Arm<B>, output: Option<B>, offer: Offer, closed: bool)

  function Slot<B>(pending: Option<B>): seq<B> {
    if pending.Some? then [pending.value] else []
  }

  /** A guarded branch completes only under its guard. */
  predicate Enabled<B>(s: State<B>, arm: Arm<B>) {
    match arm
    case UdpRecv(_) => s.pendingIngress.None?
    case IngressReady(_) => s.pendingIngress.Some?
    case SendReady(_) => s.pendingSend.Some?
    case _ => true
  }

  function AfterArm<B>(s: State<B>, arm: Arm<B>): State<B>
    requires Enabled(s, arm)
  {
    match arm
    case UdpRecv(NoSender) => s.(running := false)
    case UdpRecv(ControlFailed) => s.(running := false)
    case UdpRecv(Decoded(None, _)) => s
    case UdpRecv(Decoded(Some(b), Accepted)) => s.(ingress := s.ingress + [b])
    case UdpRecv(Decoded(Some(b), Full)) => s.(pendingIngress := Some(b))
    case UdpRecv(Decoded(Some(b), Closed)) => s.(running := false)
    case IngressReady(open) =>
      if open then s.(ingress := s.ingress + [s.pendingIngress.value], pendingIngress := None) else s.(running := false)
    case EgressRecv(open) => s.(running := open)
    case StopAsked => s.(running := false)
    case SendReady(open) =>
      if open then s.(udp := s.udp + [s.pendingSend.value], pendingSend := None) else s.(running := false)
    case _ => s
  }

  /** Whether the loop asks the connection for output after this branch. */
  predicate Collects<B>(s: State<B>) {
    s.running && s.pendingSend.None?
  }

  function AfterFlush<B>(s: State<B>, output: Option<B>, offer: Offer): State<B> {
    if !Collects(s) || output.None? then s else
      match offer
      case Accepted => s.(udp := s.udp + [output.value])
      case Full => s.(pendingSend := output)
      case Closed => s.(running := false)
  }

  function Next<B>(s: State<B>, t: Turn<B>): State<B>
    requires Enabled(s, t.arm)
  {
    var u := AfterFlush(AfterArm(s, t.arm), t.output, t.offer);
    u.(running := u.running && !t.closed)
  }

  /** What is left when the loop has ended: the connection's closing batch goes to the UDP channel, if it is open. */
  function CleanedUp<B>(s: State<B>, closing: Option<B>, open: bool): State<B> {
    s.(udp := s.udp + if open then Slot(closing) else [])
  }

  // ----- performing a turn ---------------------------------------------------------------

  class Loop<B> {
    var pendingIngress: Option<B>
    var pendingSend: Option<B>
    var ingress: seq<B>
    var udp: seq<B>
    var running: bool

    function Value(): State<B>
      reads this
    {
      State(pendingIngress, pendingSend, ingress, udp, running)
    }

    constructor ()
      ensures Value() == State(None, None, [], [], true)
    {
      pendingIngress, pendingSend, ingress, udp, running := None, None, [], [], true;
    }

    method OfferIngress(batch: B, offer: Offer)
      modifies this`pendingIngress, this`ingress, this`running
      ensures pendingIngress == if offer.Full? then Some(batch) else if offer.Accepted? then None else old(pendingIngress)
      ensures ingress == old(ingress) + if offer.Accepted? then [batch] else []
      ensures running == (old(running) && !offer.Closed?)
    {
      match offer {
        case Accepted => ingress, pendingIngress := ingress + [batch], None;
        case Full => pendingIngress := Some(batch);
        case Closed => running := false;
      }
    }

    method Select(arm: Arm<B>)
      requires Enabled(Value(), arm) && running
      modifies this
      ensures Value() == AfterArm(old(Value()), arm)
    {
      match arm {
        case UdpRecv(got) =>
          match got {
            case NoSender => running := false;
            case ControlFailed => running := false;
            case Decoded(batch, offer) =>
              if batch.Some? {
                OfferIngress(batch.value, offer);
              }
          }
        case IngressReady(open) =>
          if open {
            var pending := pendingIngress.value;
            pendingIngress := None;
            ingress := ingress + [pending];
          } else {
            running := false;
          }
        case EgressRecv(open) =>
          if !open {
            running := false;
          }
        case StopAsked => running := false;
        case SendReady(open) =>
          if open {
            var pending := pendingSend.value;
            pendingSend := None;
            udp := udp + [pending];
          } else {
            running := false;
          }
        case Timer =>
        case Keepalive =>
        case MetricsTick =>
      }
    }

    method Flush(output: Option<B>, offer: Offer)
      requires running
      modifies this`pendingSend, this`udp, this`running
      ensures Value() == AfterFlush(old(Value()), output, offer)
    {
      if pendingSend.None? && output.Some? {
        match offer {
          case Accepted => udp := udp + [output.value];
          case Full => pendingSend := output;
          case Closed => running := false;
        }
      }
    }

    /** One trip round the loop; leaving it skips what follows. */
    method RunTurn(t: Turn<B>)
      requires Enabled(Value(), t.arm) && running
      modifies this
      ensures Value() == Next(old(Value()), t)
    {
      Select(t.arm);
      if running {
        Flush(t.output, t.offer);
      }
      if running && t.closed {
        running := false;
      }
    }

    /** After the loop: the closing batch is sent; the slots are left as they are. */
    method CleanUp(closing: Option<B>, open: bool)
      requires !running
      modifies this`udp
      ensures Value() == CleanedUp(old(Value()), closing, open)
    {
      if closing.Some? && open {
        udp := udp + [closing.value];
      }
    }
  }

  // ----- every run -----------------------------------------------------------------------

  /** The ingress batch the connection produced in a turn, if any. */
  function MadeIngress<B>(t: Turn<B>): seq<B> {
    if t.arm.UdpRecv? && t.arm.got.Decoded? then Slot(t.arm.got.batch) else []
  }

  /** The UDP batch the connection produced in a turn, if it was asked. */
  function MadeSend<B>(s: State<B>, t: Turn<B>): seq<B>
    requires Enabled(s, t.arm)
  {
    if Collects(AfterArm(s, t.arm)) then Slot(t.output) else []
  }

  ghost predicate IsRun<B>(run: seq<State<B>>, turns: seq<Turn<B>>) {
    && |run| == |turns| + 1 && run[0] == State(None, None, [], [], true)
    && forall i :: 0 <= i < |turns| ==> run[i].running && Enabled(run[i], turns[i].arm) && run[i + 1] == Next(run[i], turns[i])
  }

  ghost function IngressMade<B>(turns: seq<Turn<B>>, n: nat): seq<B>
    requires n <= |turns|
  {
    if n == 0 then [] else IngressMade(turns, n - 1) + MadeIngress(turns[n - 1])
  }

  ghost function SendMade<B>(run: seq<State<B>>, turns: seq<Turn<B>>, n: nat): seq<B>
    requires IsRun(run, turns) && n <= |turns|
  {
    if n == 0 then [] else SendMade(run, turns, n - 1) + MadeSend(run[n - 1], turns[n - 1])
  }

  /** The ingress batch a closed channel was offered in a turn; the turn ends the loop. */
  function RefusedIngress<B>(t: Turn<B>): seq<B> {
    if t.arm.UdpRecv? && t.arm.got.Decoded? && t.arm.got.offer.Closed? then Slot(t.arm.got.batch) else []
  }

  /** The UDP batch a closed channel was offered in a turn; the turn ends the loop. */
  function RefusedSend<B>(s: State<B>, t: Turn<B>): seq<B>
    requires Enabled(s, t.arm)
  {
    if t.offer.Closed? then MadeSend(s, t) else []
  }

  /** What the latest of the first `n` turns lost to a closed ingress channel. */
  ghost function LastIngressRefused<B>(turns: seq<Turn<B>>, n: nat): seq<B>
    requires n <= |turns|
  {
    if n == 0 then [] else RefusedIngress(turns[n - 1])
  }

  ghost function LastSendRefused<B>(run: seq<State<B>>, turns: seq<Turn<B>>, n: nat): seq<B>
    requires IsRun(run, turns) && n <= |turns|
  {
    if n == 0 then [] else RefusedSend(run[n - 1], turns[n - 1])
  }

  lemma IngressStep<B>(s: State<B>, t: Turn<B>, made: seq<B>)
    requires s.running && Enabled(s, t.arm) && s.ingress + Slot(s.pendingIngress) == made
    ensures var u := Next(s, t);
            && u.ingress + Slot(u.pendingIngress) + RefusedIngress(t) == made + MadeIngress(t)
            && (RefusedIngress(t) != [] ==> !u.running && u.pendingIngress.None?)
  {
  }

  lemma SendStep<B>(s: State<B>, t: Turn<B>, made: seq<B>)
    requires s.running && Enabled(s, t.arm) && s.udp + Slot(s.pendingSend) == made
    ensures var u := Next(s, t);
            && u.udp + Slot(u.pendingSend) + RefusedSend(s, t) == made + MadeSend(s, t)
            && (RefusedSend(s, t) != [] ==> !u.running && u.pendingSend.None?)
  {
  }

  /**
    After every turn of every run, in both directions, the batches a channel has
    taken, the one waiting and the one it just refused are exactly the batches
    produced, in order. A refusal ends the loop and never meets a waiting batch,
    so while the loop runs nothing is lost, duplicated or overwritten, and when
    it ends at most one batch is.
   */
  lemma {:induction false} NoBatchLost<B>(run: seq<State<B>>, turns: seq<Turn<B>>, n: nat)
    requires IsRun(run, turns) && n <= |turns|
    ensures run[n].ingress + Slot(run[n].pendingIngress) + LastIngressRefused(turns, n) == IngressMade(turns, n)
    ensures run[n].udp + Slot(run[n].pendingSend) + LastSendRefused(run, turns, n) == SendMade(run, turns, n)
    ensures LastIngressRefused(turns, n) != [] ==> !run[n].running && run[n].pendingIngress.None?
    ensures LastSendRefused(run, turns, n) != [] ==> !run[n].running && run[n].pendingSend.None?
  {
    if n > 0 {
      NoBatchLost(run, turns, n - 1);
      assert run[n - 1].running && run[n] == Next(run[n - 1], turns[n - 1]);
      IngressStep(run[n - 1], turns[n - 1], IngressMade(turns, n - 1));
      SendStep(run[n - 1], turns[n - 1], SendMade(run, turns, n - 1));
    }
  }

  lemma Suffix<B>(taken: seq<B>, rest: seq<B>, made: seq<B>)
    requires taken + rest == made
    ensures taken == made <==> rest == []
  {
    assert |made| == |taken| + |rest|;
  }

  /** A direction has lost nothing exactly when its slot is empty and its latest offer was not refused. */
  lemma NothingLostIffNothingLeft<B>(run: seq<State<B>>, turns: seq<Turn<B>>, n: nat)
    requires IsRun(run, turns) && n <= |turns|
    ensures run[n].ingress == IngressMade(turns, n) <==> run[n].pendingIngress.None? && LastIngressRefused(turns, n) == []
    ensures run[n].udp == SendMade(run, turns, n) <==> run[n].pendingSend.None? && LastSendRefused(run, turns, n) == []
  {
    NoBatchLost(run, turns, n);
    var s := run[n];
    Suffix(s.ingress, Slot(s.pendingIngress) + LastIngressRefused(turns, n), IngressMade(turns, n));
    Suffix(s.udp, Slot(s.pendingSend) + LastSendRefused(run, turns, n), SendMade(run, turns, n));
  }

  lemma SameEnd<B>(a: seq<B>, b: seq<B>, end: seq<B>)
    ensures a + end == b + end <==> a == b
  {
    if a + end == b + end {
      assert a == (a + end)[..|a|] && b == (b + end)[..|b|];
    }
  }

  /**
    The end of a connection: the UDP channel has taken everything the connection
    produced and then its closing batch, exactly when the loop ended with no
    batch waiting and none refused; the ingress side is not touched any more.
   */
  lemma ClosingFollowsEverythingIffNothingLeft<B>(run: seq<State<B>>, turns: seq<Turn<B>>, closing: Option<B>, open: bool)
    requires IsRun(run, turns) && !run[|turns|].running
    ensures var end, s := CleanedUp(run[|turns|], closing, open), run[|turns|];
            && (end.udp == SendMade(run, turns, |turns|) + (if open then Slot(closing) else []) <==>
                  s.pendingSend.None? && LastSendRefused(run, turns, |turns|) == [])
            && end.ingress == s.ingress
  {
    NothingLostIffNothingLeft(run, turns, |turns|);
    SameEnd(run[|turns|].udp, SendMade(run, turns, |turns|), if open then Slot(closing) else []);
  }

  /** A batch waits for the full channel, Stop arrives, and only the closing batch is ever sent. */
  lemma WaitingBatchIsDropped<B>(a: B, closing: B) returns (run: seq<State<B>>, turns: seq<Turn<B>>)
    ensures IsRun(run, turns) && |turns| == 2 && !run[2].running
    ensures SendMade(run, turns, 2) == [a] && CleanedUp(run[2], Some(closing), true).udp == [closing]
  {
    var t0, t1 := Turn(Timer, Some(a), Full, false), Turn(StopAsked, None, Accepted, false);
    var s0 := State(None, None, [], [], true);
    var s1 := Next(s0, t0);
    turns, run := [t0, t1], [s0, s1, Next(s1, t1)];
    assert SendMade(run, turns, 1) == SendMade(run, turns, 0) + [a];
    assert SendMade(run, turns, 2) == SendMade(run, turns, 1) + [];
  }
}
