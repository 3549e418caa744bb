/** Sending batches with segmentation offload and cutting received ones apart (src/udp.rs). */
module UdpBatch {
  import opened Base
  import opened Sequences

  type Packet = seq<byte>

  /** One `sendmsg`: the system cuts `contents` into datagrams of `segment` bytes. */
  datatype Transmit = Transmit(contents: seq<byte>, segment: nat)

  /** How a transmit ends once transient errors have been retried. */
  datatype Outcome = Sent | NonFatal | Fatal

  function MaxUdpPayload(v4: bool): nat {
    if v4 then 65535 - 20 - 8 else 65535 - 8
  }

  // ----- cutting --------------------------------------------------------------------

  /** Consecutive pieces of `n` bytes; the last one may be shorter. */
  function Chunks(s: seq<byte>, n: nat): seq<Packet>
    requires n > 0
  {
    if s == [] then [] else if |s| <= n then [s] else [s[..n]] + Chunks(s[n..], n)
  }

  function Whole(): Packet -> seq<byte> {
    (p: Packet) => p
  }

  function Flatten(packets: seq<Packet>): seq<byte> {
    FlatMap(Whole(), packets)
  }

  lemma {:induction false} FlattenFront(p: Packet, rest: seq<Packet>)
    ensures Flatten([p] + rest) == p + Flatten(rest)
  {
    FlatMapAppend(Whole(), [p], rest);
    FlatMapOne(Whole(), p);
  }

  /** All but the last packet are `n` bytes long, and the last is at most that and not empty. */
  predicate Strided(packets: seq<Packet>, n: nat) {
    forall k :: 0 <= k < |packets| ==> 0 < |packets[k]| <= n && (k < |packets| - 1 ==> |packets[k]| == n)
  }

  lemma {:induction false} ChunksJoin(s: seq<byte>, n: nat)
    requires n > 0
    ensures Flatten(Chunks(s, n)) == s
    decreases |s|
  {
    if s != [] {
      if |s| <= n {
        FlatMapOne(Whole(), s);
      } else {
        ChunksJoin(s[n..], n);
        FlattenFront(s[..n], Chunks(s[n..], n));
        assert s[..n] + s[n..] == s;
      }
    }
  }

  lemma {:induction false} ChunksAreStrided(s: seq<byte>, n: nat)
    requires n > 0
    ensures Strided(Chunks(s, n), n) && (s != [] ==> Chunks(s, n) != [])
    decreases |s|
  {
    if |s| > n {
      ChunksAreStrided(s[n..], n);
      StridedFront(s[..n], Chunks(s[n..], n), n);
    }
  }

  lemma StridedFront(p: Packet, rest: seq<Packet>, n: nat)
    requires |p| == n > 0 && Strided(rest, n)
    ensures Strided([p] + rest, n)
  {
    assert forall k :: 1 <= k < |[p] + rest| ==> ([p] + rest)[k] == rest[k - 1];
  }

  lemma {:induction false} CutInvertsJoin(packets: seq<Packet>, n: nat)
    requires n > 0 && Strided(packets, n)
    ensures Chunks(Flatten(packets), n) == packets
  {
    if packets != [] {
      var p, rest := packets[0], packets[1..];
      assert packets == [p] + rest;
      FlattenFront(p, rest);
      CutInvertsJoin(rest, n);
      if rest == [] {
        assert p + Flatten(rest) == p;
      } else {
        JoinNotEmpty(rest, n);
        assert (p + Flatten(rest))[..n] == p && (p + Flatten(rest))[n..] == Flatten(rest);
      }
    }
  }

  lemma {:induction false} JoinNotEmpty(packets: seq<Packet>, n: nat)
    requires packets != [] && Strided(packets, n)
    ensures Flatten(packets) != []
  {
    assert packets == [packets[0]] + packets[1..];
    FlattenFront(packets[0], packets[1..]);
  }

  // ----- one run of equal packets ------------------------------------------------------

  /** How many packets of `size` bytes one transmit may carry. */
  function MaxSegments(v4: bool, offload: bool, gso: nat, size: nat): nat
    requires size > 0
  {
    Max(Min(if offload then gso else 1, MaxUdpPayload(v4) / size), 1)
  }

  predicate SameSize(packets: seq<Packet>, from: nat, to: nat, size: nat)
    requires from <= to <= |packets|
  {
    forall k :: from <= k < to ==> |packets[k]| == size
  }

  /** `t` joins the packets `from..to`: equal ones, no more than `limit`, and no fewer than it could. */
  ghost predicate IsRun(packets: seq<Packet>, from: nat, to: nat, limit: nat, t: Transmit) {
    && from < to <= |packets| && t.segment == |packets[from]|
    && SameSize(packets, from, to, t.segment) && t.contents == Flatten(packets[from..to])
    && to - from <= limit
    && (to == |packets| || |packets[to]| != t.segment || to - from == limit)
  }

  lemma {:induction false} JoinedLength(packets: seq<Packet>, size: nat)
    requires SameSize(packets, 0, |packets|, size)
    ensures |Flatten(packets)| == |packets| * size
  {
    if packets != [] {
      JoinedLength(packets[..|packets|-1], size);
    }
  }

  lemma SmallMultiple(n: nat, x: int)
    requires 0 <= n * x < n
    ensures x == 0
  {
  }

  lemma DivideBack(q: nat, n: nat, v: nat)
    requires n > 0 && v == q * n
    ensures v / n == q
  {
    var d := v / n;
    assert v == n * d + v % n;
    assert n * (q - d) == v % n;
    SmallMultiple(n, q - d);
  }

  lemma QuotientFits(k: nat, n: nat, max: nat)
    requires n > 0 && k <= max / n
    ensures k * n <= max
  {
    var d := max / n;
    assert max == n * d + max % n;
    assert n * (d - k) >= 0;
    assert n * d == n * k + n * (d - k);
  }

  /** The most bytes of one datagram's payload: 65535 without the UDP header, for IPv4 also without the IP header. */
  predicate Fits(v4: bool, bytes: nat) {
    bytes + 8 + (if v4 then 20 else 0) <= 65535
  }

  /** Exactly the numbers up to the limit may be sent together: one, or several that offload and system allow and that fit. */
  lemma {:induction false} SegmentsAsManyAsFit(v4: bool, offload: bool, gso: nat, size: nat, n: nat)
    requires size > 0 && n > 0
    ensures n <= MaxSegments(v4, offload, gso, size) <==> n == 1 || (offload && n <= gso && Fits(v4, n * size))
  {
    var max := MaxUdpPayload(v4);
    if n <= max / size {
      QuotientFits(n, size, max);
    } else {
      assert max == size * (max / size) + max % size;
      MulOneMore(max / size, n, size);
    }
  }

  lemma MulOneMore(q: nat, n: nat, size: nat)
    requires q < n
    ensures size * q + size <= n * size
  {
    assert n * size == q * size + (n - q) * size;
    assert (n - q - 1) * size >= 0;
  }

  /** Joins the run that starts at `pos`. */
  method CollectRun(packets: seq<Packet>, pos: nat, limit: nat) returns (t: Transmit, next: nat)
    requires pos < |packets| && |packets[pos]| > 0 && limit >= 1
    ensures IsRun(packets, pos, next, limit, t)
  {
    var size := |packets[pos]|;
    var buf: seq<byte> := [];
    next := pos;
    assert packets[pos..pos] == [];
    while next < |packets| && |packets[next]| == size && |buf| / size < limit
      invariant pos <= next <= |packets| && SameSize(packets, pos, next, size)
      invariant buf == Flatten(packets[pos..next]) && |buf| == (next - pos) * size && next - pos <= limit
      invariant next == pos ==> |buf| / size == 0
    {
      DivideBack(next - pos, size, |buf|);
      assert packets[pos..next+1][..next-pos] == packets[pos..next];
      buf := buf + packets[next];
      next := next + 1;
      assert |buf| == (next - 1 - pos) * size + size;
    }
    DivideBack(next - pos, size, |buf|);
    t := Transmit(buf, size);
  }

  /** A transmit never exceeds what one datagram may carry, except a single packet that does so alone. */
  lemma RunFits(packets: seq<Packet>, from: nat, to: nat, v4: bool, offload: bool, gso: nat, t: Transmit)
    requires from < |packets| && |packets[from]| > 0
    requires IsRun(packets, from, to, MaxSegments(v4, offload, gso, |packets[from]|), t)
    ensures |t.contents| <= MaxUdpPayload(v4) || to == from + 1
    ensures !offload ==> to == from + 1
    ensures Chunks(t.contents, t.segment) == packets[from..to]
  {
    var run, n := packets[from..to], t.segment;
    JoinedLength(run, n);
    CutInvertsJoin(run, n);
    if to > from + 1 {
      QuotientFits(to - from, n, MaxUdpPayload(v4));
    }
  }

  // ----- a whole batch -------------------------------------------------------------------

  function Cut(): Transmit -> seq<Packet> {
    (t: Transmit) => if t.segment == 0 then [] else Chunks(t.contents, t.segment)
  }

  ghost predicate NoneEmpty(packets: seq<Packet>) {
    forall k :: 0 <= k < |packets| ==> packets[k] != []
  }

  /** The transmits join the packets up to the last of `cuts`, each a run under the limit of its own moment. */
  ghost predicate Attempted(packets: seq<Packet>, v4: bool, offload: bool, gso: nat -> nat, attempts: seq<Transmit>, cuts: seq<nat>)
    requires NoneEmpty(packets)
  {
    && |cuts| == |attempts| + 1 && cuts[0] == 0 && cuts[|attempts|] <= |packets|
    && forall i :: 0 <= i < |attempts| ==>
         cuts[i] < |packets| && IsRun(packets, cuts[i], cuts[i+1], MaxSegments(v4, offload, gso(i), |packets[cuts[i]]|), attempts[i])
  }

  lemma AttemptOneMore(
    packets: seq<Packet>, v4: bool, offload: bool, gso: nat -> nat, attempts: seq<Transmit>, cuts: seq<nat>, t: Transmit, next: nat)
    requires NoneEmpty(packets) && Attempted(packets, v4, offload, gso, attempts, cuts) && cuts[|attempts|] < |packets|
    requires var pos := cuts[|attempts|];
             IsRun(packets, pos, next, MaxSegments(v4, offload, gso(|attempts|), |packets[pos]|), t)
    ensures Attempted(packets, v4, offload, gso, attempts + [t], cuts + [next])
  {
  }

  /**
    Sends a batch run by run. Attempt `i` sees the limit `gso(i)` and ends with
    `outcome(i)`; the first one that is not sent ends the batch.
   */
  method SendBatch(packets: seq<Packet>, v4: bool, offload: bool, gso: nat -> nat, outcome: nat -> Outcome)
    returns (attempts: seq<Transmit>, result: Outcome, ghost cuts: seq<nat>)
    requires NoneEmpty(packets)
    ensures Attempted(packets, v4, offload, gso, attempts, cuts)
    ensures forall i :: 0 <= i < |attempts| - 1 ==> outcome(i).Sent?
    ensures result.Sent? ==> cuts[|attempts|] == |packets| && (attempts != [] ==> outcome(|attempts| - 1).Sent?)
    ensures !result.Sent? ==> attempts != [] && result == outcome(|attempts| - 1)
  {
    attempts, cuts, result := [], [0], Sent;
    var pos := 0;
    while pos < |packets|
      invariant Attempted(packets, v4, offload, gso, attempts, cuts)
      invariant pos == cuts[|attempts|] && result.Sent?
      invariant forall i :: 0 <= i < |attempts| ==> outcome(i).Sent?
      decreases |packets| - pos
    {
      var t, next := CollectRun(packets, pos, MaxSegments(v4, offload, gso(|attempts|), |packets[pos]|));
      AttemptOneMore(packets, v4, offload, gso, attempts, cuts, t, next);
      attempts, cuts, pos := attempts + [t], cuts + [next], next;
      result := outcome(|attempts| - 1);
      if !result.Sent? {
        return;
      }
    }
  }

  lemma AttemptsFollowCuts(packets: seq<Packet>, v4: bool, offload: bool, gso: nat -> nat, attempts: seq<Transmit>, cuts: seq<nat>)
    requires NoneEmpty(packets) && Attempted(packets, v4, offload, gso, attempts, cuts)
    ensures CutsAlong(Cut(), attempts, packets, cuts)
  {
    forall i | 0 <= i < |attempts|
      ensures CutAt(Cut(), attempts, packets, cuts, i)
    {
      RunFits(packets, cuts[i], cuts[i+1], v4, offload, gso(i), attempts[i]);
    }
  }

  /** Cut at their segment size, the first `n` transmits are the packets up to the n-th cut. */
  lemma {:induction false} TransmitsAreTheBatch(
    packets: seq<Packet>, v4: bool, offload: bool, gso: nat -> nat, attempts: seq<Transmit>, cuts: seq<nat>, n: nat)
    requires NoneEmpty(packets) && Attempted(packets, v4, offload, gso, attempts, cuts) && n <= |attempts|
    ensures cuts[n] <= |packets| && FlatMap(Cut(), attempts[..n]) == packets[..cuts[n]]
  {
    AttemptsFollowCuts(packets, v4, offload, gso, attempts, cuts);
    FlatMapAlong(Cut(), attempts, packets, cuts, n);
  }

  // ----- receiving --------------------------------------------------------------------------

  /** The packets of one receive call; nothing received is no batch. */
  function Received(contents: seq<byte>, stride: nat): Option<seq<Packet>>
    requires stride > 0
  {
    if contents == [] then None else Some(Chunks(contents, Min(stride, |contents|)))
  }

  /** Received with the stride it was sent with, a transmit yields the packets it joined. */
  lemma ReceiveInvertsSend(packets: seq<Packet>, from: nat, to: nat, limit: nat, t: Transmit)
    requires from < |packets| && packets[from] != [] && IsRun(packets, from, to, limit, t)
    ensures Received(t.contents, t.segment) == Some(packets[from..to])
  {
    CutInvertsJoin(packets[from..to], t.segment);
    JoinNotEmpty(packets[from..to], t.segment);
  }

  /** Whatever the stride, receiving keeps every byte in order and produces no empty packet. */
  lemma ReceiveKeepsBytes(contents: seq<byte>, stride: nat)
    requires stride > 0 && contents != []
    ensures Received(contents, stride).Some?
    ensures Flatten(Received(contents, stride).value) == contents
    ensures Strided(Received(contents, stride).value, Min(stride, |contents|))
    ensures Received(contents, stride) == Some(Chunks(contents, stride))
  {
    ChunksJoin(contents, Min(stride, |contents|));
    ChunksAreStrided(contents, Min(stride, |contents|));
  }

  // ----- stopping ---------------------------------------------------------------------------

  /** The send loop and its input channel: `accepted` is all it ever took, `handled` what the loop picked up. */
  datatype Loop<B> = Loop(queue: seq<B>, open: bool, stopping: bool, accepted: seq<B>, handled: seq<B>, running: bool)

  datatype Step<B> = Offer(batch: B) | AskStop | DropSenders | Turn(result: Outcome)

  function Next<B>(s: Loop<B>, step: Step<B>): Loop<B> {
    match step
    case Offer(b) => if s.open then s.(queue := s.queue + [b], accepted := s.accepted + [b]) else s
    case AskStop => s.(stopping := true)
    case DropSenders => s.(open := false)
    case Turn(result) =>
      if !s.running then s else
        var t := if s.stopping then s.(open := false) else s;
        if t.queue == [] then (if t.open then t else t.(running := false))
        else t.(queue := t.queue[1..], handled := t.handled + [t.queue[0]], running := result != Fatal)
  }

  ghost predicate IsHistory<B>(run: seq<Loop<B>>, steps: seq<Step<B>>) {
    && |run| == |steps| + 1 && run[0] == Loop([], true, false, [], [], true)
    && forall i :: 0 <= i < |steps| ==> run[i + 1] == Next(run[i], steps[i])
  }

  /** Every run keeps the order, and the loop ends on its own only when all it accepted has been handled. */
  lemma {:induction false} DrainsBeforeStopping<B>(run: seq<Loop<B>>, steps: seq<Step<B>>, i: nat)
    requires IsHistory(run, steps) && i < |run|
    requires forall k :: 0 <= k < |steps| ==> steps[k] != Turn(Fatal)
    ensures run[i].accepted == run[i].handled + run[i].queue
    ensures !run[i].running ==> run[i].queue == [] && !run[i].open && run[i].handled == run[i].accepted
  {
    if i > 0 {
      DrainsBeforeStopping(run, steps, i - 1);
      var s, t := run[i - 1], run[i];
      assert s.queue != [] ==> s.queue == [s.queue[0]] + s.queue[1..];
      assert steps[i - 1] != Turn(Fatal);
    }
  }

  function Turns<B>(steps: seq<Step<B>>): nat {
    if steps == [] then 0 else Turns(steps[..|steps|-1]) + if steps[|steps|-1].Turn? then 1 else 0
  }

  /** Stop was asked for, or nobody can send any more. */
  predicate Closing<B>(s: Loop<B>) {
    s.stopping || !s.open
  }

  /** While a closing loop still runs, each of its turns has handled a batch. */
  lemma {:induction false} ClosingTurnsHandle<B>(run: seq<Loop<B>>, steps: seq<Step<B>>, i: nat, j: nat)
    requires IsHistory(run, steps) && i <= j < |run| && Closing(run[i])
    ensures Closing(run[j])
    ensures run[j].running ==> run[i].running && |run[j].handled| == |run[i].handled| + Turns(steps[i..j])
    decreases j
  {
    if i < j {
      ClosingTurnsHandle(run, steps, i, j - 1);
      assert run[j - 1 + 1] == Next(run[j - 1], steps[j - 1]);
      assert steps[i..j][..j - 1 - i] == steps[i..j - 1];
    }
  }

  /** Once a closing loop has taken a turn, nothing more is accepted. */
  lemma {:induction false} ClosedAcceptsNothing<B>(run: seq<Loop<B>>, steps: seq<Step<B>>, i: nat, j: nat)
    requires IsHistory(run, steps) && i <= j < |run| && !run[i].open
    ensures !run[j].open && run[j].accepted == run[i].accepted
    decreases j
  {
    if i < j {
      ClosedAcceptsNothing(run, steps, i, j - 1);
      assert run[j - 1 + 1] == Next(run[j - 1], steps[j - 1]);
    }
  }

  /**
    A loop that was asked to stop, or has no sender left, ends: when it has taken a
    turn since and the turns outnumber the batches then waiting, it has handled
    all of them and no longer runs.
   */
  lemma {:induction false} ClosingLoopEnds<B>(run: seq<Loop<B>>, steps: seq<Step<B>>, i: nat, j: nat)
    requires IsHistory(run, steps) && i < j < |run| && Closing(run[i]) && steps[i].Turn?
    requires forall k :: 0 <= k < |steps| ==> steps[k] != Turn(Fatal)
    requires Turns(steps[i..j]) > |run[i].queue|
    ensures !run[j].running && run[j].handled == run[i].accepted
  {
    assert run[i + 1] == Next(run[i], steps[i]);
    ClosingTurnsHandle(run, steps, i, j);
    DrainsBeforeStopping(run, steps, i);
    DrainsBeforeStopping(run, steps, j);
    if run[i].running {
      ClosedAcceptsNothing(run, steps, i + 1, j);
    } else {
      ClosedAcceptsNothing(run, steps, i, j);
    }
  }
}
