/** Saturating packet counters (src/metrics.rs). */
module Metrics {
  import opened Base

  const U64_MAX: nat := 0xFFFF_FFFF_FFFF_FFFF

  datatype DropReason =
    | SendError | QuicError | ChannelClosed | InvalidIpVersion | InvalidFraming
    | NoRoute | NoPeerChannel | NoHeadroom | QueueFull | TtlExpired

  /** Numbers of record calls, packets and bytes. */
  datatype PktCounters = PktCounters(batches: nat, packets: nat, bytes: nat)

  const ZERO := PktCounters(0, 0, 0)

  function Plus(a: PktCounters, b: PktCounters): PktCounters {
    PktCounters(a.batches + b.batches, a.packets + b.packets, a.bytes + b.bytes)
  }

  predicate Fits(a: PktCounters) {
    a.batches <= U64_MAX && a.packets <= U64_MAX && a.bytes <= U64_MAX
  }

  function Saturate(a: PktCounters): PktCounters {
    PktCounters(Min(a.batches, U64_MAX), Min(a.packets, U64_MAX), Min(a.bytes, U64_MAX))
  }

  /** `a` after `b` has been recorded on it, in however many steps. */
  function Add(a: PktCounters, b: PktCounters): PktCounters {
    Saturate(Plus(a, b))
  }

  /** Recording in two steps saturates to the same value as recording the sum. */
  lemma AddTwice(a: PktCounters, b: PktCounters, c: PktCounters)
    ensures Add(Add(a, b), c) == Add(a, Plus(b, c))
  {
  }

  datatype Stats = Stats(succeeded: PktCounters, dropped: PktCounters, reasons: map<DropReason, PktCounters>)

  predicate AllReasons(reasons: map<DropReason, PktCounters>) {
    forall r: DropReason :: r in reasons
  }

  function WithSuccess(s: Stats, count: nat, bytes: nat): Stats {
    s.(succeeded := Add(s.succeeded, PktCounters(1, count, bytes)))
  }

  function WithDrop(s: Stats, reason: DropReason, count: nat, bytes: nat): Stats
    requires reason in s.reasons
  {
    var one := PktCounters(1, count, bytes);
    s.(dropped := Add(s.dropped, one), reasons := s.reasons[reason := Add(s.reasons[reason], one)])
  }

  /** How often a full channel made the sender wait, and for how long altogether. */
  datatype Congestion = Congestion(count: nat, total: Time)

  function Waited(c: Congestion, wait: Option<Time>): Congestion {
    if wait.None? then c else Congestion(Min(c.count + 1, U64_MAX), Min(c.total + wait.value, MAX_DURATION))
  }

  class Counters {
    var congestion: Congestion
    var succeeded: PktCounters
    var dropped: PktCounters
    var reasons: map<DropReason, PktCounters>

    function Value(): Stats
      reads this
    {
      Stats(succeeded, dropped, reasons)
    }

    ghost predicate Valid()
      reads this
    {
      Fits(succeeded) && Fits(dropped) && forall r: DropReason :: r in reasons && Fits(reasons[r])
    }

    method RecordQueueFull(wait: Time)
      modifies this`congestion
      ensures congestion == Waited(old(congestion), Some(wait))
    {
      congestion := Congestion(Min(congestion.count + 1, U64_MAX), Min(congestion.total + wait, MAX_DURATION));
    }

    method RecordSuccess(count: nat, bytes: nat)
      requires Valid()
      modifies this`succeeded
      ensures Value() == WithSuccess(old(Value()), count, bytes) && Valid()
    {
      succeeded := Record(succeeded, count, bytes);
    }

    method RecordDrop(reason: DropReason, count: nat, bytes: nat)
      requires Valid()
      modifies this`dropped, this`reasons
      ensures Value() == WithDrop(old(Value()), reason, count, bytes) && Valid()
    {
      dropped := Record(dropped, count, bytes);
      var c := Record(reasons[reason], count, bytes);
      reasons := reasons[reason := c];
    }

    /** Accounts for a batch offered to a channel that took it (`ok`), perhaps after a wait, or was or became closed. */
    method SendAndRecord(ok: bool, wait: Option<Time>, count: nat, bytes: nat)
      requires Valid()
      modifies this
      ensures congestion == if ok then Waited(old(congestion), wait) else old(congestion)
      ensures Value() == if ok then WithSuccess(old(Value()), count, bytes) else WithDrop(old(Value()), ChannelClosed, count, bytes)
      ensures Valid()
    {
      if ok && wait.Some? {
        RecordQueueFull(wait.value);
      }
      if ok {
        RecordSuccess(count, bytes);
      } else {
        RecordDrop(ChannelClosed, count, bytes);
      }
    }
  }

  method Record(c: PktCounters, count: nat, bytes: nat) returns (r: PktCounters)
    ensures r == Add(c, PktCounters(1, count, bytes))
    ensures r.packets == Min(c.packets + count, 18_446_744_073_709_551_615) && r.bytes == Min(c.bytes + bytes, 18_446_744_073_709_551_615)
  {
    var batches := Min(c.batches + 1, U64_MAX);
    var packets := Min(c.packets + count, U64_MAX);
    var total := Min(c.bytes + bytes, U64_MAX);
    r := PktCounters(batches, packets, total);
  }
}
