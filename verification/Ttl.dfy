/**
  TTL decrement with incremental checksum update (src/router.rs), against the
  Internet checksum of RFC 1071 and the update of section 3 of RFC 1624.
 */
module Ttl {
  import opened Base

  const TTL: nat := 8
  const CHECKSUM: nat := 10
  const HOP_LIMIT: nat := 7
  const MIN_V4: nat := 20
  const MIN_V6: nat := 40

  // ----- the Internet checksum ------------------------------------------------------

  function Word(hi: byte, lo: byte): nat {
    hi * 256 + lo
  }

  /** Sum of the big-endian 16-bit words; an odd last byte is padded with zero. */
  function WordSum(h: seq<byte>): nat {
    if h == [] then 0
    else if |h| == 1 then Word(h[0], 0)
    else Word(h[0], h[1]) + WordSum(h[2..])
  }

  /** End-around carry until the sum fits 16 bits. */
  function Fold(s: nat): nat {
    if s < 0x1_0000 then s else Fold(s % 0x1_0000 + s / 0x1_0000)
  }

  /** A header is valid when its words, checksum included, add up to all ones. */
  predicate HeaderValid(h: seq<byte>) {
    Fold(WordSum(h)) == 0xFFFF
  }

  /** The checksum a sender would compute, over the header with a zero checksum field. */
  function FromScratch(h: seq<byte>): int
    requires |h| >= MIN_V4
  {
    0xFFFF - Fold(WordSum(h[CHECKSUM := 0][CHECKSUM + 1 := 0]))
  }

  lemma {:induction false} FoldFacts(s: nat)
    ensures Fold(s) <= 0xFFFF && Fold(s) % 0xFFFF == s % 0xFFFF && (Fold(s) == 0 <==> s == 0)
  {
    if s >= 0x1_0000 {
      var hi, lo := s / 0x1_0000, s % 0x1_0000;
      assert s == lo + hi + 0xFFFF * hi;
      ModMultiple(lo + hi, hi);
      FoldFacts(lo + hi);
    }
  }

  lemma {:induction false} ModMultiple(a: nat, k: nat)
    ensures (a + 0xFFFF * k) % 0xFFFF == a % 0xFFFF
  {
    if k > 0 {
      ModMultiple(a, k - 1);
      assert (a + 0xFFFF * (k - 1) + 0xFFFF) % 0xFFFF == (a + 0xFFFF * (k - 1)) % 0xFFFF;
    }
  }

  lemma ValidIffMultiple(h: seq<byte>)
    ensures HeaderValid(h) <==> WordSum(h) > 0 && WordSum(h) % 0xFFFF == 0
  {
    FoldFacts(WordSum(h));
  }

  lemma {:induction false} WordSumAppend(a: seq<byte>, b: seq<byte>)
    requires |a| % 2 == 0
    ensures WordSum(a + b) == WordSum(a) + WordSum(b)
  {
    if a == [] {
      assert a + b == b;
    } else {
      assert (a + b)[2..] == a[2..] + b;
      WordSumAppend(a[2..], b);
    }
  }

  /** A header's sum, with the words of the TTL and of the checksum set apart. */
  lemma WordSumParts(h: seq<byte>)
    requires |h| >= MIN_V4
    ensures WordSum(h) == WordSum(h[..TTL]) + Word(h[TTL], h[TTL + 1]) + Word(h[CHECKSUM], h[CHECKSUM + 1]) + WordSum(h[CHECKSUM + 2..])
  {
    var pair := [h[TTL], h[TTL + 1], h[CHECKSUM], h[CHECKSUM + 1]];
    assert h == h[..TTL] + (pair + h[CHECKSUM + 2..]);
    WordSumAppend(h[..TTL], pair + h[CHECKSUM + 2..]);
    WordSumAppend(pair, h[CHECKSUM + 2..]);
    assert pair[2..] == [h[CHECKSUM], h[CHECKSUM + 1]];
    assert pair[2..][2..] == [];
  }

  // ----- what the code does -----------------------------------------------------------

  function Version(p: seq<byte>): nat
    requires p != []
  {
    p[0] / 16
  }

  predicate IsV4(p: seq<byte>) {
    |p| >= MIN_V4 && Version(p) == 4
  }

  predicate IsV6(p: seq<byte>) {
    |p| >= MIN_V6 && Version(p) == 6
  }

  /** The value before the decrement; `None` when the packet is malformed. */
  function OldTtl(p: seq<byte>): Option<byte> {
    if IsV4(p) then Some(p[TTL]) else if IsV6(p) then Some(p[HOP_LIMIT]) else None
  }

  function UpdatedCheck(check: nat): (c: nat)
    requires check <= 0xFFFF
    ensures c < 0xFFFF && c % 0xFFFF == (check + 0x100) % 0xFFFF
  {
    var s0 := check + 0x100;
    var s1 := s0 % 0x1_0000 + s0 / 0x1_0000;
    var s2 := s1 % 0x1_0000 + s1 / 0x1_0000;
    if s2 % 0x1_0000 == 0xFFFF then 0 else s2 % 0x1_0000
  }

  function Decremented(p: seq<byte>): (r: seq<byte>)
    ensures |r| == |p|
  {
    if IsV4(p) && p[TTL] > 0 then
      var c := UpdatedCheck(Word(p[CHECKSUM], p[CHECKSUM + 1]));
      p[TTL := p[TTL] - 1][CHECKSUM := c / 256][CHECKSUM + 1 := c % 256]
    else if IsV6(p) && p[HOP_LIMIT] > 0 then p[HOP_LIMIT := p[HOP_LIMIT] - 1]
    else p
  }

  /** Adds the carry of the decremented TTL twice folded; all ones, the other zero, is written as zero. */
  method UpdateCheck(check: nat) returns (c: nat)
    requires check <= 0xFFFF
    ensures c == UpdatedCheck(check)
  {
    var sum := check + 0x100;
    sum := sum % 0x1_0000 + sum / 0x1_0000;
    sum := sum % 0x1_0000 + sum / 0x1_0000;
    c := if sum % 0x1_0000 == 0xFFFF then 0 else sum % 0x1_0000;
  }

  /** Updates the packet in place and returns the value before the decrement. */
  method DecrementTtl(packet: array<byte>) returns (r: Option<byte>)
    modifies packet
    ensures packet[..] == Decremented(old(packet[..]))
    ensures r == OldTtl(old(packet[..]))
  {
    if packet.Length == 0 {
      return None;
    }
    ghost var p := packet[..];
    match packet[0] / 16 {
      case 4 =>
        if packet.Length < MIN_V4 {
          return None;
        }
        var ttl := packet[TTL];
        if ttl == 0 {
          return Some(0);
        }
        packet[TTL] := ttl - 1;
        var check := UpdateCheck(Word(packet[CHECKSUM], packet[CHECKSUM + 1]));
        packet[CHECKSUM], packet[CHECKSUM + 1] := check / 256, check % 256;
        assert packet[..] == Decremented(p);
        return Some(ttl);
      case 6 =>
        if packet.Length < MIN_V6 {
          return None;
        }
        var hops := packet[HOP_LIMIT];
        if hops == 0 {
          return Some(0);
        }
        packet[HOP_LIMIT] := hops - 1;
        assert packet[..] == Decremented(p);
        return Some(hops);
      case _ =>
        return None;
    }
  }

  // ----- correctness -------------------------------------------------------------------

  function HeaderLen(p: seq<byte>): nat
    requires p != []
  {
    (p[0] % 16) * 4
  }

  /** An IPv4 packet that holds its whole header, options included. */
  predicate WholeV4(p: seq<byte>) {
    IsV4(p) && MIN_V4 <= HeaderLen(p) <= |p|
  }

  function Header(p: seq<byte>): seq<byte>
    requires WholeV4(p)
  {
    p[..HeaderLen(p)]
  }

  function Checksum(h: seq<byte>): nat
    requires |h| >= MIN_V4
  {
    Word(h[CHECKSUM], h[CHECKSUM + 1])
  }

  lemma HopSum(p: seq<byte>)
    requires WholeV4(p) && p[TTL] > 0
    ensures var q := Decremented(p); var h := Header(p);
            && WholeV4(q) && HeaderLen(q) == HeaderLen(p)
            && Checksum(Header(q)) == UpdatedCheck(Checksum(h))
            && WordSum(Header(q)) == WordSum(h) - 0x100 - Checksum(h) + UpdatedCheck(Checksum(h))
            && WordSum(Header(q)) > 0 && WordSum(h) > 0
  {
    var q := Decremented(p);
    var h, g := Header(p), Header(q);
    WordSumParts(h);
    WordSumParts(g);
    assert g[..TTL] == h[..TTL] && g[CHECKSUM + 2..] == h[CHECKSUM + 2..];
    assert WordSum(h[..TTL]) >= Word(h[0], h[1]);
  }

  /** A checksum below all ones that makes a header valid is the one computed from scratch. */
  lemma ValidChecksumIsFromScratch(h: seq<byte>)
    requires |h| >= MIN_V4 && HeaderValid(h) && Checksum(h) < 0xFFFF && h[0] > 0
    ensures Checksum(h) == FromScratch(h)
  {
    var z := h[CHECKSUM := 0][CHECKSUM + 1 := 0];
    WordSumParts(h);
    WordSumParts(z);
    assert z[..TTL] == h[..TTL] && z[CHECKSUM + 2..] == h[CHECKSUM + 2..];
    assert WordSum(z) == WordSum(h) - Checksum(h);
    assert WordSum(z[..TTL]) >= Word(z[0], z[1]);
    ValidIffMultiple(h);
    FoldFacts(WordSum(z));
    var f := Fold(WordSum(z));
    SameResidue(WordSum(z), f, Checksum(h));
  }

  lemma SameResidue(s: nat, f: nat, c: nat)
    requires f % 0xFFFF == s % 0xFFFF && (s + c) % 0xFFFF == 0
    requires 0 < f <= 0xFFFF && c < 0xFFFF
    ensures c == 0xFFFF - f
  {
    var k, m := s / 0xFFFF, f / 0xFFFF;
    assert s == 0xFFFF * k + s % 0xFFFF && f == 0xFFFF * m + f % 0xFFFF;
    assert (s + c) == 0xFFFF * ((s + c) / 0xFFFF);
  }

  lemma SumKeepsResidue(s: nat, c: nat, c': nat)
    requires s >= 0x100 + c && c' % 0xFFFF == (c + 0x100) % 0xFFFF
    ensures (s - 0x100 - c + c') % 0xFFFF == s % 0xFFFF
  {
    var k, m := c' / 0xFFFF, (c + 0x100) / 0xFFFF;
    assert c' - (c + 0x100) == 0xFFFF * (k - m);
    if k >= m {
      ModMultiple(s, k - m);
    } else {
      ModMultiple(s - 0xFFFF * (m - k), m - k);
    }
  }

  lemma {:induction false} HopShape(p: seq<byte>, q: seq<byte>)
    requires WholeV4(p) && p[TTL] > 0 && q == Decremented(p)
    ensures WholeV4(q) && q[TTL] == p[TTL] - 1
    ensures forall i :: 0 <= i < |p| && i != TTL && i != CHECKSUM && i != CHECKSUM + 1 ==> q[i] == p[i]
  {
  }

  lemma {:induction false} ValidityFollowsSum(h: seq<byte>, g: seq<byte>, c: nat, c': nat)
    requires WordSum(h) >= 0x100 + c && c' % 0xFFFF == (c + 0x100) % 0xFFFF
    requires WordSum(g) == WordSum(h) - 0x100 - c + c' && WordSum(g) > 0 && WordSum(h) > 0
    ensures HeaderValid(g) <==> HeaderValid(h)
  {
    SumKeepsResidue(WordSum(h), c, c');
    ValidIffMultiple(h);
    ValidIffMultiple(g);
  }

  /** The header's sum holds its TTL, at least one, and its checksum. */
  lemma {:induction false} SumIsLarge(h: seq<byte>)
    requires |h| >= MIN_V4 && h[TTL] > 0
    ensures WordSum(h) >= 0x100 + Checksum(h)
  {
    WordSumParts(h);
  }

  lemma {:induction false} HopKeepsValidity(p: seq<byte>, q: seq<byte>)
    requires WholeV4(p) && p[TTL] > 0 && Same(q, Decremented(p)) && WholeV4(q)
    ensures HeaderValid(Header(q)) <==> HeaderValid(Header(p))
    ensures Checksum(Header(q)) < 0xFFFF && Header(q)[0] > 0
  {
    HopSum(p);
    SumIsLarge(Header(p));
    var c := Checksum(Header(p));
    ValidityFollowsSum(Header(p), Header(q), c, UpdatedCheck(c));
  }

  /**
    One hop. For any IPv4 header with TTL above zero, options or not, the update
    keeps a valid header valid and an invalid one invalid; after it, a valid
    header carries exactly the checksum computed from scratch, also when the
    incoming checksum was 0xFFFF.
   */
  lemma {:induction false} HopKeepsChecksum(p: seq<byte>)
    requires WholeV4(p) && p[TTL] > 0
    ensures var q := Decremented(p);
            && WholeV4(q) && q[TTL] == p[TTL] - 1
            && (HeaderValid(Header(q)) <==> HeaderValid(Header(p)))
            && (HeaderValid(Header(p)) ==> Checksum(Header(q)) == FromScratch(Header(q)))
            && (forall i :: 0 <= i < |p| && i != TTL && i != CHECKSUM && i != CHECKSUM + 1 ==> q[i] == p[i])
  {
    var q := Decremented(p);
    HopShape(p, q);
    HopKeepsValidity(p, q);
    if HeaderValid(Header(p)) {
      ValidChecksumIsFromScratch(Header(q));
    }
  }

  function Hops(p: seq<byte>, n: nat): seq<byte> {
    if n == 0 then p else Decremented(Hops(p, n - 1))
  }

  /** Any number of hops the TTL allows. */
  lemma {:induction false} HopsKeepChecksum(p: seq<byte>, n: nat)
    requires WholeV4(p) && HeaderValid(Header(p)) && n <= p[TTL]
    ensures var q := Hops(p, n);
            && |q| == |p| && WholeV4(q) && HeaderValid(Header(q)) && q[TTL] == p[TTL] - n
            && (n > 0 ==> Checksum(Header(q)) == FromScratch(Header(q)))
            && (forall i :: 0 <= i < |p| && i != TTL && i != CHECKSUM && i != CHECKSUM + 1 ==> q[i] == p[i])
  {
    if n > 0 {
      HopsKeepChecksum(p, n - 1);
      HopKeepsChecksum(Hops(p, n - 1));
    }
  }

  /** One hop of an IPv6 packet: the byte at 7 goes down by one and nothing else changes. */
  lemma HopLowersHopLimit(p: seq<byte>)
    requires IsV6(p)
    ensures OldTtl(p) == Some(p[7])
    ensures Decremented(p) == if p[7] == 0 then p else p[7 := p[7] - 1]
  {
  }

  /** Any number of hops the hop limit allows. */
  lemma {:induction false} HopsLowerHopLimit(p: seq<byte>, n: nat)
    requires IsV6(p) && n <= p[7]
    ensures Hops(p, n) == p[7 := p[7] - n]
  {
    if n == 0 {
      assert p[7 := p[7]] == p;
    } else {
      HopsLowerHopLimit(p, n - 1);
      HopLowersHopLimit(Hops(p, n - 1));
      assert p[7 := p[7] - (n - 1)][7 := p[7] - n] == p[7 := p[7] - n];
    }
  }
}
