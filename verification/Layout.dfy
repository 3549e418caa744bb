/** IP packets laid out from their header fields (RFC 791, RFC 8200), and what src/router.rs reads of them. */
module Layout {
  import opened Base
  import opened Net
  import opened Ttl
  import Ingress

  // ----- addresses as bytes ---------------------------------------------------------------------

  lemma BitOfIs(b: byte)
    ensures Ingress.BitOf(b, 0) == (b / 128 % 2 == 1) && Ingress.BitOf(b, 1) == (b / 64 % 2 == 1)
    ensures Ingress.BitOf(b, 2) == (b / 32 % 2 == 1) && Ingress.BitOf(b, 3) == (b / 16 % 2 == 1)
    ensures Ingress.BitOf(b, 4) == (b / 8 % 2 == 1) && Ingress.BitOf(b, 5) == (b / 4 % 2 == 1)
    ensures Ingress.BitOf(b, 6) == (b / 2 % 2 == 1) && Ingress.BitOf(b, 7) == (b % 2 == 1)
  {
  }

  /** The eight binary digits of a number below 256, and the number from them. */
  lemma Digits(b: int, x0: int, x1: int, x2: int, x3: int, x4: int, x5: int, x6: int, x7: int)
    requires 0 <= x0 <= 1 && 0 <= x1 <= 1 && 0 <= x2 <= 1 && 0 <= x3 <= 1
    requires 0 <= x4 <= 1 && 0 <= x5 <= 1 && 0 <= x6 <= 1 && 0 <= x7 <= 1
    requires b == 128 * x0 + 64 * x1 + 32 * x2 + 16 * x3 + 8 * x4 + 4 * x5 + 2 * x6 + x7
    ensures b / 128 % 2 == x0 && b / 64 % 2 == x1 && b / 32 % 2 == x2 && b / 16 % 2 == x3
    ensures b / 8 % 2 == x4 && b / 4 % 2 == x5 && b / 2 % 2 == x6 && b % 2 == x7
  {
    assert b / 128 == x0;
    assert b / 64 == 2 * x0 + x1;
    assert b / 32 == 4 * x0 + 2 * x1 + x2;
    assert b / 16 == 8 * x0 + 4 * x1 + 2 * x2 + x3;
    assert b / 8 == 16 * x0 + 8 * x1 + 4 * x2 + 2 * x3 + x4;
    assert b / 4 == 32 * x0 + 16 * x1 + 8 * x2 + 4 * x3 + 2 * x4 + x5;
    assert b / 2 == 64 * x0 + 32 * x1 + 16 * x2 + 8 * x3 + 4 * x4 + 2 * x5 + x6;
  }

  lemma {:induction false} BitOfOctet(bits: seq<bool>, k: nat)
    requires |bits| == 8 && k < 8
    ensures Ingress.BitOf(Octet(bits), k) == bits[k]
  {
    OctetDigits(bits, Octet(bits));
    BitOfIs(Octet(bits));
    if k < 4 {
      assert k == 0 || k == 1 || k == 2 || k == 3;
    } else {
      assert k == 4 || k == 5 || k == 6 || k == 7;
    }
  }

  lemma OctetDigits(bits: seq<bool>, b: byte)
    requires |bits| == 8 && b == Octet(bits)
    ensures (b / 128 % 2 == 1) == bits[0] && (b / 64 % 2 == 1) == bits[1] && (b / 32 % 2 == 1) == bits[2]
    ensures (b / 16 % 2 == 1) == bits[3] && (b / 8 % 2 == 1) == bits[4] && (b / 4 % 2 == 1) == bits[5]
    ensures (b / 2 % 2 == 1) == bits[6] && (b % 2 == 1) == bits[7]
  {
    Digits(b, Bit(bits[0]), Bit(bits[1]), Bit(bits[2]), Bit(bits[3]), Bit(bits[4]), Bit(bits[5]), Bit(bits[6]), Bit(bits[7]));
  }

  /** A number from its digits, given its halves. */
  lemma Doubling(b: int, b1: int, b2: int, b3: int, b4: int, b5: int, b6: int, b7: int)
    requires 0 <= b < 256
    requires b1 == b / 2 && b2 == b1 / 2 && b3 == b2 / 2 && b4 == b3 / 2 && b5 == b4 / 2 && b6 == b5 / 2 && b7 == b6 / 2
    ensures b == 128 * b7 + 64 * (b6 % 2) + 32 * (b5 % 2) + 16 * (b4 % 2) + 8 * (b3 % 2) + 4 * (b2 % 2) + 2 * (b1 % 2) + b % 2
    ensures 0 <= b7 <= 1
  {
  }

  lemma Halves(b: int)
    requires 0 <= b < 256
    ensures b / 4 == b / 2 / 2 && b / 8 == b / 4 / 2 && b / 16 == b / 8 / 2 && b / 32 == b / 16 / 2
    ensures b / 64 == b / 32 / 2 && b / 128 == b / 64 / 2
  {
  }

  lemma Halving(b: int)
    requires 0 <= b < 256
    ensures b == 128 * (b / 128 % 2) + 64 * (b / 64 % 2) + 32 * (b / 32 % 2) + 16 * (b / 16 % 2)
                 + 8 * (b / 8 % 2) + 4 * (b / 4 % 2) + 2 * (b / 2 % 2) + b % 2
  {
    Halves(b);
    Doubling(b, b / 2, b / 4, b / 8, b / 16, b / 32, b / 64, b / 128);
  }

  lemma OctetSum(bits: seq<bool>, b: byte, d0: int, d1: int, d2: int, d3: int, d4: int, d5: int, d6: int, d7: int)
    requires |bits| == 8 && Bit(bits[0]) == d0 && Bit(bits[1]) == d1 && Bit(bits[2]) == d2 && Bit(bits[3]) == d3
    requires Bit(bits[4]) == d4 && Bit(bits[5]) == d5 && Bit(bits[6]) == d6 && Bit(bits[7]) == d7
    requires b == 128 * d0 + 64 * d1 + 32 * d2 + 16 * d3 + 8 * d4 + 4 * d5 + 2 * d6 + d7
    ensures Octet(bits) == b
  {
  }

  lemma DigitOf(b: byte, k: nat, w: nat)
    requires w == Ingress.Weight(k)
    ensures Bit(Ingress.BitOf(b, k)) == b / w % 2
  {
  }

  predicate BitsOf(bits: seq<bool>, b: byte) {
    |bits| == 8 && forall k: nat :: k < 8 ==> bits[k] == Ingress.BitOf(b, k)
  }

  lemma {:induction false} OctetOfBits(b: byte, bits: seq<bool>)
    requires BitsOf(bits, b)
    ensures Octet(bits) == b
  {
    DigitOf(b, 0, 128);
    DigitOf(b, 1, 64);
    DigitOf(b, 2, 32);
    DigitOf(b, 3, 16);
    DigitOf(b, 4, 8);
    DigitOf(b, 5, 4);
    DigitOf(b, 6, 2);
    DigitOf(b, 7, 1);
    Halving(b);
    OctetSum(bits, b, b / 128 % 2, b / 64 % 2, b / 32 % 2, b / 16 % 2, b / 8 % 2, b / 4 % 2, b / 2 % 2, b % 2);
  }

  lemma BitAt(p: seq<byte>, from: nat, n: nat, j: nat, k: nat)
    requires from + n <= |p| && j < n && k < 8
    ensures Ingress.BitsAt(p, from, n)[8 * j + k] == Ingress.BitOf(p[from + j], k)
  {
    assert (8 * j + k) / 8 == j && (8 * j + k) % 8 == k;
  }

  lemma {:induction false} ReadBit(p: seq<byte>, from: nat, n: nat, ip: Ip, k: nat)
    requires from + n <= |p| && 8 * n == Width(ip.family) && k < 8 * n && p[from + k / 8] == Octet(ByteBits(ip, k / 8))
    ensures Ingress.BitsAt(p, from, n)[k] == ip.bits[k]
  {
    BitAt(p, from, n, k / 8, k % 8);
    BitOfOctet(ByteBits(ip, k / 8), k % 8);
  }

  /** Reading back the bytes of an address gives its bits. */
  lemma {:induction false} ReadAddress(p: seq<byte>, from: nat, ip: Ip)
    requires from + |AddressBytes(ip)| <= |p| && p[from..from + |AddressBytes(ip)|] == AddressBytes(ip)
    ensures Ingress.BitsAt(p, from, |AddressBytes(ip)|) == ip.bits
  {
    var n := |AddressBytes(ip)|;
    forall k | 0 <= k < 8 * n
      ensures Ingress.BitsAt(p, from, n)[k] == ip.bits[k]
    {
      assert p[from + k / 8] == p[from..from + n][k / 8];
      ReadBit(p, from, n, ip, k);
    }
  }

  lemma {:induction false} WriteByte(p: seq<byte>, from: nat, n: nat, ip: Ip, j: nat)
    requires from + n <= |p| && 8 * n == Width(ip.family) && j < n && ip.bits == Ingress.BitsAt(p, from, n)
    ensures Octet(ByteBits(ip, j)) == p[from + j]
  {
    var bits := ByteBits(ip, j);
    forall k: nat | k < 8
      ensures bits[k] == Ingress.BitOf(p[from + j], k)
    {
      BitAt(p, from, n, j, k);
    }
    OctetOfBits(p[from + j], bits);
  }

  /** Bytes read as an address are the bytes of that address. */
  lemma {:induction false} WriteAddress(p: seq<byte>, from: nat, ip: Ip)
    requires from + Width(ip.family) / 8 <= |p| && ip.bits == Ingress.BitsAt(p, from, Width(ip.family) / 8)
    ensures AddressBytes(ip) == p[from..from + Width(ip.family) / 8]
  {
    var n := Width(ip.family) / 8;
    forall j | 0 <= j < n
      ensures AddressBytes(ip)[j] == p[from..from + n][j]
    {
      WriteByte(p, from, n, ip, j);
    }
  }

  // ----- packets ---------------------------------------------------------------------------------

  /** IPv4: 12 bytes that begin with the version, source, destination, and what follows. */
  predicate IsHeadV4(head: seq<byte>) {
    |head| == 12 && head[0] / 16 == 4
  }

  /** IPv6: 8 bytes that begin with the version, source, destination, and what follows. */
  predicate IsHeadV6(head: seq<byte>) {
    |head| == 8 && head[0] / 16 == 6
  }

  function PacketOf(head: seq<byte>, src: Ip, dst: Ip, rest: seq<byte>): seq<byte> {
    head + AddressBytes(src) + AddressBytes(dst) + rest
  }

  ghost predicate LaidOut(p: seq<byte>, head: seq<byte>, src: Ip, dst: Ip, rest: seq<byte>) {
    && src.family == dst.family && p == PacketOf(head, src, dst, rest)
    && if dst.family.V4? then IsHeadV4(head) else IsHeadV6(head)
  }

  /** The packet has this destination in its header, whatever its other fields are. */
  ghost predicate Addressed(p: seq<byte>, dst: Ip) {
    exists head, src, rest :: LaidOut(p, head, src, dst, rest)
  }

  lemma {:induction false} ExtractsWhatWasPut(head: seq<byte>, src: Ip, dst: Ip, rest: seq<byte>)
    requires src.family == dst.family && if dst.family.V4? then IsHeadV4(head) else IsHeadV6(head)
    ensures Ingress.ExtractDstIp(PacketOf(head, src, dst, rest)) == Some(dst)
  {
    var p := PacketOf(head, src, dst, rest);
    var from := |head| + |AddressBytes(src)|;
    assert p[0] == head[0];
    assert p[from..from + |AddressBytes(dst)|] == AddressBytes(dst);
    ReadAddress(p, from, dst);
  }

  lemma Pieces<T>(p: seq<T>, i: nat, j: nat, k: nat)
    requires i <= j <= k <= |p|
    ensures p == p[..i] + p[i..j] + p[j..k] + p[k..]
  {
  }

  /** A packet cut at its addresses. */
  lemma {:induction false} Cut(p: seq<byte>, from: nat, n: nat, src: Ip, dst: Ip)
    requires src.family == dst.family && n == Width(src.family) / 8 && from + n + n <= |p|
    requires src.bits == Ingress.BitsAt(p, from, n) && dst.bits == Ingress.BitsAt(p, from + n, n)
    ensures p == PacketOf(p[..from], src, dst, p[from + n + n..])
  {
    WriteAddress(p, from, src);
    WriteAddress(p, from + n, dst);
    Pieces(p, from, from + n, from + n + n);
  }

  lemma {:induction false} AddressesWerePut(p: seq<byte>, from: nat, n: nat, dst: Ip)
    requires n == Width(dst.family) / 8 && from + n + n <= |p| && dst.bits == Ingress.BitsAt(p, from + n, n)
    requires if dst.family.V4? then IsHeadV4(p[..from]) else IsHeadV6(p[..from])
    ensures Addressed(p, dst)
  {
    var src: Ip := Ip(dst.family, Ingress.BitsAt(p, from, n));
    Cut(p, from, n, src, dst);
    assert LaidOut(p, p[..from], src, dst, p[from + n + n..]);
  }

  lemma {:induction false} ExtractedWasPut(p: seq<byte>)
    requires Ingress.ExtractDstIp(p).Some?
    ensures Addressed(p, Ingress.ExtractDstIp(p).value)
  {
    if IsV4(p) {
      AddressesWerePut(p, 12, 4, Ingress.ExtractDstIp(p).value);
    } else {
      AddressesWerePut(p, 8, 16, Ingress.ExtractDstIp(p).value);
    }
  }

  /** The router reads exactly the destination the header was laid out with, and none where there is no such header. */
  lemma {:induction false} ExtractsDestination(p: seq<byte>, dst: Ip)
    ensures Ingress.ExtractDstIp(p) == Some(dst) <==> Addressed(p, dst)
    ensures Ingress.ExtractDstIp(p).None? ==> !Addressed(p, dst)
  {
    if Addressed(p, dst) {
      var head, src, rest :| LaidOut(p, head, src, dst, rest);
      ExtractsWhatWasPut(head, src, dst, rest);
    }
    if Ingress.ExtractDstIp(p) == Some(dst) {
      ExtractedWasPut(p);
    }
  }
}
