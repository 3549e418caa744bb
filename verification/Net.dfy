/** IP addresses and prefixes as bit strings, most significant bit first. */
module Net {
  import opened Base

  datatype Family = V4 | V6

  function Width(family: Family): nat {
    if family.V4? then 32 else 128
  }

  datatype RawIp = Ip(family: Family, bits: seq<bool>)

  type Ip = ip: RawIp | |ip.bits| == Width(ip.family)
    witness Ip(V4, seq(32, _ => false))

  datatype RawIpNet = IpNet(addr: Ip, len: nat)

  /** An address with a prefix length; bits past the length may be set. */
  type IpNet = net: RawIpNet | net.len <= Width(net.addr.family)
    witness IpNet(Ip(V4, seq(32, _ => false)), 0)

  /** A prefix without host bits: what two `IpNet` values naming the same network share. */
  datatype Prefix = Prefix(family: Family, bits: seq<bool>)

  function Canonical(net: IpNet): Prefix {
    Prefix(net.addr.family, net.addr.bits[..net.len])
  }

  /** The host prefix (/32 or /128) of an address. */
  function HostNet(ip: Ip): IpNet {
    IpNet(ip, Width(ip.family))
  }

  predicate InPrefix(p: Prefix, ip: Ip) {
    p.family == ip.family && p.bits <= ip.bits
  }

  predicate Contains(net: IpNet, ip: Ip) {
    InPrefix(Canonical(net), ip)
  }

  predicate ContainsNet(outer: IpNet, inner: IpNet) {
    outer.addr.family == inner.addr.family && Canonical(outer).bits <= Canonical(inner).bits
  }

  /** `bits` followed by `fill` up to the width of the family. */
  function Extend(family: Family, bits: seq<bool>, fill: bool): (ip: Ip)
    requires |bits| <= Width(family)
    ensures ip.family == family && bits <= ip.bits
    ensures forall i :: |bits| <= i < |ip.bits| ==> ip.bits[i] == fill
  {
    Ip(family, bits + seq(Width(family) - |bits|, _ => fill))
  }

  /** The first address of a network. */
  function Network(net: IpNet): Ip {
    Extend(net.addr.family, net.addr.bits[..net.len], false)
  }

  /** The last address of a network. */
  function Broadcast(net: IpNet): Ip {
    Extend(net.addr.family, net.addr.bits[..net.len], true)
  }

  /** The network with its host bits cleared. */
  function Trunc(net: IpNet): IpNet {
    IpNet(Network(net), net.len)
  }

  lemma TruncKeepsPrefix(net: IpNet)
    ensures Canonical(Trunc(net)) == Canonical(net)
  {
    assert Network(net).bits[..net.len] == net.addr.bits[..net.len];
  }

  // ----- addresses as bytes ---------------------------------------------------------

  function Bit(b: bool): nat {
    if b then 1 else 0
  }

  /** Eight bits as a number, most significant first. */
  function Octet(bits: seq<bool>): byte
    requires |bits| == 8
  {
    128 * Bit(bits[0]) + 64 * Bit(bits[1]) + 32 * Bit(bits[2]) + 16 * Bit(bits[3])
    + 8 * Bit(bits[4]) + 4 * Bit(bits[5]) + 2 * Bit(bits[6]) + Bit(bits[7])
  }

  /** The eight bits of an address that make its byte `j`. */
  function ByteBits(ip: Ip, j: nat): (bits: seq<bool>)
    requires 8 * j + 8 <= Width(ip.family)
    ensures |bits| == 8 && forall k :: 0 <= k < 8 ==> bits[k] == ip.bits[8 * j + k]
  {
    ip.bits[8 * j..8 * j + 8]
  }

  /** An address in network byte order. */
  function AddressBytes(ip: Ip): (s: seq<byte>)
    ensures |s| == Width(ip.family) / 8
  {
    seq(Width(ip.family) / 8, k requires 0 <= k < Width(ip.family) / 8 => Octet(ByteBits(ip, k)))
  }
}
