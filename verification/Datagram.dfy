/** The CONNECT-IP datagram prefix (src/h3session.rs): a Quarter Stream ID varint and a Context ID. */
module Datagram {
  import opened Base

  const HEADROOM: nat := 10
  const CONTEXT_ID_IP: byte := 0

  /** The number of values a variable-length integer can hold (section 16 of RFC 9000). */
  const VARINT_LIMIT: nat := 0x4000_0000_0000_0000
  const U64_LIMIT: nat := 0x1_0000_0000_0000_0000

  // ----- big-endian numbers -----------------------------------------------------------

  /** `b` followed by `k` zero bytes. */
  function Shifted(b: nat, k: nat): nat {
    if k == 0 then b else 256 * Shifted(b, k - 1)
  }

  /** The `n` low-order bytes of `v`, most significant first. */
  function BigEndian(v: nat, n: nat): (s: seq<byte>)
    ensures |s| == n
    decreases n
  {
    if n == 0 then [] else BigEndian(v / 256, n - 1) + [v % 256]
  }

  function FromBigEndian(s: seq<byte>): nat {
    if s == [] then 0 else 256 * FromBigEndian(s[..|s|-1]) + s[|s|-1]
  }

  lemma {:induction false} NumberSurvives(v: nat, n: nat)
    requires v < Shifted(1, n)
    ensures FromBigEndian(BigEndian(v, n)) == v
  {
    if n > 0 {
      NumberSurvives(v / 256, n - 1);
      assert BigEndian(v, n)[..n-1] == BigEndian(v / 256, n - 1);
    }
  }

  lemma {:induction false} BytesSurvive(s: seq<byte>)
    ensures BigEndian(FromBigEndian(s), |s|) == s
  {
    if s != [] {
      BytesSurvive(s[..|s|-1]);
      assert FromBigEndian(s) / 256 == FromBigEndian(s[..|s|-1]) && FromBigEndian(s) % 256 == s[|s|-1];
    }
  }

  /** The first byte decides where the number lies. */
  lemma {:induction false} FirstByteBounds(s: seq<byte>)
    requires s != []
    ensures Shifted(s[0], |s| - 1) <= FromBigEndian(s) < Shifted(s[0] as int + 1, |s| - 1)
  {
    if |s| > 1 {
      FirstByteBounds(s[..|s|-1]);
    } else {
      assert s[..0] == [];
    }
  }

  // ----- variable-length integers -----------------------------------------------------

  function VarintLen(v: nat): (n: nat)
    requires v < VARINT_LIMIT
    ensures n in {1, 2, 4, 8} && v < Room(n)
  {
    if v < 0x40 then 1 else if v < 0x4000 then 2 else if v < 0x4000_0000 then 4 else 8
  }

  /** The number of values that fit an encoding of `n` bytes beside the two tag bits. */
  function Room(n: nat): nat
    requires n in {1, 2, 4, 8}
  {
    if n == 1 then 0x40 else if n == 2 then 0x4000 else if n == 4 then 0x4000_0000 else VARINT_LIMIT
  }

  /** The two tag bits for `n` bytes, in place. */
  function Tag(n: nat): nat
    requires n in {1, 2, 4, 8}
  {
    if n == 1 then 0 else if n == 2 then 0x4000 else if n == 4 then 0x8000_0000 else 0xC000_0000_0000_0000
  }

  function VarintParseLen(first: byte): (n: nat)
    ensures n in {1, 2, 4, 8}
  {
    if first < 0x40 then 1 else if first < 0x80 then 2 else if first < 0xC0 then 4 else 8
  }

  lemma ShiftedIsRoom(b: nat, n: nat)
    requires n in {1, 2, 4, 8}
    ensures 64 * Shifted(b, n - 1) == b * Room(n) && Shifted(1, n) == 4 * Room(n)
  {
    var c := 1;
    assert Shifted(b, 1) == 0x100 * b && Shifted(b, 2) == 0x1_0000 * b && Shifted(b, 3) == 0x100_0000 * b;
    assert Shifted(b, 4) == 0x1_0000_0000 * b && Shifted(b, 5) == 0x100_0000_0000 * b;
    assert Shifted(b, 6) == 0x1_0000_0000_0000 * b && Shifted(b, 7) == 0x100_0000_0000_0000 * b;
    assert Shifted(c, 4) == 0x1_0000_0000 && Shifted(c, 6) == 0x1_0000_0000_0000 && Shifted(c, 8) == 0x1_0000_0000_0000_0000;
  }

  function EncodeQsi(qsi: nat): (s: seq<byte>)
    requires qsi < VARINT_LIMIT
    ensures |s| == VarintLen(qsi)
  {
    var n := VarintLen(qsi);
    BigEndian(Tag(n) + qsi, n)
  }

  datatype Decoded = Decoded(qsi: nat, len: nat)

  function DecodeQsi(s: seq<byte>): Option<Decoded> {
    if s == [] || |s| < VarintParseLen(s[0]) then None else
      var n := VarintParseLen(s[0]);
      Some(Decoded(FromBigEndian(s[..n]) % Room(n), n))
  }

  /** `n` bytes announce their own number exactly when their value lies in the range of its tag. */
  lemma TagIsRange(s: seq<byte>, n: nat)
    requires n in {1, 2, 4, 8} && |s| == n
    ensures VarintParseLen(s[0]) == n <==> Tag(n) <= FromBigEndian(s) < Tag(n) + Room(n)
  {
    FirstByteBounds(s);
    ShiftedIsRoom(s[0], n);
    ShiftedIsRoom(s[0] as int + 1, n);
  }

  lemma Remainder(n: nat, v: nat)
    requires n in {1, 2, 4, 8} && Tag(n) <= v < Tag(n) + Room(n)
    ensures v % Room(n) == v - Tag(n)
  {
  }

  lemma TagFits(n: nat)
    requires n in {1, 2, 4, 8}
    ensures Tag(n) + Room(n) <= Shifted(1, n)
  {
    ShiftedIsRoom(1, n);
  }

  lemma {:induction false} EncodedValue(n: nat, v: nat)
    requires n in {1, 2, 4, 8} && v < Room(n)
    ensures FromBigEndian(BigEndian(Tag(n) + v, n)) == Tag(n) + v
  {
    TagFits(n);
    NumberSurvives(Tag(n) + v, n);
  }

  /** Bytes whose value carries the tag announce their number and hold the rest of the value. */
  lemma {:induction false} TagIsFirst(n: nat, v: nat, s: seq<byte>)
    requires n in {1, 2, 4, 8} && v < Room(n) && |s| == n && FromBigEndian(s) == Tag(n) + v
    ensures VarintParseLen(s[0]) == n && FromBigEndian(s) % Room(n) == v
  {
    TagIsRange(s, n);
    Remainder(n, Tag(n) + v);
  }

  /** Decoding undoes encoding, whatever follows. */
  lemma {:induction false} DecodeInvertsEncode(qsi: nat, rest: seq<byte>)
    requires qsi < VARINT_LIMIT
    ensures DecodeQsi(EncodeQsi(qsi) + rest) == Some(Decoded(qsi, |EncodeQsi(qsi)|))
  {
    var s := EncodeQsi(qsi);
    EncodedValue(VarintLen(qsi), qsi);
    TagIsFirst(VarintLen(qsi), qsi, s);
    assert (s + rest)[..|s|] == s;
  }

  /** No shorter length holds the value beside its two tag bits. */
  lemma EncodingIsShortest(qsi: nat, n: nat)
    requires qsi < VARINT_LIMIT && n in {1, 2, 4, 8}
    ensures qsi < 0x4000_0000_0000_0000
    ensures 4 * qsi < Shifted(1, n) <==> |EncodeQsi(qsi)| <= n
  {
    ShiftedIsRoom(1, n);
  }

  lemma FourBytes(a: byte, b: byte, c: byte, d: byte)
    ensures FromBigEndian([a, b]) == 256 * a + b
    ensures FromBigEndian([a, b, c, d]) == 16777216 * a + 65536 * b + 256 * c + d
  {
    var s := [a, b, c, d];
    assert s[..3] == [a, b, c] && s[..3][..2] == [a, b] && [a, b][..1] == [a] && [a][..0] == [];
    assert FromBigEndian([a]) == a && FromBigEndian([a, b]) == 256 * a + b;
    assert FromBigEndian([a, b, c]) == 256 * FromBigEndian([a, b]) + c;
  }

  /** Examples of section A.1 of RFC 9000. */
  lemma EncodingExamples()
    ensures EncodeQsi(15293) == [0x7B, 0xBD] && EncodeQsi(494878333) == [0x9D, 0x7F, 0x3E, 0x7D]
  {
    FourBytes(0x7B, 0xBD, 0, 0);
    FourBytes(0x9D, 0x7F, 0x3E, 0x7D);
    BytesSurvive([0x7B, 0xBD]);
    BytesSurvive([0x9D, 0x7F, 0x3E, 0x7D]);
  }

  /** A value decoded from as many bytes as its encoding takes was decoded from its encoding. */
  lemma {:induction false} CanonicalIsEncoding(s: seq<byte>)
    requires DecodeQsi(s).Some?
    ensures var d := DecodeQsi(s).value;
            d.qsi < VARINT_LIMIT && d.len <= |s| && (d.len == VarintLen(d.qsi) ==> Same(s[..d.len], EncodeQsi(d.qsi)))
  {
    var n := VarintParseLen(s[0]);
    var t := s[..n];
    TagIsRange(t, n);
    Remainder(n, FromBigEndian(t));
    BytesSurvive(t);
  }

  // ----- packet buffers ---------------------------------------------------------------

  /** A buffer whose visible contents start at `head`; what precedes is headroom. */
  class PacketBuf {
    const inner: array<byte>
    var head: nat

    ghost predicate Valid()
      reads this
    {
      head <= inner.Length
    }

    function Contents(): seq<byte>
      reads this, inner
      requires Valid()
    {
      inner[head..]
    }

    constructor (inner: array<byte>, head: nat)
      requires head <= inner.Length
      ensures this.inner == inner && this.head == head && Valid()
    {
      this.inner, this.head := inner, head;
    }

    method AddPrefix(prefix: seq<byte>) returns (ok: bool)
      requires Valid()
      modifies this, inner
      ensures Valid() && ok == (old(head) >= |prefix|)
      ensures ok ==> head == old(head) - |prefix| && Contents() == prefix + old(Contents())
      ensures !ok ==> head == old(head) && Contents() == old(Contents())
    {
      if head < |prefix| {
        return false;
      }
      head := head - |prefix|;
      forall i | 0 <= i < |prefix| {
        inner[head + i] := prefix[i];
      }
      ok := true;
      assert inner[head..] == prefix + old(inner[head..]);
    }

    method PopFront(n: nat)
      requires Valid() && n <= |Contents()|
      modifies this`head
      ensures Valid() && head == old(head) + n && Contents() == old(Contents())[n..]
    {
      head := head + n;
    }
  }

  // ----- the codec ----------------------------------------------------------------------

  datatype RawCodec = Codec(qsi: nat, qsiBytes: seq<byte>)

  /** A codec as it is constructed for a CONNECT stream. */
  type Codec = c: RawCodec | c.qsi < VARINT_LIMIT && c.qsiBytes == EncodeQsi(c.qsi)
    witness Codec(0, EncodeQsi(0))

  function NewCodec(streamId: nat): Codec
    requires streamId < U64_LIMIT
  {
    Codec(streamId / 4, EncodeQsi(streamId / 4))
  }

  function Prefix(c: Codec): seq<byte> {
    c.qsiBytes + [CONTEXT_ID_IP]
  }

  /** What `Strip` looks for. */
  predicate Framed(c: Codec, s: seq<byte>) {
    && DecodeQsi(s) == Some(Decoded(c.qsi, |c.qsiBytes|))
    && |s| > |c.qsiBytes| + 1
    && s[|c.qsiBytes|] == CONTEXT_ID_IP
  }

  lemma PrefixOneMore<T>(a: seq<T>, x: T, s: seq<T>)
    requires |a| < |s| && s[..|a|] == a && s[|a|] == x
    ensures a + [x] <= s
  {
  }

  lemma {:induction false} FramedIsPrefixed(c: Codec, s: seq<byte>)
    requires Framed(c, s)
    ensures Prefix(c) <= s
  {
    CanonicalIsEncoding(s);
    PrefixOneMore(c.qsiBytes, CONTEXT_ID_IP, s);
  }

  lemma {:induction false} PrefixedIsFramed(c: Codec, s: seq<byte>)
    requires Prefix(c) <= s && |s| > |Prefix(c)|
    ensures Framed(c, s)
  {
    var n := |c.qsiBytes|;
    assert s[n] == Prefix(c)[n];
    assert s == c.qsiBytes + s[n..];
    DecodeInvertsEncode(c.qsi, s[n..]);
  }

  /** The test accepts exactly the codec's own prefix before a payload that is not empty. */
  lemma {:induction false} FramedIffPrefixed(c: Codec, s: seq<byte>)
    ensures Framed(c, s) <==> Prefix(c) <= s && |s| > |Prefix(c)|
  {
    if Framed(c, s) {
      FramedIsPrefixed(c, s);
    } else if Prefix(c) <= s && |s| > |Prefix(c)| {
      PrefixedIsFramed(c, s);
    }
  }

  /** A frame of one Quarter Stream ID is never taken for another's. */
  lemma {:induction false} OtherStreamsRejected(c: Codec, d: Codec, payload: seq<byte>)
    requires c.qsi != d.qsi
    ensures !Framed(d, Prefix(c) + payload)
  {
    DecodeInvertsEncode(c.qsi, [CONTEXT_ID_IP] + payload);
    assert Prefix(c) + payload == EncodeQsi(c.qsi) + ([CONTEXT_ID_IP] + payload);
  }

  /** Streams of one session whose IDs differ by their type bits only share a codec; others do not. */
  lemma CodecsDiffer(a: nat, b: nat)
    requires a < U64_LIMIT && b < U64_LIMIT
    ensures NewCodec(a) == NewCodec(b) <==> a / 4 == b / 4
    ensures |Prefix(NewCodec(a))| <= 9 < HEADROOM
  {
  }

  lemma Framing<T>(a: seq<T>, x: T, b: seq<T>)
    ensures var s, n := a + [x] + b, |a|; s == a + ([x] + b) && |s| == n + 1 + |b| && s[n] == x && s[n + 1..] == b
  {
  }

  /** What a codec sends: its stream's number divided by four as a shortest varint, a zero byte, the packet. */
  lemma {:induction false} PrefixNamesStream(streamId: nat, payload: seq<byte>)
    requires streamId < U64_LIMIT
    ensures var s, n := Prefix(NewCodec(streamId)) + payload, VarintLen(streamId / 4);
            && DecodeQsi(s) == Some(Decoded(streamId / 4, n)) && |s| == n + 1 + |payload|
            && s[n] == 0 && s[n + 1..] == payload
  {
    var qsi := EncodeQsi(streamId / 4);
    DecodeInvertsEncode(streamId / 4, [CONTEXT_ID_IP] + payload);
    Framing(qsi, CONTEXT_ID_IP, payload);
  }

  /** Writes the prefix into the headroom; without room for both parts the Context ID alone may stay. */
  method Prepend(c: Codec, packet: PacketBuf) returns (ok: bool)
    requires packet.Valid()
    modifies packet, packet.inner
    ensures packet.Valid() && ok == (old(packet.head) >= |Prefix(c)|)
    ensures packet.Contents() ==
              (if ok then Prefix(c) else if old(packet.head) == 0 then [] else [CONTEXT_ID_IP]) + old(packet.Contents())
    ensures old(packet.head) >= HEADROOM ==> ok
  {
    ok := packet.AddPrefix([CONTEXT_ID_IP]);
    if ok {
      ok := packet.AddPrefix(c.qsiBytes);
      assert c.qsiBytes + ([CONTEXT_ID_IP] + old(packet.Contents())) == Prefix(c) + old(packet.Contents());
    }
  }

  /** Removes the prefix of a datagram addressed to this codec and leaves every other buffer as it is. */
  method Strip(c: Codec, packet: PacketBuf) returns (ok: bool)
    requires packet.Valid()
    modifies packet`head
    ensures packet.Valid()
    ensures ok <==> Prefix(c) <= old(packet.Contents()) && |old(packet.Contents())| > |Prefix(c)|
    ensures packet.Contents() == if ok then old(packet.Contents())[|Prefix(c)|..] else old(packet.Contents())
    ensures !ok ==> packet.head == old(packet.head)
  {
    FramedIffPrefixed(c, packet.Contents());
    match DecodeQsi(packet.Contents()) {
      case None =>
        return false;
      case Some(d) =>
        if d.qsi != c.qsi || d.len != |c.qsiBytes| {
          return false;
        }
        var n := d.len + 1;
        if |packet.Contents()| < n || packet.Contents()[d.len] != CONTEXT_ID_IP {
          return false;
        }
        if |packet.Contents()| == n {
          return false;
        }
        packet.PopFront(n);
        return true;
    }
  }

  /** Prepending and then stripping gives the payload back, unless it is empty. */
  method RoundTrip(c: Codec, packet: PacketBuf) returns (ok: bool)
    requires packet.Valid() && packet.head >= HEADROOM
    modifies packet, packet.inner
    ensures packet.Valid() && (ok <==> old(packet.Contents()) != [])
    ensures ok ==> packet.Contents() == old(packet.Contents()) && packet.head == old(packet.head)
  {
    ghost var payload := packet.Contents();
    var fits := Prepend(c, packet);
    assert (Prefix(c) + payload)[|Prefix(c)|..] == payload;
    ok := Strip(c, packet);
  }
}
