/** Peer configuration values (src/config.rs). */
module Peers {
  import opened Base
  import opened Net

  datatype UdpEndpoint = UdpEndpoint(host: string, port: nat)

  datatype H3Endpoint = H3Endpoint(host: string, port: nat, path: string)

  /** The configured endpoint a connection was dialed for. */
  datatype Endpoint = ToUdp(udp: UdpEndpoint) | ToH3(h3: H3Endpoint)

  datatype Transport =
    | Bare(udp: UdpEndpoint, bindif: Option<string>)
    | H3(h3: Option<H3Endpoint>, token: string, bindif: Option<string>, sni: Option<string>)

  datatype Peer = Peer(id: string, transport: Transport, allowed: seq<IpNet>)

  function ConfigEndpoint(p: Peer): Option<Endpoint> {
    match p.transport
    case Bare(udp, _) => Some(ToUdp(udp))
    case H3(Some(h3), _, _, _) => Some(ToH3(h3))
    case H3(None, _, _, _) => None
  }

  function StripLeading(s: string, c: char): string {
    if s != [] && s[0] == c then StripLeading(s[1..], c) else s
  }

  function StripTrailing(s: string, c: char): string {
    if s != [] && s[|s|-1] == c then StripTrailing(s[..|s|-1], c) else s
  }

  function StripBrackets(host: string): string {
    StripTrailing(StripLeading(host, '['), ']')
  }

  function Repeated(c: char, n: nat): string {
    seq(n, _ => c)
  }

  lemma {:induction false} StripLeadingFacts(s: string, c: char) returns (n: nat)
    ensures s == Repeated(c, n) + StripLeading(s, c) && (StripLeading(s, c) != [] ==> StripLeading(s, c)[0] != c)
  {
    n := 0;
    if s != [] && s[0] == c {
      var m := StripLeadingFacts(s[1..], c);
      n := m + 1;
      assert Repeated(c, n) == [c] + Repeated(c, m);
      assert s == [c] + s[1..];
    }
  }

  lemma {:induction false} StripTrailingFacts(s: string, c: char) returns (n: nat)
    ensures var r := StripTrailing(s, c); s == r + Repeated(c, n) && (r != [] ==> r[|r| - 1] != c)
  {
    n := 0;
    if s != [] && s[|s|-1] == c {
      var m := StripTrailingFacts(s[..|s|-1], c);
      n := m + 1;
      assert Repeated(c, n) == Repeated(c, m) + [c];
      assert s == s[..|s|-1] + [c];
    }
  }

  /** The name starts with no opening bracket and ends with no closing one. */
  predicate Plain(name: string) {
    name != [] ==> name[0] != '[' && name[|name| - 1] != ']'
  }

  function Bracketed(name: string, m: nat, n: nat): string {
    Repeated('[', m) + name + Repeated(']', n)
  }

  lemma {:induction false} StripBracketsFacts(host: string) returns (m: nat, n: nat)
    ensures Plain(StripBrackets(host)) && host == Bracketed(StripBrackets(host), m, n)
  {
    m := StripLeadingFacts(host, '[');
    n := StripTrailingFacts(StripLeading(host, '['), ']');
  }

  lemma {:induction false} StripRepeatedLeading(c: char, n: nat, rest: string)
    ensures StripLeading(Repeated(c, n) + rest, c) == StripLeading(rest, c)
  {
    if n == 0 {
      assert Repeated(c, 0) + rest == rest;
    } else {
      StripRepeatedLeading(c, n - 1, rest);
      assert (Repeated(c, n) + rest)[1..] == Repeated(c, n - 1) + rest;
    }
  }

  lemma {:induction false} StripRepeatedTrailing(front: string, c: char, n: nat)
    ensures StripTrailing(front + Repeated(c, n), c) == StripTrailing(front, c)
  {
    if n == 0 {
      assert front + Repeated(c, 0) == front;
    } else {
      StripRepeatedTrailing(front, c, n - 1);
      var s := front + Repeated(c, n);
      assert s[..|s|-1] == front + Repeated(c, n - 1);
    }
  }

  /** The name the resolver is asked for on behalf of a peer. */
  function DnsHostname(p: Peer): Option<string> {
    match p.transport
    case Bare(udp, _) => Some(udp.host)
    case H3(Some(h3), _, _, _) => Some(StripBrackets(h3.host))
    case H3(None, _, _, _) => None
  }

  /** The tokens the listener accepts, by peer id. */
  function Tokens(configs: map<string, Peer>): map<string, string> {
    map id | id in configs && configs[id].transport.H3? :: configs[id].transport.token
  }

  function Hostnames(configs: map<string, Peer>): set<string> {
    set id | id in configs && DnsHostname(configs[id]).Some? :: DnsHostname(configs[id]).value
  }
}
