/** Validation of a peer list (src/config.rs). */
module PeerRules {
  import opened Base
  import opened Sequences
  import opened Net
  import opened Peers

  // ----- text ------------------------------------------------------------------

  /** Unicode White_Space. */
  predicate IsWhitespace(c: char) {
    var u := c as int;
    || 0x09 <= u <= 0x0D || u == 0x20 || u == 0x85 || u == 0xA0 || u == 0x1680
    || 0x2000 <= u <= 0x200A || u == 0x2028 || u == 0x2029 || u == 0x202F || u == 0x205F || u == 0x3000
  }

  /** The 25 code points of the property, one by one. */
  lemma WhitespaceIs(c: char)
    ensures IsWhitespace(c) <==> c as int in {
              0x09, 0x0A, 0x0B, 0x0C, 0x0D, 0x20, 0x85, 0xA0, 0x1680, 0x2000, 0x2001, 0x2002, 0x2003, 0x2004, 0x2005, 0x2006,
              0x2007, 0x2008, 0x2009, 0x200A, 0x2028, 0x2029, 0x202F, 0x205F, 0x3000}
  {
  }

  function TrimStart(s: string): string {
    if s != [] && IsWhitespace(s[0]) then TrimStart(s[1..]) else s
  }

  function TrimEnd(s: string): string {
    if s != [] && IsWhitespace(s[|s|-1]) then TrimEnd(s[..|s|-1]) else s
  }

  function Trim(s: string): string {
    TrimEnd(TrimStart(s))
  }

  /** Length of the UTF-8 encoding. */
  function Utf8Len(s: string): nat {
    if s == [] then 0 else
      var u := s[0] as int;
      (if u < 0x80 then 1 else if u < 0x800 then 2 else if u < 0x1_0000 then 3 else 4) + Utf8Len(s[1..])
  }

  /** How many code points `n` bytes of UTF-8 can tell apart: the first byte leaves 7, 5, 4 or 3 bits, each other one 6 (RFC 3629). */
  function Utf8Room(n: nat): nat {
    if n == 1 then 128 else if n == 2 then 32 * 64 else if n == 3 then 16 * 64 * 64 else 8 * 64 * 64 * 64
  }

  /** A text's length is that of its parts, and one character takes the fewest bytes it fits in. */
  lemma {:induction false} Utf8LenIsShortest(s: string, c: char, n: nat)
    requires 1 <= n <= 4
    ensures Utf8Len([]) == 0 && Utf8Len([c] + s) == Utf8Len([c]) + Utf8Len(s)
    ensures Utf8Len([c]) <= n <==> (c as int) < Utf8Room(n)
  {
    assert ([c] + s)[1..] == s && [c][1..] == [];
  }

  lemma {:induction false} Utf8LenAtLeast(s: string)
    ensures Utf8Len(s) >= |s|
  {
    if s != [] {
      Utf8LenAtLeast(s[1..]);
    }
  }

  // ----- rules -------------------------------------------------------------------

  const MIN_TOKEN: nat := 12

  predicate Blank(s: string) {
    forall i :: 0 <= i < |s| ==> IsWhitespace(s[i])
  }

  /** Neither end of the text is whitespace. */
  predicate Tight(s: string) {
    s == [] || (!IsWhitespace(s[0]) && !IsWhitespace(s[|s|-1]))
  }

  predicate NoDuplicates(nets: seq<IpNet>) {
    forall i, j :: 0 <= i < j < |nets| ==> nets[i] != nets[j]
  }

  predicate ValidPeer(p: Peer) {
    && !Blank(p.id) && Tight(p.id)
    && (p.transport.H3? ==>
          && Utf8Len(p.transport.token) >= 12 && Tight(p.transport.token)
          && (p.transport.sni.Some? ==> !Blank(p.transport.sni.value) && Tight(p.transport.sni.value))
          && (p.transport.bindif.Some? ==> Tight(p.transport.bindif.value)))
    && p.allowed != [] && NoDuplicates(p.allowed)
  }

  predicate SameToken(a: Peer, b: Peer) {
    a.transport.H3? && b.transport.H3? && a.transport.token == b.transport.token
  }

  /** Every peer is well formed, and no two share an id or a token. */
  predicate ValidPeers(peers: seq<Peer>) {
    && (forall i :: 0 <= i < |peers| ==> ValidPeer(peers[i]))
    && (forall i, j :: 0 <= i < j < |peers| ==> peers[i].id != peers[j].id && !SameToken(peers[i], peers[j]))
  }

  predicate KeyedById(configs: map<string, Peer>) {
    forall id :: id in configs ==> configs[id].id == id
  }

  predicate ValidPeerMap(configs: map<string, Peer>) {
    && KeyedById(configs)
    && (forall id :: id in configs ==> ValidPeer(configs[id]))
    && (forall a, b :: a in configs && b in configs && a != b ==> !SameToken(configs[a], configs[b]))
  }

  /** `peers` lists the values of `configs`, each key once, in any order. */
  ghost predicate Lists(peers: seq<Peer>, keys: seq<string>, configs: map<string, Peer>) {
    && |peers| == |keys|
    && (forall i :: 0 <= i < |keys| ==> keys[i] in configs && peers[i] == configs[keys[i]])
    && (forall i, j :: 0 <= i < j < |keys| ==> keys[i] != keys[j])
    && (forall id :: id in configs ==> id in keys)
  }

  /** Whatever order the values of a map keyed by id come in, the list is valid exactly when the map is. */
  lemma {:induction false} ListingOrderIsIrrelevant(peers: seq<Peer>, keys: seq<string>, configs: map<string, Peer>)
    requires KeyedById(configs) && Lists(peers, keys, configs)
    ensures ValidPeers(peers) <==> ValidPeerMap(configs)
  {
    if ValidPeers(peers) {
      forall id | id in configs
        ensures ValidPeer(configs[id])
      {
        var i :| 0 <= i < |keys| && keys[i] == id;
        assert ValidPeer(peers[i]);
      }
      forall a, b | a in configs && b in configs && a != b
        ensures !SameToken(configs[a], configs[b])
      {
        var i :| 0 <= i < |keys| && keys[i] == a;
        var j :| 0 <= j < |keys| && keys[j] == b;
        assert i < j ==> !SameToken(peers[i], peers[j]);
        assert j < i ==> !SameToken(peers[j], peers[i]);
      }
    }
  }

  // ----- the checks ----------------------------------------------------------------

  datatype Field = IdField | TokenField | SniField | BindifField | AllowedField

  datatype Value = Text(text: string) | Network(net: IpNet)

  /** `peer` is the id named in the error's context. */
  datatype ValidationError =
    | FieldEmpty(peer: string, field: Field)
    | FieldHasWhitespace(peer: string, field: Field)
    | DuplicateValue(peer: string, field: Field, value: Value)
    | PeerTokenTooShort(peer: string)

  function TrimErrors(value: string, peer: string, field: Field, checkEmpty: bool): (es: seq<ValidationError>)
    ensures es == [] <==> Tight(value) && (checkEmpty ==> !Blank(value))
  {
    TrimFacts(value);
    if checkEmpty && Trim(value) == [] then [FieldEmpty(peer, field)]
    else if value != Trim(value) then [FieldHasWhitespace(peer, field)]
    else []
  }

  lemma {:induction false} TrimStartFacts(s: string)
    ensures |TrimStart(s)| <= |s| && TrimStart(s) == s[|s| - |TrimStart(s)|..]
    ensures TrimStart(s) != [] ==> !IsWhitespace(TrimStart(s)[0])
    ensures Blank(s[..|s| - |TrimStart(s)|])
  {
    if s != [] && IsWhitespace(s[0]) {
      TrimStartFacts(s[1..]);
      assert s[..|s| - |TrimStart(s)|] == [s[0]] + s[1..][..|s| - 1 - |TrimStart(s)|];
    }
  }

  lemma {:induction false} TrimEndFacts(s: string)
    ensures |TrimEnd(s)| <= |s| && TrimEnd(s) == s[..|TrimEnd(s)|]
    ensures TrimEnd(s) != [] ==> !IsWhitespace(TrimEnd(s)[|TrimEnd(s)|-1])
    ensures Blank(s[|TrimEnd(s)|..])
  {
    if s != [] && IsWhitespace(s[|s|-1]) {
      TrimEndFacts(s[..|s|-1]);
      assert s[|TrimEnd(s)|..] == s[..|s|-1][|TrimEnd(s)|..] + [s[|s|-1]];
    }
  }

  /** Trimming empties exactly the blank texts and keeps exactly the tight ones. */
  lemma {:induction false} TrimFacts(s: string)
    ensures Trim(s) == [] <==> Blank(s)
    ensures Trim(s) == s <==> Tight(s)
  {
    TrimStartFacts(s);
    TrimEndFacts(TrimStart(s));
    var start := |s| - |TrimStart(s)|;
    if Trim(s) == [] {
      assert s == s[..start] + TrimStart(s);
    } else {
      assert s[start] == TrimStart(s)[0];
    }
  }

  function DuplicateErrors(seen: bool, peer: string, field: Field, value: Value): seq<ValidationError> {
    if seen then [DuplicateValue(peer, field, value)] else []
  }

  predicate IdSeen(peers: seq<Peer>, i: nat)
    requires i < |peers|
  {
    exists j :: 0 <= j < i && peers[j].id == peers[i].id
  }

  predicate TokenSeen(peers: seq<Peer>, i: nat)
    requires i < |peers|
  {
    exists j :: 0 <= j < i && SameToken(peers[j], peers[i])
  }

  function H3Errors(peers: seq<Peer>, i: nat): seq<ValidationError>
    requires i < |peers| && peers[i].transport.H3?
  {
    var p, h3 := peers[i], peers[i].transport;
    (if Utf8Len(h3.token) < MIN_TOKEN then [PeerTokenTooShort(p.id)] else TrimErrors(h3.token, p.id, TokenField, false))
    + DuplicateErrors(TokenSeen(peers, i), p.id, TokenField, Text(h3.token))
    + (if h3.sni.Some? then TrimErrors(h3.sni.value, p.id, SniField, true) else [])
    + (if h3.bindif.Some? then TrimErrors(h3.bindif.value, p.id, BindifField, false) else [])
  }

  /** One duplicate error for every network that occurs earlier in the list. */
  function AllowedErrors(peer: string, nets: seq<IpNet>): (es: seq<ValidationError>)
    ensures es == [] <==> NoDuplicates(nets)
  {
    if nets == [] then [] else
      var k := |nets| - 1;
      AllowedErrors(peer, nets[..k]) + DuplicateErrors(nets[k] in nets[..k], peer, AllowedField, Network(nets[k]))
  }

  function PeerErrors(peers: seq<Peer>, i: nat): seq<ValidationError>
    requires i < |peers|
  {
    var p := peers[i];
    TrimErrors(p.id, p.id, IdField, true)
    + DuplicateErrors(IdSeen(peers, i), p.id, IdField, Text(p.id))
    + (if p.transport.H3? then H3Errors(peers, i) else [])
    + (if p.allowed == [] then [FieldEmpty(p.id, AllowedField)] else [])
    + AllowedErrors(p.id, p.allowed)
  }

  function Each(): seq<ValidationError> -> seq<ValidationError> {
    (es: seq<ValidationError>) => es
  }

  function PerPeer(peers: seq<Peer>): seq<seq<ValidationError>> {
    seq(|peers|, i requires 0 <= i < |peers| => PeerErrors(peers, i))
  }

  /** The errors of all peers, in order. */
  function AllErrors(peers: seq<Peer>): seq<ValidationError> {
    FlatMap(Each(), PerPeer(peers))
  }

  lemma NoH3Errors(peers: seq<Peer>, i: nat)
    requires i < |peers| && peers[i].transport.H3?
    ensures H3Errors(peers, i) == [] <==>
              && Utf8Len(peers[i].transport.token) >= MIN_TOKEN && Tight(peers[i].transport.token)
              && (peers[i].transport.sni.Some? ==> !Blank(peers[i].transport.sni.value) && Tight(peers[i].transport.sni.value))
              && (peers[i].transport.bindif.Some? ==> Tight(peers[i].transport.bindif.value))
              && !TokenSeen(peers, i)
  {
  }

  lemma NoPeerErrors(peers: seq<Peer>, i: nat)
    requires i < |peers|
    ensures PeerErrors(peers, i) == [] <==> ValidPeer(peers[i]) && !IdSeen(peers, i) && !TokenSeen(peers, i)
  {
    if peers[i].transport.H3? {
      NoH3Errors(peers, i);
    }
  }

  /** Every peer obeys its own rules and repeats nothing from before. */
  predicate EachValid(peers: seq<Peer>) {
    forall i :: 0 <= i < |peers| ==> ValidPeer(peers[i]) && !IdSeen(peers, i) && !TokenSeen(peers, i)
  }

  lemma {:induction false} NoErrorsIffEachValid(peers: seq<Peer>)
    ensures AllErrors(peers) == [] <==> EachValid(peers)
  {
    var per := PerPeer(peers);
    FlatMapEmpty(Each(), per);
    forall i | 0 <= i < |peers|
      ensures Each()(per[i]) == [] <==> ValidPeer(peers[i]) && !IdSeen(peers, i) && !TokenSeen(peers, i)
    {
      NoPeerErrors(peers, i);
    }
  }

  lemma EachValidIsValid(peers: seq<Peer>)
    ensures EachValid(peers) <==> ValidPeers(peers)
  {
    if EachValid(peers) {
      forall i, j | 0 <= i < j < |peers|
        ensures peers[i].id != peers[j].id && !SameToken(peers[i], peers[j])
      {
        assert !IdSeen(peers, j) && !TokenSeen(peers, j);
      }
    }
  }

  /** The checks find nothing exactly when the list is valid. */
  lemma {:induction false} NoErrorsIffValid(peers: seq<Peer>)
    ensures AllErrors(peers) == [] <==> ValidPeers(peers)
  {
    NoErrorsIffEachValid(peers);
    EachValidIsValid(peers);
  }

  method CheckUnique<T(==)>(seen: set<T>, value: T, peer: string, field: Field, shown: Value, errors: seq<ValidationError>)
    returns (seen': set<T>, errors': seq<ValidationError>)
    ensures seen' == seen + {value}
    ensures errors' == errors + DuplicateErrors(value in seen, peer, field, shown)
  {
    errors' := errors;
    if value in seen {
      errors' := errors' + [DuplicateValue(peer, field, shown)];
    }
    seen' := seen + {value};
  }

  method CheckTrimmed(value: string, peer: string, field: Field, checkEmpty: bool, errors: seq<ValidationError>)
    returns (errors': seq<ValidationError>)
    ensures errors' == errors + TrimErrors(value, peer, field, checkEmpty)
  {
    if checkEmpty && Trim(value) == [] {
      return errors + [FieldEmpty(peer, field)];
    }
    if value != Trim(value) {
      return errors + [FieldHasWhitespace(peer, field)];
    }
    return errors;
  }

  lemma {:induction false} AllowedOneMore(peer: string, nets: seq<IpNet>, k: nat, before: seq<ValidationError>, es: seq<ValidationError>)
    requires k < |nets| && es == before + AllowedErrors(peer, nets[..k])
    ensures var more := DuplicateErrors(nets[k] in nets[..k], peer, AllowedField, Network(nets[k]));
            Same(es + more, before + AllowedErrors(peer, nets[..k+1]))
  {
    assert nets[..k+1][..k] == nets[..k];
    var more := DuplicateErrors(nets[k] in nets[..k], peer, AllowedField, Network(nets[k]));
    Assoc(before, AllowedErrors(peer, nets[..k]), more);
  }

  lemma Assoc<T>(a: seq<T>, b: seq<T>, c: seq<T>)
    ensures (a + b) + c == a + (b + c)
  {
  }

  /** `seen` holds the first `k` networks. */
  ghost predicate Noted(seen: set<IpNet>, nets: seq<IpNet>, k: nat) {
    k <= |nets| && forall net :: net in seen <==> net in nets[..k]
  }

  lemma NotedOneMore(seen: set<IpNet>, nets: seq<IpNet>, k: nat)
    requires Noted(seen, nets, k) && k < |nets|
    ensures nets[k] in seen <==> nets[k] in nets[..k]
    ensures Noted(seen + {nets[k]}, nets, k + 1)
  {
    assert nets[..k+1] == nets[..k] + [nets[k]];
  }

  method CheckAllowed(p: Peer, errors: seq<ValidationError>) returns (errors': seq<ValidationError>)
    ensures errors' == errors + AllowedErrors(p.id, p.allowed)
  {
    errors' := errors;
    var seen: set<IpNet> := {};
    assert errors' == errors + AllowedErrors(p.id, p.allowed[..0]);
    for k := 0 to |p.allowed|
      invariant Noted(seen, p.allowed, k)
      invariant Same(errors', errors + AllowedErrors(p.id, p.allowed[..k]))
    {
      NotedOneMore(seen, p.allowed, k);
      AllowedOneMore(p.id, p.allowed, k, errors, errors');
      seen, errors' := CheckUnique(seen, p.allowed[k], p.id, AllowedField, Network(p.allowed[k]), errors');
    }
    assert p.allowed[..|p.allowed|] == p.allowed;
  }

  /** Appending piece by piece appends the concatenation. */
  lemma Chain4<T>(e: seq<T>, e0: seq<T>, e1: seq<T>, e2: seq<T>, e3: seq<T>)
    requires e <= e0 <= e1 <= e2 <= e3
    ensures e3 == e + (e0[|e|..] + e1[|e0|..] + e2[|e1|..] + e3[|e2|..])
  {
  }

  lemma Chain5<T>(e: seq<T>, e0: seq<T>, e1: seq<T>, e2: seq<T>, e3: seq<T>, e4: seq<T>)
    requires e <= e0 <= e1 <= e2 <= e3 <= e4
    ensures e4 == e + (e0[|e|..] + e1[|e0|..] + e2[|e1|..] + e3[|e2|..] + e4[|e3|..])
  {
    Chain4(e, e0, e1, e2, e3);
  }

  /** The tokens of the first `n` peers. */
  ghost predicate TokensUpTo(tokens: set<string>, peers: seq<Peer>, n: nat)
    requires n <= |peers|
  {
    forall t :: t in tokens <==> exists j :: 0 <= j < n && peers[j].transport.H3? && peers[j].transport.token == t
  }

  method CheckH3(peers: seq<Peer>, i: nat, tokens: set<string>, errors: seq<ValidationError>)
    returns (tokens': set<string>, errors': seq<ValidationError>)
    requires i < |peers| && peers[i].transport.H3? && TokensUpTo(tokens, peers, i)
    ensures TokensUpTo(tokens', peers, i + 1)
    ensures errors' == errors + H3Errors(peers, i)
  {
    var p, h3 := peers[i], peers[i].transport;
    if Utf8Len(h3.token) < MIN_TOKEN {
      errors' := errors + [PeerTokenTooShort(p.id)];
    } else {
      errors' := CheckTrimmed(h3.token, p.id, TokenField, false, errors);
    }
    ghost var e0 := errors';
    assert h3.token in tokens <==> TokenSeen(peers, i);
    tokens', errors' := CheckUnique(tokens, h3.token, p.id, TokenField, Text(h3.token), errors');
    ghost var e1 := errors';
    if h3.sni.Some? {
      errors' := CheckTrimmed(h3.sni.value, p.id, SniField, true, errors');
    }
    ghost var e2 := errors';
    if h3.bindif.Some? {
      errors' := CheckTrimmed(h3.bindif.value, p.id, BindifField, false, errors');
    }
    Chain4(errors, e0, e1, e2, errors');
  }

  ghost predicate IdsUpTo(ids: set<string>, peers: seq<Peer>, n: nat)
    requires n <= |peers|
  {
    forall id :: id in ids <==> exists j :: 0 <= j < n && peers[j].id == id
  }

  method CheckPeer(peers: seq<Peer>, i: nat, ids: set<string>, tokens: set<string>, errors: seq<ValidationError>)
    returns (ids': set<string>, tokens': set<string>, errors': seq<ValidationError>)
    requires i < |peers| && IdsUpTo(ids, peers, i) && TokensUpTo(tokens, peers, i)
    ensures IdsUpTo(ids', peers, i + 1) && TokensUpTo(tokens', peers, i + 1)
    ensures errors' == errors + PeerErrors(peers, i)
  {
    var p := peers[i];
    errors' := CheckTrimmed(p.id, p.id, IdField, true, errors);
    ghost var e0 := errors';
    assert p.id in ids <==> IdSeen(peers, i);
    ids', errors' := CheckUnique(ids, p.id, p.id, IdField, Text(p.id), errors');
    ghost var e1 := errors';
    tokens' := tokens;
    if p.transport.H3? {
      tokens', errors' := CheckH3(peers, i, tokens, errors');
    }
    ghost var e2 := errors';
    if p.allowed == [] {
      errors' := errors' + [FieldEmpty(p.id, AllowedField)];
    }
    ghost var e3 := errors';
    errors' := CheckAllowed(p, errors');
    Chain5(errors, e0, e1, e2, e3, errors');
  }

  lemma {:induction false} PerPeerOneMore(peers: seq<Peer>, per: seq<seq<ValidationError>>, i: nat, errors: seq<ValidationError>)
    requires i < |peers| && per == PerPeer(peers) && Same(errors, FlatMap(Each(), per[..i]))
    ensures Same(errors + PeerErrors(peers, i), FlatMap(Each(), per[..i+1]))
  {
    assert per[..i+1] == per[..i] + [per[i]];
    FlatMapAppend(Each(), per[..i], [per[i]]);
    FlatMapOne(Each(), per[i]);
  }

  /** Reports exactly the rule violations, peer by peer; the list is valid exactly when there are none. */
  method ValidatePeers(peers: seq<Peer>) returns (errors: seq<ValidationError>)
    ensures errors == AllErrors(peers)
    ensures errors == [] <==> ValidPeers(peers)
  {
    errors := [];
    var ids, tokens: set<string> := {}, {};
    ghost var per := PerPeer(peers);
    for i := 0 to |peers|
      invariant Same(errors, FlatMap(Each(), per[..i]))
      invariant IdsUpTo(ids, peers, i) && TokensUpTo(tokens, peers, i)
    {
      PerPeerOneMore(peers, per, i, errors);
      ids, tokens, errors := CheckPeer(peers, i, ids, tokens, errors);
    }
    assert per[..|peers|] == per;
    NoErrorsIffValid(peers);
  }
}
