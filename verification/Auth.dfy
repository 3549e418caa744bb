/** Bearer authentication (src/auth.rs) against the tokens the control plane sends out. */
module Auth {
  import opened Base
  import opened Peers
  import opened PeerRules
  import opened ControlPlane
  import opened Downstream
  import Orch

  datatype AuthError = MissingHeader | NotBearer | EmptyToken | InvalidToken

  const BEARER: string := "Bearer "

  function BearerHeader(token: string): string {
    BEARER + token
  }

  /** The first pair whose token is the presented one; comparing MACs is comparing tokens. */
  function FirstMatch(token: string, tokens: seq<(string, string)>): Result<string, AuthError> {
    if tokens == [] then Err(InvalidToken)
    else if tokens[0].1 == token then Ok(tokens[0].0)
    else FirstMatch(token, tokens[1..])
  }

  function ValidateConnectAuth(header: Option<string>, tokens: seq<(string, string)>): Result<string, AuthError> {
    match header
    case None => Err(MissingHeader)
    case Some(h) =>
      if !(BEARER <= h) then Err(NotBearer)
      else if h[|BEARER|..] == [] then Err(EmptyToken)
      else FirstMatch(h[|BEARER|..], tokens)
  }

  /** `listing` holds every pair of the map, in any order. */
  ghost predicate ListsTokens(listing: seq<(string, string)>, tokens: map<string, string>) {
    && (forall i :: 0 <= i < |listing| ==> listing[i].0 in tokens && listing[i].1 == tokens[listing[i].0])
    && (forall id :: id in tokens ==> (id, tokens[id]) in listing)
  }

  predicate Distinct(tokens: map<string, string>) {
    forall a, b :: a in tokens && b in tokens && tokens[a] == tokens[b] ==> a == b
  }

  lemma {:induction false} FirstMatchFinds(token: string, listing: seq<(string, string)>)
    ensures match FirstMatch(token, listing)
            case Ok(id) => (id, token) in listing
            case Err(e) => e == InvalidToken && forall i :: 0 <= i < |listing| ==> listing[i].1 != token
  {
    if listing != [] && listing[0].1 != token {
      FirstMatchFinds(token, listing[1..]);
    } else if listing != [] {
      assert listing[0] == (listing[0].0, token);
    }
  }

  /** A header authenticates as `id` exactly when it carries that peer's token, whatever order the tokens come in. */
  lemma AuthenticatesExactly(header: Option<string>, listing: seq<(string, string)>, tokens: map<string, string>, id: string)
    requires ListsTokens(listing, tokens) && Distinct(tokens)
    requires forall x :: x in tokens ==> tokens[x] != []
    ensures ValidateConnectAuth(header, listing) == Ok(id) <==>
              id in tokens && header == Some(BearerHeader(tokens[id]))
  {
    if header.Some? && BEARER <= header.value {
      var token := header.value[|BEARER|..];
      assert header.value == BEARER + token;
      FirstMatchFinds(token, listing);
      if id in tokens && header.value == BearerHeader(tokens[id]) {
        assert token == tokens[id] && (id, token) in listing;
      }
    }
  }

  /** Why a header is refused: it is missing, does not start as a Bearer header, has nothing after that, or names nobody. */
  lemma RefusalsSayWhy(header: Option<string>, listing: seq<(string, string)>)
    requires forall i :: 0 <= i < |listing| ==> listing[i].1 != []
    ensures var r := ValidateConnectAuth(header, listing);
            && (r == Err(MissingHeader) <==> header == None)
            && (r == Err(NotBearer) <==> header.Some? && forall rest :: header.value != "Bearer " + rest)
            && (r == Err(EmptyToken) <==> header == Some("Bearer "))
            && (r.Ok? <==> exists i :: 0 <= i < |listing| && header == Some("Bearer " + listing[i].1))
  {
    if header.Some? && BEARER <= header.value {
      var token := header.value[|BEARER|..];
      assert header.value == "Bearer " + token;
      if token == [] {
        assert header.value == BEARER;
      }
      FirstMatchFinds(token, listing);
      if ValidateConnectAuth(header, listing).Ok? {
        assert (ValidateConnectAuth(header, listing).value, token) in listing;
      }
      if i :| 0 <= i < |listing| && header == Some("Bearer " + listing[i].1) {
        assert token == listing[i].1;
      }
    } else if header.Some? {
      forall rest
        ensures header.value != "Bearer " + rest
      {
        assert BEARER <= "Bearer " + rest;
      }
    }
  }

  lemma ValidTokens(configs: map<string, Peer>)
    requires ValidPeerMap(configs)
    ensures Distinct(Tokens(configs)) && forall id :: id in Tokens(configs) ==> Tokens(configs)[id] != []
  {
    forall a, b | a in Tokens(configs) && b in Tokens(configs) && Tokens(configs)[a] == Tokens(configs)[b]
      ensures a == b
    {
      assert SameToken(configs[a], configs[b]);
    }
  }

  /**
    In every run of API edits and everything else, once the listener has
    received what was sent to it, presenting a configured HTTP/3 peer's token
    authenticates as that peer and as nobody else, whatever order the listener
    scans its tokens in.
   */
  lemma {:induction false} PeersAuthenticateAsThemselves(
    run: seq<World>, moves: seq<Move>, configs: map<string, Peer>, p: Params, l: Local, i: nat,
    listing: seq<(string, string)>, header: Option<string>, id: string)
    requires ValidPeerMap(configs) && IsHistory(run, moves, configs, p, l) && i < |run|
    requires run[i].toListener == [] && ListsTokens(listing, run[i].tokens)
    ensures var peers := run[i].sys.orch.peers;
            ValidateConnectAuth(header, listing) == Ok(id) <==>
              id in peers && peers[id].config.transport.H3? && header == Some("Bearer " + peers[id].config.transport.token)
  {
    ListenerHasCurrentTokens(run, moves, configs, p, l, i);
    ValidTokens(Orch.Configs(run[i].sys.orch.peers));
    AuthenticatesExactly(header, listing, run[i].tokens, id);
  }
}
