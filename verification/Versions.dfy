// The protocol versions this client negotiates, and the connection a handshake settles
// (client/protocol_version.go, client/negotiation.go).
module Versions {
  import opened Wrappers

  type Version = string

  const V20260728: Version := "2026-07-28"
  const V20251125: Version := "2025-11-25"
  const V20250618: Version := "2025-06-18"

  const LATEST := V20260728

  datatype Era = Initialize | Discovery

  function HandshakeFor(version: Version): Era {
    if version == V20260728 then Discovery else Initialize
  }

  const CLIENT_SUPPORTED: seq<Version> := [V20260728, V20251125, V20250618]
  const INITIALIZE_SUPPORTED: seq<Version> := [V20251125, V20250618]

  predicate Supported(version: Version) {
    version in CLIENT_SUPPORTED
  }

  function Preferred(supported: seq<Version>, offered: seq<string>): Option<Version> {
    if supported == [] then None
    else if supported[0] in offered then Some(supported[0])
    else Preferred(supported[1..], offered)
  }

  // The newest version of ours that is among the versions offered.
  method PreferredProtocolVersion(offered: seq<string>) returns (r: Option<Version>)
    ensures r == Preferred(CLIENT_SUPPORTED, offered)
  {
    for i := 0 to |CLIENT_SUPPORTED|
      invariant Preferred(CLIENT_SUPPORTED, offered) == Preferred(CLIENT_SUPPORTED[i..], offered)
    {
      for j := 0 to |offered|
        invariant CLIENT_SUPPORTED[i] !in offered[..j]
      {
        if offered[j] == CLIENT_SUPPORTED[i] {
          return Some(CLIENT_SUPPORTED[i]);
        }
      }
      assert offered[..|offered|] == offered;
    }
    return None;
  }

  // It is one of ours, it was offered, and nothing newer of ours was.
  lemma {:induction false} PreferredIsNewest(supported: seq<Version>, offered: seq<string>)
    ensures match Preferred(supported, offered)
            case Some(v) =>
              exists i :: 0 <= i < |supported| && supported[i] == v && v in offered && forall j :: 0 <= j < i ==> supported[j] !in offered
            case None => forall v <- supported :: v !in offered
  {
    if supported != [] && supported[0] !in offered {
      PreferredIsNewest(supported[1..], offered);
      if Preferred(supported[1..], offered).Some? {
        var v := Preferred(supported[1..], offered).value;
        var i :| 0 <= i < |supported| - 1 && supported[1..][i] == v && v in offered
                 && forall j :: 0 <= j < i ==> supported[1..][j] !in offered;
        assert supported[i + 1] == v;
        forall j | 0 <= j < i + 1 ensures supported[j] !in offered {
          if j > 0 {
            assert supported[j] == supported[1..][j - 1];
          }
        }
      }
    }
  }

  // Codes by which a server that speaks the discovery handshake rejects a request.
  const HEADER_MISMATCH := -32020
  const MISSING_CLIENT_CAPABILITY := -32021
  const UNSUPPORTED_PROTOCOL_VERSION := -32022

  predicate IdentifiesDiscoveryServer(code: int) {
    code == HEADER_MISMATCH || code == MISSING_CLIENT_CAPABILITY || code == UNSUPPORTED_PROTOCOL_VERSION
  }

  // ----- The negotiated connection -----

  // discover and initialize are the handshake results the connection holds. askedAs is
  // the token the frames of the handshake presented; nothing decides by it.
  datatype Connection = Connection(version: Version, discover: Option<string>, initialize: Option<string>,
                                   staleAfter: int, authorization: int, askedAs: string)

  function Remembered(c: Connection): Connection {
    c.(discover := None, initialize := None, staleAfter := 0)
  }

  predicate Outlived(c: Connection, now: int) {
    c.discover.Some? && now >= c.staleAfter
  }

  // Exactly one of the two results is set, the one its version is negotiated by.
  predicate WellSettled(c: Connection) {
    && Supported(c.version)
    && c.discover.Some? == (HandshakeFor(c.version) == Discovery)
    && c.initialize.Some? == (HandshakeFor(c.version) == Initialize)
  }
}
