// The credential counter of the HTTP transport (client/transport_http.go): every
// exchange settles the token its frames present, and each change of token is a new
// authorization context.
module Credential {

  datatype Credential = Credential(bearer: string, settled: bool, authorization: nat)

  const UNSETTLED := Credential("", false, 0)

  function Settled(c: Credential, token: string): Credential {
    Credential(token, true, if !c.settled || token != c.bearer then c.authorization + 1 else c.authorization)
  }

  // Whether the token is the one last settled.
  predicate StandsFor(c: Credential, token: string) {
    c.settled && token == c.bearer
  }

  // The context the token resolved now belongs to, settling nothing.
  function ContextOf(c: Credential, token: string): nat {
    if StandsFor(c, token) then c.authorization else c.authorization + 1
  }

  // The token a frame carries: the one settled, or whatever resolves where none is.
  function Presents(c: Credential, token: string): string {
    if c.settled then c.bearer else token
  }

  class HttpCredential {
    var bearer: string
    var settled: bool
    var authorization: nat

    function State(): Credential
      reads this
    {
      Credential(bearer, settled, authorization)
    }

    constructor ()
      ensures State() == UNSETTLED
    {
      bearer, settled, authorization := "", false, 0;
    }

    // token is what the callback resolves to at this moment.
    method SettleAuthorization(token: string) returns (context: nat)
      modifies this
      ensures State() == Settled(old(State()), token)
      ensures context == authorization == ContextOf(old(State()), token)
    {
      if !settled || token != bearer {
        authorization := authorization + 1;
      }
      bearer, settled := token, true;
      context := authorization;
    }

    method AuthorizationContext(token: string) returns (context: nat)
      ensures context == ContextOf(State(), token)
    {
      if settled && token == bearer {
        return authorization;
      }
      return authorization + 1;
    }

    method Presented(token: string) returns (presented: string)
      ensures presented == Presents(State(), token)
    {
      if settled {
        return bearer;
      }
      return token;
    }
  }

  // ----- Whole runs -----

  function After(tokens: seq<string>): Credential {
    if tokens == [] then UNSETTLED else Settled(After(tokens[..|tokens| - 1]), tokens[|tokens| - 1])
  }

  // The number the settling of the i-th token returned.
  function Number(tokens: seq<string>, i: nat): nat
    requires i < |tokens|
  {
    After(tokens[..i + 1]).authorization
  }

  lemma Settles(tokens: seq<string>, i: nat)
    requires i < |tokens|
    ensures var c := After(tokens[..i + 1]); c.settled && c.bearer == tokens[i] && c.authorization >= 1
    ensures i > 0 ==> Number(tokens, i) == Number(tokens, i - 1) + if tokens[i] == tokens[i - 1] then 0 else 1
  {
    assert tokens[..i + 1][..i] == tokens[..i];
    if i > 0 {
      Settles(tokens, i - 1);
    }
  }

  lemma {:induction false} NumbersGrow(tokens: seq<string>, i: nat, j: nat)
    requires i <= j < |tokens|
    ensures Number(tokens, i) <= Number(tokens, j)
    decreases j
  {
    if i == j {
    } else {
      NumbersGrow(tokens, i, j - 1);
      Settles(tokens, j);
    }
  }

  // Two exchanges share an authorization number exactly when every exchange between
  // them settled the same token: a token that goes away and comes back is a new one.
  lemma {:induction false} NumberStandsForOneToken(tokens: seq<string>, i: nat, j: nat)
    requires i <= j < |tokens|
    ensures Number(tokens, i) == Number(tokens, j) <==> forall k :: i <= k <= j ==> tokens[k] == tokens[i]
    decreases j
  {
    if i == j {
    } else {
      NumberStandsForOneToken(tokens, i, j - 1);
      NumbersGrow(tokens, i, j - 1);
      Settles(tokens, j);
    }
  }
}
