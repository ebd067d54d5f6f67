// The handshake (client/negotiation.go): a pinned version offered on its own terms, a
// remembered handshake tried first, and otherwise a probe that falls back.
module Handshake {
  import opened Wrappers
  import opened Versions

  datatype Kind =
    | Rpc(code: int, supported: seq<string>)
    | Channel
    | Timeout
    | Unauthorized
    | Other

  // A failure, and whether the transport marked it as no answer at all.
  datatype Fault = Fault(kind: Kind, unanswered: bool)

  datatype Frame = AskDiscover(version: Version) | AskInitialize(version: Version)

  // The server's answer to a handshake request, as the client reads it.
  datatype Reply =
    | Failed(fault: Fault)
    | Unreadable
    | Discovered(supported: seq<string>, discovered: string, lifetime: nat)
    | Initialized(chosen: string, initialized: string)

  datatype Turn = Turn(frame: Frame, reply: Reply)

  // An arbitrary peer over an arbitrary transport: what it answers, whether a
  // notification or a reconnect fails, whether the caller's context is done, each at the
  // turn it is asked. weighs says whether the binding names the errors that mean an
  // older server, and legacy which those are.
  datatype Peer = Peer(answer: (nat, Frame) -> Reply, announce: nat -> Option<Fault>, reopen: nat -> Option<Fault>,
                       done: nat -> bool, weighs: bool, legacy: Fault -> bool)

  const PLAIN := Fault(Other, false)

  predicate IsTransport(fault: Fault) {
    fault.kind.Channel? || fault.kind.Timeout?
  }

  // Whether a turn was the server rejecting the request on discovery's own terms.
  predicate Rejects(turn: Turn) {
    turn.reply.Failed? && turn.reply.fault.kind.Rpc? && IdentifiesDiscoveryServer(turn.reply.fault.kind.code)
  }

  // The request that follows such a rejection: the newest version both support that is
  // negotiated by initialize, taken from the rejection's own list.
  predicate NegotiatedDown(rejection: Turn, next: Turn)
    requires Rejects(rejection)
  {
    && next.frame.AskInitialize?
    && next.frame.version in rejection.reply.fault.kind.supported
    && Preferred(CLIENT_SUPPORTED, rejection.reply.fault.kind.supported) == Some(next.frame.version)
    && HandshakeFor(next.frame.version) == Initialize
  }

  // Nothing but the negotiated version follows a rejection within one probe.
  ghost predicate Heeded(turns: seq<Turn>) {
    forall i: nat {:trigger Rejects(turns[i])} :: i + 1 < |turns| && Rejects(turns[i]) ==> NegotiatedDown(turns[i], turns[i + 1])
  }

  // The newest version both sides support is settled at once, or asked for by initialize where that is
  // how it is negotiated.
  predicate Settles(turns: seq<Turn>, version: Option<Version>) {
    && 1 <= |turns| <= 2 && turns[0].reply.Discovered?
    && var preferred := Preferred(CLIENT_SUPPORTED, turns[0].reply.supported);
    && preferred.Some?
    && (|turns| == 1 ==> preferred == version && HandshakeFor(preferred.value) == Discovery)
    && (|turns| == 2 ==> turns[1].frame == AskInitialize(preferred.value) && HandshakeFor(preferred.value) == Initialize)
  }

  // What the last turn's reply settles: the version the server chose, with the result it sent; by
  // discovery the newest version of both sides, with the result for as long as it said.
  predicate SettledBy(turns: seq<Turn>, c: Connection, token: string, now: int) {
    && turns != []
    && var last := turns[|turns| - 1];
    && (last.frame.AskInitialize? ==>
          && last.reply.Initialized? && last.reply.chosen in INITIALIZE_SUPPORTED
          && c == Connection(last.reply.chosen, None, Some(last.reply.initialized), 0, 0, token))
    && (last.frame.AskDiscover? ==>
          && last.reply.Discovered? && Preferred(CLIENT_SUPPORTED, last.reply.supported) == Some(c.version)
          && c == Connection(c.version, Some(last.reply.discovered), None, now + last.reply.lifetime, 0, token))
  }

  // Whether a discovery refused with this fault leaves room for the older handshake: the fault is no
  // rejection on discovery's own terms, and speaks of an older server or a channel that is gone.
  predicate MayFallBack(peer: Peer, fault: Fault) {
    !fault.unanswered &&
    match fault.kind
    case Rpc(code, _) => !IdentifiesDiscoveryServer(code) && (!peer.weighs || peer.legacy(fault))
    case Channel => true
    case Timeout => true
    case Unauthorized => false
    case Other => false
  }

  // What the turns of a probe come to: nothing but the negotiated version follows a rejection, and a
  // probe nobody answered is the end of it.
  ghost predicate Probed(turns: seq<Turn>, failure: Option<Fault>) {
    && turns != [] && turns[0].frame == AskDiscover(LATEST) && Heeded(turns)
    && (turns[0].reply.Failed? && turns[0].reply.fault.unanswered ==> |turns| == 1 && failure == Some(turns[0].reply.fault))
  }

  class Negotiation {
    const peer: Peer
    const pinned: Version
    const token: string
    const now: int
    var conn: Option<Connection>
    var turns: seq<Turn>
    var turn: nat

    constructor (peer: Peer, pinned: Version, remembered: Option<Connection>, token: string, now: int)
      ensures this.peer == peer && this.pinned == pinned && conn == remembered && turns == []
    {
      this.peer, this.pinned, this.conn, this.token, this.now := peer, pinned, remembered, token, now;
      turns, turn := [], 0;
    }

    method Attempt(frame: Frame) returns (reply: Reply)
      modifies this`turns, this`turn
      ensures turns == old(turns) + [Turn(frame, reply)]
      ensures reply == peer.answer(old(turn), frame) && turn == old(turn) + 1
    {
      reply := peer.answer(turn, frame);
      turns := turns + [Turn(frame, reply)];
      turn := turn + 1;
    }

    method ContextDone() returns (done: bool)
      modifies this`turn
      ensures done == peer.done(old(turn)) && turn == old(turn) + 1
    {
      done := peer.done(turn);
      turn := turn + 1;
    }

    method Reopen() returns (failure: Option<Fault>)
      modifies this`turn
      ensures failure == peer.reopen(old(turn)) && turn == old(turn) + 1
    {
      failure := peer.reopen(turn);
      turn := turn + 1;
    }

    // Settles by the initialize handshake: one request, and the notification after it.
    method Initialize(version: Version, exact: bool) returns (r: Result<Connection, Fault>)
      modifies this`turns, this`turn
      ensures |turns| == |old(turns)| + 1 && old(turns) < turns
      ensures turns[|old(turns)|].frame == AskInitialize(version)
      ensures turns[|old(turns)|].reply == peer.answer(old(turn), AskInitialize(version))
      ensures var reply := turns[|old(turns)|].reply;
              r.Success? <==>
                && reply.Initialized? && reply.chosen in INITIALIZE_SUPPORTED && (exact ==> reply.chosen == version)
                && peer.announce(old(turn) + 1).None?
      ensures r.Success? ==> SettledBy(turns, r.value, token, now) && WellSettled(r.value)
      ensures turns[|old(turns)|].reply.Failed? ==>
                r == Failure(turns[|old(turns)|].reply.fault) && turn == old(turn) + 1
    {
      var reply := Attempt(AskInitialize(version));
      if reply.Failed? {
        return Failure(reply.fault);
      }
      if !reply.Initialized? || reply.chosen !in INITIALIZE_SUPPORTED {
        return Failure(PLAIN);
      }
      if exact && reply.chosen != version {
        return Failure(PLAIN);
      }
      var failure := peer.announce(turn);
      turn := turn + 1;
      if failure.Some? {
        return Failure(failure.value);
      }
      return Success(Connection(reply.chosen, None, Some(reply.initialized), 0, 0, token));
    }

    // Settles by discovery, or by the initialize handshake of the version it settles.
    method Discover(exactly: Version) returns (r: Result<Connection, Fault>)
      requires exactly == "" || HandshakeFor(exactly) == Discovery
      modifies this`turns, this`turn
      ensures |old(turns)| + 1 <= |turns| <= |old(turns)| + 2 && old(turns) < turns
      ensures turns[|old(turns)|].frame == AskDiscover(if exactly == "" then LATEST else exactly)
      ensures r.Success? ==> SettledBy(turns, r.value, token, now) && WellSettled(r.value)
      ensures r.Success? && exactly != "" ==> r.value.version == exactly
      ensures turns[|old(turns)|].reply.Failed? ==>
                |turns| == |old(turns)| + 1 && r == Failure(turns[|old(turns)|].reply.fault) && turn == old(turn) + 1
      ensures var reply := turns[|old(turns)|].reply;
              reply.Discovered? ==>
                var preferred := Preferred(CLIENT_SUPPORTED, reply.supported);
                && (preferred.None? || (exactly != "" && preferred != Some(exactly)) ==> r.Failure? && |turns| == |old(turns)| + 1)
                && (preferred.Some? && HandshakeFor(preferred.value) == Discovery && (exactly == "" || preferred == Some(exactly))
                    ==> r.Success?)
                && (preferred.Some? && HandshakeFor(preferred.value) == Era.Initialize && exactly == "" ==> |turns| == |old(turns)| + 2)
      ensures turns[|turns| - 1].reply.Failed? ==> r == Failure(turns[|turns| - 1].reply.fault)
      ensures exactly != "" ==> |turns| == |old(turns)| + 1
      ensures r.Success? || |turns| == |old(turns)| + 2 ==> Settles(turns[|old(turns)|..], if r.Success? then Some(r.value.version) else None)
    {
      var offered := if exactly == "" then LATEST else exactly;
      var reply := Attempt(AskDiscover(offered));
      if reply.Failed? {
        return Failure(reply.fault);
      }
      if !reply.Discovered? {
        return Failure(PLAIN);
      }
      var preferred := PreferredProtocolVersion(reply.supported);
      PreferredIsNewest(CLIENT_SUPPORTED, reply.supported);
      if preferred.None? {
        return Failure(PLAIN);
      }
      var settled := preferred.value;
      if exactly != "" && settled != exactly {
        return Failure(PLAIN);
      }
      if HandshakeFor(settled) == Era.Initialize {
        r := Initialize(settled, false);
        return;
      }
      return Success(Connection(settled, Some(reply.discovered), None, now + reply.lifetime, 0, token));
    }

    // Runs the initialize handshake a probe fell back to, and once more over a fresh
    // channel when the channel turns out to be gone.
    method Fallback() returns (r: Result<Connection, Fault>)
      modifies this`turns, this`turn
      ensures |old(turns)| + 1 <= |turns| <= |old(turns)| + 2 && old(turns) < turns
      ensures forall i :: |old(turns)| <= i < |turns| ==> turns[i].frame == AskInitialize(V20251125)
      ensures |turns| == |old(turns)| + 2 ==> !Rejects(turns[|old(turns)|])
      ensures r.Success? ==> SettledBy(turns, r.value, token, now) && WellSettled(r.value)
      ensures var first := turns[|old(turns)|].reply;
              first.Failed? ==>
                if first.fault.kind.Channel? && !peer.done(old(turn) + 1) && peer.reopen(old(turn) + 2).None? then |turns| == |old(turns)| + 2
                else |turns| == |old(turns)| + 1 && r == Failure(first.fault)
    {
      r := Initialize(V20251125, false);
      if r.Success? {
        return;
      }
      if !IsTransport(r.error) || r.error.kind.Timeout? || r.error.kind.Unauthorized? {
        return;
      }
      var done := ContextDone();
      if done {
        return;
      }
      var failure := Reopen();
      if failure.Some? {
        return;
      }
      r := Initialize(V20251125, false);
    }

    // Retries at the newest version both peers support, from the rejection's own list.
    method NegotiateDown(ghost rejection: Turn, fault: Fault) returns (r: Result<Connection, Fault>)
      requires Rejects(rejection) && rejection.reply.fault == fault
      modifies this`turns, this`turn
      ensures |turns| <= |old(turns)| + 1 && old(turns) <= turns
      ensures |turns| == |old(turns)| + 1 ==> NegotiatedDown(rejection, turns[|old(turns)|])
      ensures r.Success? ==> SettledBy(turns, r.value, token, now) && WellSettled(r.value) && |turns| == |old(turns)| + 1
      ensures var preferred := Preferred(CLIENT_SUPPORTED, fault.kind.supported);
              if preferred.Some? && HandshakeFor(preferred.value) == Era.Initialize then |turns| == |old(turns)| + 1
              else turns == old(turns) && r == Failure(fault)
    {
      var preferred := PreferredProtocolVersion(fault.kind.supported);
      PreferredIsNewest(CLIENT_SUPPORTED, fault.kind.supported);
      if preferred.None? || HandshakeFor(preferred.value) != Era.Initialize {
        return Failure(fault);
      }
      r := Initialize(preferred.value, false);
    }

    // Negotiates with an unknown server: discovery first, then whatever its answer says
    // it speaks. A probe nobody answered is the end of it.
    method Probe() returns (r: Result<Connection, Fault>)
      modifies this`turns, this`turn
      ensures |old(turns)| + 1 <= |turns| <= |old(turns)| + 4 && old(turns) < turns
      ensures Probed(turns[|old(turns)|..], if r.Failure? then Some(r.error) else None)
      ensures r.Success? ==> SettledBy(turns, r.value, token, now) && WellSettled(r.value)
      ensures var first := turns[|old(turns)|];
              first.reply.Failed? && !Rejects(first) ==>
                if MayFallBack(peer, first.reply.fault) && !peer.done(old(turn) + 1) && peer.reopen(old(turn) + 2).None? then
                  |turns| >= |old(turns)| + 2 && turns[|old(turns)| + 1].frame == AskInitialize(V20251125)
                else
                  |turns| == |old(turns)| + 1 && r.Failure?
    {
      var reached := Discover("");
      ghost var n := |turns|;
      ghost var probed := turns[|old(turns)|..];
      assert Heeded(probed);
      if reached.Success? {
        return reached;
      }
      var fault := reached.error;
      if fault.unanswered {
        return reached;
      }
      match fault.kind {
        case Rpc(code, _) =>
          if IdentifiesDiscoveryServer(code) {
            r := NegotiateDown(Turn(AskDiscover(LATEST), Failed(fault)), fault);
            return;
          }
          if peer.weighs && !peer.legacy(fault) {
            return reached;
          }
        case Channel =>
        case Timeout =>
        case _ => return reached;
      }
      var done := ContextDone();
      if done {
        return reached;
      }
      var failure := Reopen();
      if failure.Some? {
        return Failure(failure.value);
      }
      r := Fallback();
    }

    // Negotiates the connection and records it under the authorization its frames
    // present. probe is where the turns of the probe begin, where there is one.
    method Run(authorization: int) returns (r: Option<Fault>, ghost probe: nat)
      modifies this
      ensures |old(turns)| <= probe <= |turns| && probe <= |old(turns)| + 1
      ensures probe < |turns| ==> pinned == "" && Probed(turns[probe..], r)
      ensures pinned == "" && probe == |turns| ==> |turns| == |old(turns)| + 1 && turns[|old(turns)|].frame.AskInitialize?
      ensures |turns| <= |old(turns)| + 5 && old(turns) <= turns
      ensures pinned != "" && !Supported(pinned) ==> r.Some? && turns == old(turns)
      ensures r.None? ==>
                && conn.Some? && WellSettled(conn.value) && conn.value.authorization == authorization
                && |turns| > |old(turns)| && SettledBy(turns, conn.value.(authorization := 0), token, now)
                && (pinned != "" ==> conn.value.version == pinned)
      ensures r.Some? ==> conn == old(conn) || conn == None
    {
      probe := |turns|;
      if pinned != "" && !Supported(pinned) {
        return Some(PLAIN), probe;
      }
      if pinned != "" {
        var reached;
        if HandshakeFor(pinned) == Discovery {
          reached := Discover(pinned);
        } else {
          reached := Initialize(pinned, true);
        }
        probe := |turns|;
        match reached
        case Failure(fault) => return Some(fault), probe;
        case Success(settled) =>
          conn := Some(settled.(authorization := authorization));
          return None, probe;
      }

      if conn.Some? && HandshakeFor(conn.value.version) == Era.Initialize {
        var again := Initialize(conn.value.version, false);
        probe := |turns|;
        if again.Success? {
          conn := Some(again.value.(authorization := authorization));
          return None, probe;
        }
        var done := ContextDone();
        if again.error.kind.Unauthorized? || done {
          return Some(again.error), probe;
        }
        conn := None;
        var failure := Reopen();
        if failure.Some? {
          return failure, probe;
        }
      }

      var probed := Probe();
      match probed
      case Failure(fault) => return Some(fault), probe;
      case Success(settled) =>
        conn := Some(settled.(authorization := authorization));
        return None, probe;
    }
  }
}
