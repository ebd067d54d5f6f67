// Requests a client stopped waiting for, and the exchange that has to tell their late
// replies from its own (client/protocol.go).
module Withdrawn {
  import opened Wrappers

  // How long after a withdrawal an error carrying a null id is still taken for its
  // reply, and how many withdrawals are kept at once. Times are in nanoseconds.
  const WITHDRAWN_REPLY_WINDOW: int := 5_000_000_000
  const MAX_UNACCOUNTED: nat := 64

  datatype Withdrawal = Withdrawal(id: nat, at: int)

  // What became of a withdrawal, for the record the contracts speak of.
  datatype Fate = Open | Answered | Absorbed | Lapsed | Displaced

  datatype Entry = Entry(withdrawal: Withdrawal, fate: Fate)

  // ----- The record as a history -----

  function Opens(log: seq<Entry>): seq<Withdrawal> {
    if log == [] then []
    else (if log[0].fate.Open? then [log[0].withdrawal] else []) + Opens(log[1..])
  }

  predicate Expired(w: Withdrawal, now: int) {
    now - w.at >= WITHDRAWN_REPLY_WINDOW
  }

  function LapseAll(log: seq<Entry>, now: int): seq<Entry> {
    if log == [] then []
    else [if log[0].fate.Open? && Expired(log[0].withdrawal, now) then log[0].(fate := Lapsed) else log[0]] + LapseAll(log[1..], now)
  }

  // The oldest business still open comes to the fate given.
  function CloseOldest(log: seq<Entry>, fate: Fate): seq<Entry> {
    if log == [] then []
    else if log[0].fate.Open? then [log[0].(fate := fate)] + log[1..]
    else [log[0]] + CloseOldest(log[1..], fate)
  }

  function AnswerOne(log: seq<Entry>, id: nat): seq<Entry> {
    if log == [] then []
    else if log[0].fate.Open? && log[0].withdrawal.id == id then [log[0].(fate := Answered)] + log[1..]
    else [log[0]] + AnswerOne(log[1..], id)
  }

  function Tally(log: seq<Entry>, fate: Fate): nat {
    if log == [] then 0 else (if log[0].fate == fate then 1 else 0) + Tally(log[1..], fate)
  }

  // The withdrawals a history records, whatever became of them.
  function Made(log: seq<Entry>): seq<Withdrawal> {
    if log == [] then [] else [log[0].withdrawal] + Made(log[1..])
  }

  predicate Unexpired(open: seq<Withdrawal>, now: int) {
    forall i :: 0 <= i < |open| ==> !Expired(open[i], now)
  }

  function Kept(open: seq<Withdrawal>, now: int): seq<Withdrawal> {
    if open == [] then []
    else (if Expired(open[0], now) then [] else [open[0]]) + Kept(open[1..], now)
  }

  lemma {:induction false} KeptUnexpired(open: seq<Withdrawal>, now: int)
    ensures Unexpired(Kept(open, now), now)
    ensures |Kept(open, now)| <= |open|
  {
    if open == [] {
    } else {
      KeptUnexpired(open[1..], now);
    }
  }

  lemma {:induction false} LapseOpens(log: seq<Entry>, now: int)
    ensures Opens(LapseAll(log, now)) == Kept(Opens(log), now)
    ensures Made(LapseAll(log, now)) == Made(log)
    ensures Tally(LapseAll(log, now), Absorbed) == Tally(log, Absorbed)
  {
    if log == [] {
    } else {
      LapseOpens(log[1..], now);
      assert LapseAll(log, now)[1..] == LapseAll(log[1..], now);
      if log[0].fate.Open? {
        assert Opens(log)[1..] == Opens(log[1..]);
      } else {
        assert Opens(log) == Opens(log[1..]);
      }
    }
  }

  // Closing the oldest closes exactly one, and it is the first of those open.
  lemma {:induction false} CloseOpens(log: seq<Entry>, fate: Fate)
    requires Opens(log) != [] && !fate.Open?
    ensures Opens(CloseOldest(log, fate)) == Opens(log)[1..]
    ensures Made(CloseOldest(log, fate)) == Made(log)
    ensures Tally(CloseOldest(log, fate), Absorbed) == Tally(log, Absorbed) + if fate.Absorbed? then 1 else 0
  {
    if log[0].fate.Open? {
      assert CloseOldest(log, fate)[1..] == log[1..];
    } else {
      CloseOpens(log[1..], fate);
      assert CloseOldest(log, fate)[1..] == CloseOldest(log[1..], fate);
    }
  }

  function Without(open: seq<Withdrawal>, id: nat): seq<Withdrawal> {
    if open == [] then []
    else if open[0].id == id then open[1..]
    else [open[0]] + Without(open[1..], id)
  }

  lemma {:induction false} AnswerOpens(log: seq<Entry>, id: nat)
    ensures Opens(AnswerOne(log, id)) == Without(Opens(log), id)
    ensures Made(AnswerOne(log, id)) == Made(log)
    ensures Tally(AnswerOne(log, id), Absorbed) == Tally(log, Absorbed)
  {
    if log == [] {
    } else {
      if log[0].fate.Open? && log[0].withdrawal.id == id {
        assert AnswerOne(log, id)[1..] == log[1..];
        assert Opens(log)[1..] == Opens(log[1..]);
      } else {
        AnswerOpens(log[1..], id);
        assert AnswerOne(log, id)[1..] == AnswerOne(log[1..], id);
        if log[0].fate.Open? {
          assert Opens(log)[1..] == Opens(log[1..]);
        } else {
          assert Opens(log) == Opens(log[1..]);
        }
      }
    }
  }

  lemma {:induction false} AppendOpens(log: seq<Entry>, entry: Entry)
    requires entry.fate.Open?
    ensures Opens(log + [entry]) == Opens(log) + [entry.withdrawal]
  {
    if log == [] {
      assert (log + [entry])[1..] == [];
    } else {
      assert (log + [entry])[1..] == log[1..] + [entry];
      AppendOpens(log[1..], entry);
      var head := if log[0].fate.Open? then [log[0].withdrawal] else [];
      assert head + (Opens(log[1..]) + [entry.withdrawal]) == (head + Opens(log[1..])) + [entry.withdrawal];
    }
  }

  lemma {:induction false} AppendMade(log: seq<Entry>, entry: Entry)
    requires entry.fate.Open?
    ensures Made(log + [entry]) == Made(log) + [entry.withdrawal]
    ensures Tally(log + [entry], Absorbed) == Tally(log, Absorbed)
  {
    if log == [] {
      assert (log + [entry])[1..] == [];
    } else {
      assert (log + [entry])[1..] == log[1..] + [entry];
      AppendMade(log[1..], entry);
    }
  }

  // Withdrawals are made in the order of their ids, and of the clock.
  ghost predicate Ordered(made: seq<Withdrawal>) {
    made == [] || ((forall w <- made[1..] :: made[0].id < w.id && made[0].at <= w.at) && Ordered(made[1..]))
  }

  // What is open is what was made, in the order it was made in.
  lemma {:induction false} OpensOrdered(log: seq<Entry>)
    requires Ordered(Made(log))
    ensures Ordered(Opens(log))
    ensures forall w <- Opens(log) :: w in Made(log)
  {
    if log == [] {
    } else {
      assert Made(log)[1..] == Made(log[1..]);
      OpensOrdered(log[1..]);
      if log[0].fate.Open? {
        assert Opens(log)[1..] == Opens(log[1..]);
      } else {
        assert Opens(log) == Opens(log[1..]);
      }
    }
  }

  lemma {:induction false} OrderedAppend(made: seq<Withdrawal>, w: Withdrawal)
    requires Ordered(made) && forall m <- made :: m.id < w.id && m.at <= w.at
    ensures Ordered(made + [w])
  {
    if made == [] {
    } else {
      assert (made + [w])[1..] == made[1..] + [w];
      OrderedAppend(made[1..], w);
    }
  }

  lemma UnexpiredAppend(open: seq<Withdrawal>, w: Withdrawal, now: int)
    requires Unexpired(open, now) && w.at == now
    ensures Unexpired(open + [w], now)
  {
  }

  lemma {:induction false} KeptAppend(open: seq<Withdrawal>, w: Withdrawal, now: int)
    ensures Kept(open + [w], now) == Kept(open, now) + if Expired(w, now) then [] else [w]
  {
    if open == [] {
      assert [] + [w] == [w] && [w][1..] == [];
    } else {
      var head, last := if Expired(open[0], now) then [] else [open[0]], if Expired(w, now) then [] else [w];
      assert (open + [w])[1..] == open[1..] + [w];
      KeptAppend(open[1..], w, now);
      assert head + (Kept(open[1..], now) + last) == head + Kept(open[1..], now) + last;
    }
  }

  lemma {:induction false} CutOutShorter(open: seq<Withdrawal>, id: nat)
    ensures |Without(open, id)| <= |open|
  {
    if open == [] {
    } else {
      CutOutShorter(open[1..], id);
    }
  }

  // Drops what has lapsed, keeping the rest in order.
  method KeepUnexpired(open: seq<Withdrawal>, now: int) returns (kept: seq<Withdrawal>)
    ensures kept == Kept(open, now)
  {
    kept := [];
    var index := 0;
    while index < |open|
      invariant 0 <= index <= |open|
      invariant kept == Kept(open[..index], now)
    {
      assert open[..index + 1] == open[..index] + [open[index]];
      KeptAppend(open[..index], open[index], now);
      if now - open[index].at < WITHDRAWN_REPLY_WINDOW {
        kept := kept + [open[index]];
      }
      index := index + 1;
    }
    assert open[..index] == open;
  }

  lemma {:induction false} WithoutAt(open: seq<Withdrawal>, id: nat, index: nat)
    requires index <= |open| && forall k :: 0 <= k < index ==> open[k].id != id
    ensures Without(open, id) == open[..index] + Without(open[index..], id)
  {
    if index == 0 {
    } else {
      WithoutAt(open[1..], id, index - 1);
      assert open[1..][index - 1..] == open[index..];
      assert [open[0]] + open[1..][..index - 1] == open[..index];
    }
  }

  // Cuts the withdrawal with the id given out of the rest.
  method CutOut(open: seq<Withdrawal>, id: nat) returns (rest: seq<Withdrawal>)
    ensures rest == Without(open, id)
  {
    var index := 0;
    while index < |open|
      invariant 0 <= index <= |open|
      invariant forall k :: 0 <= k < index ==> open[k].id != id
    {
      if open[index].id == id {
        WithoutAt(open, id, index);
        assert open[index..][1..] == open[index + 1..];
        return open[..index] + open[index + 1..];
      }
      index := index + 1;
    }
    WithoutAt(open, id, index);
    rest := open;
  }

  lemma {:induction false} CutOutGone(open: seq<Withdrawal>, id: nat)
    requires Ordered(open)
    ensures forall w <- Without(open, id) :: w.id != id
  {
    if open == [] {
    } else {
      if open[0].id != id {
        CutOutGone(open[1..], id);
      }
    }
  }

  // ----- Frames -----

  // A frame read off the channel. A response carries an id, or None for a null one.
  datatype Frame =
    | Notification(named: string)
    | PeerRequest(named: string)
    | Nameless
    | Garbled
    | Response(id: Option<nat>, failed: bool)

  // What reading the channel once came to, and when. over says that the context was
  // done when it was next looked at.
  datatype Arrival = Arrival(frame: Option<Frame>, at: int, over: bool)

  datatype Outcome =
    | Replied(failed: bool)
    | Over
    | Lost
    | Refused

  // How an exchange that brought no reply failed, and what the transport and the state
  // of the connection let the client do about it.
  datatype Failing = TimedOut | Cancelled | Broken

  datatype Terms = Terms(aware: bool, settled: bool, notifies: bool, noticeSent: bool, apart: bool)

  predicate InOrder(inbox: seq<Arrival>, clock: int) {
    && (forall i :: 0 <= i < |inbox| ==> clock <= inbox[i].at)
    && (forall i, j :: 0 <= i < j < |inbox| ==> inbox[i].at <= inbox[j].at)
  }

  // An error that says of no request that it answers it.
  predicate NamesNone(arrival: Arrival) {
    arrival.frame.Some? && arrival.frame.value == Response(None, true)
  }

  function Uncorrelated(inbox: seq<Arrival>): nat {
    if inbox == [] then 0
    else Uncorrelated(inbox[..|inbox| - 1]) + if NamesNone(inbox[|inbox| - 1]) then 1 else 0
  }

  lemma UncorrelatedNext(inbox: seq<Arrival>, i: nat)
    requires i < |inbox|
    ensures Uncorrelated(inbox[..i + 1]) == Uncorrelated(inbox[..i]) + if NamesNone(inbox[i]) then 1 else 0
  {
    assert inbox[..i + 1][..i] == inbox[..i];
  }

  // Each withdrawal is counted once, whatever became of it.
  lemma {:induction false} AbsorbedAtMostMade(log: seq<Entry>)
    ensures Tally(log, Absorbed) + |Opens(log)| <= |Made(log)|
  {
    if log == [] {
    } else {
      AbsorbedAtMostMade(log[1..]);
    }
  }

  // ----- One request after another -----

  // What a channel holds between requests. The log is of everything withdrawn since the channel was
  // last given up.
  datatype Record = Record(nextId: nat, log: seq<Entry>, silent: bool, clock: int)

  ghost predicate Sound(s: Record) {
    && |Opens(s.log)| <= MAX_UNACCOUNTED
    && Ordered(Made(s.log))
    && (forall w <- Made(s.log) :: w.id < s.nextId && w.at <= s.clock)
  }

  // A request, what the channel would deliver while it waits, and how it fails where nothing does.
  datatype Request = Request(discovery: bool, inbox: seq<Arrival>, failing: Failing, terms: Terms, now: int)

  datatype Answer = Answer(outcome: Outcome, read: nat, withdrawn: bool)

  // The errors without an id that were read and taken for no answer.
  function Passed(q: Request, a: Answer): nat
    requires a.read <= |q.inbox|
  {
    Uncorrelated(q.inbox[..if a.outcome.Replied? && a.read > 0 then a.read - 1 else a.read])
  }

  // Whether a frame is no reply to the request of that id and nothing that ends its exchange: it is
  // served, or belongs to another request, or is the error some withdrawal still open was owed.
  predicate PassesOver(log: seq<Entry>, frame: Frame, at: int, id: nat, discovery: bool) {
    match frame
    case Notification(_) => true
    case PeerRequest(_) => !discovery
    case Nameless => false
    case Garbled => false
    case Response(Some(answered), _) => answered != id
    case Response(None, failed) => failed ==> Opens(LapseAll(log, at)) != []
  }

  // Whether a frame cannot be gone on from: it is no message, or asks something of a client that
  // serves no requests over discovery.
  predicate Refuses(frame: Frame, discovery: bool) {
    frame.Nameless? || frame.Garbled? || (frame.PeerRequest? && discovery)
  }

  // Whether a frame is the reply to the request of that id, by its id or, with no withdrawal open,
  // as an error without one.
  predicate Replies(log: seq<Entry>, frame: Frame, at: int, id: nat) {
    frame.Response? && (frame.id == Some(id) || (frame.id == None && frame.failed && Opens(LapseAll(log, at)) == []))
  }

  // What a response read leaves of what was withdrawn.
  function Weighed(log: seq<Entry>, frame: Frame, at: int): seq<Entry> {
    match frame
    case Response(Some(answered), _) => AnswerOne(log, answered)
    case Response(None, true) =>
      if Opens(LapseAll(log, at)) == [] then LapseAll(log, at) else CloseOldest(LapseAll(log, at), Absorbed)
    case _ => log
  }

  // The record after so many frames were passed over.
  function Held(log: seq<Entry>, inbox: seq<Arrival>, read: nat): seq<Entry>
    requires read <= |inbox|
  {
    if read == 0 then log
    else
      var before := Held(log, inbox, read - 1);
      if inbox[read - 1].frame.None? then before else Weighed(before, inbox[read - 1].frame.value, inbox[read - 1].at)
  }

  // Whether the reading goes on past so many frames. Past the first, each is read only with the
  // context not done.
  predicate ReadOn(log: seq<Entry>, inbox: seq<Arrival>, read: nat, id: nat, discovery: bool)
    requires read <= |inbox|
    decreases read, 1
  {
    read == 0 ||
    (Looks(log, inbox, read, id, discovery) && inbox[read - 1].frame.Some?
     && PassesOver(Held(log, inbox, read - 1), inbox[read - 1].frame.value, inbox[read - 1].at, id, discovery))
  }

  // Whether the reading gets to the last of so many frames.
  predicate Looks(log: seq<Entry>, inbox: seq<Arrival>, read: nat, id: nat, discovery: bool)
    requires 0 < read <= |inbox|
    decreases read, 0
  {
    ReadOn(log, inbox, read - 1, id, discovery) && (read > 1 ==> !inbox[read - 1].over)
  }

  // How the exchange of the request of that id ends, and after how many frames.
  predicate Ended(log: seq<Entry>, inbox: seq<Arrival>, id: nat, discovery: bool, r: Outcome, read: nat) {
    && read <= |inbox|
    && match r
       case Replied(failed) =>
         && read > 0 && Looks(log, inbox, read, id, discovery) && inbox[read - 1].frame.Some?
         && Replies(Held(log, inbox, read - 1), inbox[read - 1].frame.value, inbox[read - 1].at, id)
         && inbox[read - 1].frame.value.failed == failed
       case Refused =>
         && read > 0 && Looks(log, inbox, read, id, discovery) && inbox[read - 1].frame.Some?
         && Refuses(inbox[read - 1].frame.value, discovery)
       case Lost =>
         || (read > 0 && Looks(log, inbox, read, id, discovery) && inbox[read - 1].frame.None?)
         || (read == |inbox| && ReadOn(log, inbox, read, id, discovery))
       case Over => 0 < read < |inbox| && ReadOn(log, inbox, read, id, discovery) && inbox[read].over
  }

  // Which way it ends is told by the last frame read: one that brought no message, one refused, one
  // that replies, or one passed over with nothing more to read or the context done.
  lemma EndedExactly(log: seq<Entry>, inbox: seq<Arrival>, id: nat, discovery: bool, r: Outcome, read: nat)
    requires Ended(log, inbox, id, discovery, r, read)
    ensures read == 0 ==> r.Lost? && inbox == []
    ensures read > 0 ==>
              var Arrival(frame, at, _) := inbox[read - 1];
              var before := Held(log, inbox, read - 1);
              var passed := frame.Some? && !Refuses(frame.value, discovery) && !Replies(before, frame.value, at, id);
              && (r.Refused? <==> frame.Some? && Refuses(frame.value, discovery))
              && (r.Replied? <==> frame.Some? && Replies(before, frame.value, at, id))
              && (r.Over? <==> passed && read < |inbox|)
              && (r.Lost? <==> frame.None? || (passed && read == |inbox|))
  {
  }

  // One frame more, read and passed over or made the end of it.
  lemma OneMore(log: seq<Entry>, inbox: seq<Arrival>, read: nat, id: nat, discovery: bool)
    requires read < |inbox| && ReadOn(log, inbox, read, id, discovery)
    requires read > 0 ==> !inbox[read].over
    ensures inbox[read].frame.None? ==> Ended(log, inbox, id, discovery, Lost, read + 1)
    ensures inbox[read].frame.Some? ==>
              var Arrival(frame, at, _) := inbox[read];
              var held := Held(log, inbox, read);
              && Held(log, inbox, read + 1) == Weighed(held, frame.value, at)
              && (PassesOver(held, frame.value, at, id, discovery) ==> ReadOn(log, inbox, read + 1, id, discovery))
              && (Refuses(frame.value, discovery) ==> Ended(log, inbox, id, discovery, Refused, read + 1))
              && (Replies(held, frame.value, at, id) ==>
                    Ended(log, inbox, id, discovery, Replied(frame.value.failed), read + 1))
  {
    assert Looks(log, inbox, read + 1, id, discovery);
  }

  lemma {:induction false} LooksBefore(log: seq<Entry>, inbox: seq<Arrival>, n: nat, read: nat, id: nat, discovery: bool)
    requires n < read <= |inbox| && Looks(log, inbox, read, id, discovery)
    ensures ReadOn(log, inbox, n, id, discovery)
    ensures n > 0 ==> !inbox[n].over
    decreases read
  {
    if n == read - 1 {
    } else {
      assert ReadOn(log, inbox, read - 1, id, discovery);
      LooksBefore(log, inbox, n, read - 1, id, discovery);
    }
  }

  lemma EndedLooks(log: seq<Entry>, inbox: seq<Arrival>, id: nat, discovery: bool, r: Outcome, read: nat)
    requires Ended(log, inbox, id, discovery, r, read)
    ensures read > 0 ==> Looks(log, inbox, read, id, discovery)
  {
  }

  // Every frame before the last was passed over: none replied, none refused, and none was missing.
  lemma NoneSkipped(log: seq<Entry>, inbox: seq<Arrival>, id: nat, discovery: bool, r: Outcome, read: nat, i: nat)
    requires Ended(log, inbox, id, discovery, r, read) && i + 1 < read
    ensures inbox[i].frame.Some? && !inbox[i + 1].over
    ensures !Refuses(inbox[i].frame.value, discovery)
    ensures !Replies(Held(log, inbox, i), inbox[i].frame.value, inbox[i].at, id)
  {
    EndedLooks(log, inbox, id, discovery, r, read);
    LooksBefore(log, inbox, i + 1, read, id, discovery);
  }

  lemma NoneLater(log: seq<Entry>, inbox: seq<Arrival>, id: nat, discovery: bool, r: Outcome, read: nat, r': Outcome, read': nat)
    requires Ended(log, inbox, id, discovery, r, read) && Ended(log, inbox, id, discovery, r', read')
    ensures read' <= read
  {
    if read < read' {
      EndedLooks(log, inbox, id, discovery, r', read');
      LooksBefore(log, inbox, read, read', id, discovery);
      assert false;
    }
  }

  // What is delivered, and what was withdrawn before, leave one way to end: a frame that replies is
  // never read past, nor one passed over taken for an end.
  lemma EndedOnce(log: seq<Entry>, inbox: seq<Arrival>, id: nat, discovery: bool, r: Outcome, read: nat, r': Outcome, read': nat)
    requires Ended(log, inbox, id, discovery, r, read) && Ended(log, inbox, id, discovery, r', read')
    ensures r == r' && read == read'
  {
    NoneLater(log, inbox, id, discovery, r, read, r', read');
    NoneLater(log, inbox, id, discovery, r', read', r, read);
    EndedExactly(log, inbox, id, discovery, r, read);
    EndedExactly(log, inbox, id, discovery, r', read);
  }

  // The last frame read answers the request of that id, by its id or, with no withdrawal open, as an
  // error without one.
  predicate AnswersOwn(inbox: seq<Arrival>, read: nat, failed: bool, id: nat, open: seq<Withdrawal>) {
    && 0 < read <= |inbox| && inbox[read - 1].frame.Some? && inbox[read - 1].frame.value.Response?
    && inbox[read - 1].frame.value.failed == failed
    && var answered := inbox[read - 1].frame.value.id;
    && (answered == Some(id) || (answered == None && failed && open == []))
  }

  // Whether any of the frames read came from the server at all.
  predicate Heard(inbox: seq<Arrival>, read: nat)
    requires read <= |inbox|
  {
    read > 1 || (read == 1 && inbox[0].frame.Some?)
  }

  // Whether a request that failed counts as withdrawn. A second timeout with nothing heard in between
  // is a server that has stopped.
  predicate Withdrawable(failing: Failing, terms: Terms, silent: bool) {
    && terms.aware && terms.settled && !failing.Broken? && !(failing.TimedOut? && silent)
    && (terms.notifies ==> terms.noticeSent)
  }

  predicate Recorded(q: Request, a: Answer) {
    a.withdrawn && q.terms.notifies && !q.terms.apart
  }

  // The channel of a settled connection is given up with a request that failed and was not withdrawn;
  // while none is settled it is left to the handshake.
  predicate GivenUp(q: Request, a: Answer) {
    !a.outcome.Replied? && !a.withdrawn && q.terms.settled
  }

  predicate NewestIs(open: seq<Withdrawal>, w: Withdrawal) {
    open != [] && open[|open| - 1] == w
  }

  // What one request makes of what the channel holds.
  ghost predicate Attempted(s: Record, t: Record, q: Request, a: Answer) {
    && Sound(t) && t.nextId == s.nextId + 1
    && a.read <= |q.inbox| && Ended(s.log, q.inbox, s.nextId, q.discovery, a.outcome, a.read)
    && var silent := s.silent && !Heard(q.inbox, a.read);
    && (a.withdrawn <==> !a.outcome.Replied? && !a.outcome.Refused? && Withdrawable(q.failing, q.terms, silent))
    && t.silent == (!GivenUp(q, a) && (silent || (a.withdrawn && q.failing.TimedOut?)))
    && (a.outcome.Replied? ==> AnswersOwn(q.inbox, a.read, a.outcome.failed, s.nextId, Opens(t.log)))
    && Tally(s.log, Absorbed) + Passed(q, a) <= |Made(s.log)|
    && (GivenUp(q, a) ==> t.log == [])
    && (!GivenUp(q, a) ==>
          && Tally(t.log, Absorbed) == Tally(s.log, Absorbed) + Passed(q, a)
          && Made(t.log) == Made(s.log) + if Recorded(q, a) then [Withdrawal(s.nextId, q.now)] else [])
    && (Recorded(q, a) ==> Unexpired(Opens(t.log), q.now) && NewestIs(Opens(t.log), Withdrawal(s.nextId, q.now)))
  }

  // What the reading leaves of what the channel held.
  ghost predicate Exchanged(s: Record, m: Record, q: Request, r: Outcome, read: nat) {
    && Sound(m) && m.nextId == s.nextId + 1 && Made(m.log) == Made(s.log)
    && read <= |q.inbox| && Ended(s.log, q.inbox, s.nextId, q.discovery, r, read)
    && m.silent == (s.silent && !Heard(q.inbox, read))
    && (r.Replied? ==> AnswersOwn(q.inbox, read, r.failed, s.nextId, Opens(m.log)))
    && Tally(m.log, Absorbed) == Tally(s.log, Absorbed) + Passed(q, Answer(r, read, false))
  }

  // What giving up on a request leaves of it.
  ghost predicate Failed(m: Record, t: Record, id: nat, failing: Failing, terms: Terms, now: int, withdrawn: bool) {
    var recorded := withdrawn && terms.notifies && !terms.apart;
    && Sound(t) && t.nextId == m.nextId && withdrawn == Withdrawable(failing, terms, m.silent)
    && (!withdrawn && terms.settled ==> t.log == [] && !t.silent)
    && (withdrawn || !terms.settled ==>
          && t.silent == (m.silent || (withdrawn && failing.TimedOut?))
          && Tally(t.log, Absorbed) == Tally(m.log, Absorbed)
          && Made(t.log) == Made(m.log) + if recorded then [Withdrawal(id, now)] else [])
    && (recorded ==> Unexpired(Opens(t.log), now) && NewestIs(Opens(t.log), Withdrawal(id, now)))
  }

  lemma RepliedAttempt(s: Record, m: Record, q: Request, r: Outcome, read: nat)
    requires Exchanged(s, m, q, r, read) && r.Replied?
    ensures Attempted(s, m, q, Answer(r, read, false))
  {
    AbsorbedAtMostMade(m.log);
    assert Made(s.log) + [] == Made(s.log);
  }

  lemma FailedAttempt(s: Record, m: Record, t: Record, q: Request, r: Outcome, read: nat, withdrawn: bool)
    requires Exchanged(s, m, q, r, read) && !r.Replied?
    requires Failed(m, t, s.nextId, if r.Refused? then Broken else q.failing, q.terms, q.now, withdrawn)
    ensures Attempted(s, t, q, Answer(r, read, withdrawn))
  {
    AbsorbedAtMostMade(m.log);
  }

  class Channel {
    var nextId: nat
    var unaccounted: seq<Withdrawal>
    var silent: bool
    var clock: int
    // Everything withdrawn since the channel was last given up, and what became of it.
    ghost var log: seq<Entry>

    ghost function State(): Record
      reads this
    {
      Record(nextId, log, silent, clock)
    }

    ghost predicate Valid()
      reads this
    {
      unaccounted == Opens(log) && Sound(State())
    }

    constructor (now: int)
      ensures Valid() && State() == Record(1, [], false, now)
    {
      nextId, unaccounted, silent, clock, log := 1, [], false, now, [];
    }

    // Drops the withdrawals whose reply is no longer waited for.
    method LapseLocked(now: int)
      requires Valid() && clock <= now
      modifies this`unaccounted, this`log, this`clock
      ensures Valid() && clock == now
      ensures log == LapseAll(old(log), now) && Made(log) == old(Made(log))
      ensures Tally(log, Absorbed) == old(Tally(log, Absorbed))
      ensures Unexpired(unaccounted, now)
    {
      LapseOpens(log, now);
      KeptUnexpired(unaccounted, now);
      unaccounted := KeepUnexpired(unaccounted, now);
      log, clock := LapseAll(log, now), now;
    }

    // Records a request withdrawn over a channel on which its reply may still arrive.
    // What is then kept is the last of those still open, in order, none of them lapsed.
    method Account(id: nat, now: int)
      requires Valid() && clock <= now && id < nextId
      requires forall w <- Made(log) :: w.id < id
      modifies this`unaccounted, this`log, this`clock
      ensures Valid() && clock == now && Unexpired(unaccounted, now) && NewestIs(unaccounted, Withdrawal(id, now))
      ensures Made(log) == old(Made(log)) + [Withdrawal(id, now)] && Tally(log, Absorbed) == old(Tally(log, Absorbed))
      ensures var longer := LapseAll(old(log), now) + [Entry(Withdrawal(id, now), Open)];
              log == if |Opens(longer)| <= MAX_UNACCOUNTED then longer else CloseOldest(longer, Displaced)
    {
      LapseLocked(now);
      UnexpiredAppend(unaccounted, Withdrawal(id, now), now);
      Append(Withdrawal(id, now));
      DropExcess();
    }

    // Displaces the oldest withdrawal where one is kept too many.
    method DropExcess()
      requires unaccounted == Opens(log) && |unaccounted| <= MAX_UNACCOUNTED + 1
      modifies this`unaccounted, this`log
      ensures unaccounted == Opens(log) && |unaccounted| <= MAX_UNACCOUNTED
      ensures unaccounted == if |old(unaccounted)| > MAX_UNACCOUNTED then old(unaccounted)[1..] else old(unaccounted)
      ensures log == if |old(unaccounted)| > MAX_UNACCOUNTED then CloseOldest(old(log), Displaced) else old(log)
      ensures Made(log) == old(Made(log)) && Tally(log, Absorbed) == old(Tally(log, Absorbed))
    {
      if |unaccounted| > MAX_UNACCOUNTED {
        CloseOpens(log, Displaced);
        unaccounted := unaccounted[|unaccounted| - MAX_UNACCOUNTED..];
        log := CloseOldest(log, Displaced);
      }
    }

    // Puts one withdrawal behind the others, before any is displaced for it.
    method Append(w: Withdrawal)
      requires unaccounted == Opens(log) && Ordered(Made(log))
      requires forall m <- Made(log) :: m.id < w.id && m.at <= w.at
      modifies this`unaccounted, this`log
      ensures unaccounted == old(unaccounted) + [w] == Opens(log)
      ensures log == old(log) + [Entry(w, Open)] && Made(log) == old(Made(log)) + [w] && Ordered(Made(log))
      ensures Tally(log, Absorbed) == old(Tally(log, Absorbed))
    {
      AppendOpens(log, Entry(w, Open));
      AppendMade(log, Entry(w, Open));
      OrderedAppend(Made(log), w);
      unaccounted := unaccounted + [w];
      log := log + [Entry(w, Open)];
    }

    // Records that the reply to a withdrawn request has arrived.
    method AccountedFor(id: nat)
      requires Valid()
      modifies this`unaccounted, this`log
      ensures Valid() && log == AnswerOne(old(log), id)
      ensures Made(log) == old(Made(log)) && Tally(log, Absorbed) == old(Tally(log, Absorbed))
      ensures forall w <- unaccounted :: w.id != id
    {
      AnswerOpens(log, id);
      OpensOrdered(log);
      CutOutGone(unaccounted, id);
      unaccounted := CutOut(unaccounted, id);
      log := AnswerOne(log, id);
      CutOutShorter(old(unaccounted), id);
    }

    // Whether an error carrying a null id is the reply to a request withdrawn: it is
    // when any is open, and then it is the oldest's, which it takes with it.
    method RepliesToWithdrawn(now: int) returns (replies: bool)
      requires Valid() && clock <= now
      modifies this`unaccounted, this`log, this`clock
      ensures Valid() && clock == now && Unexpired(unaccounted, now)
      ensures replies <==> Opens(LapseAll(old(log), now)) != []
      ensures log == if replies then CloseOldest(LapseAll(old(log), now), Absorbed) else LapseAll(old(log), now)
      ensures Tally(log, Absorbed) == old(Tally(log, Absorbed)) + if replies then 1 else 0
      ensures Made(log) == old(Made(log))
      ensures !replies ==> unaccounted == []
    {
      LapseOpens(log, now);
      LapseLocked(now);
      if |unaccounted| == 0 {
        return false;
      }
      CloseOpens(log, Absorbed);
      unaccounted := unaccounted[1..];
      log := CloseOldest(log, Absorbed);
      return true;
    }

    // Gives the channel up, and with it every reply still owed on it.
    method Disconnect()
      modifies this`unaccounted, this`silent, this`log
      ensures Valid() && log == [] && !silent
    {
      unaccounted, silent, log := [], false, [];
    }

    // One frame weighed: what it makes of the exchange waiting for id, nothing where it is passed over.
    method TakeFrame(frame: Frame, at: int, id: nat, discovery: bool) returns (r: Option<Outcome>)
      requires Valid() && clock <= at
      requires id < nextId && forall w <- Made(log) :: w.id < id
      modifies this`unaccounted, this`log, this`clock
      ensures Valid() && Made(log) == old(Made(log)) && (clock == old(clock) || clock == at)
      ensures Tally(log, Absorbed) == old(Tally(log, Absorbed)) + if r.None? && frame == Response(None, true) then 1 else 0
      ensures r.None? <==> PassesOver(old(log), frame, at, id, discovery)
      ensures r == Some(Refused) <==> Refuses(frame, discovery)
      ensures r.Some? && r.value.Replied? <==> Replies(old(log), frame, at, id)
      ensures r.None? ==> log == Weighed(old(log), frame, at)
      ensures r.Some? && r.value.Replied? ==>
                frame.failed == r.value.failed && (frame.id == Some(id) || (frame.id == None && frame.failed && unaccounted == []))
    {
      match frame {
        case Notification(_) => return None;
        case PeerRequest(_) => return if discovery then Some(Refused) else None;
        case Nameless => return Some(Refused);
        case Garbled => return Some(Refused);
        case Response(answered, failed) =>
          if answered == Some(id) {
            return Some(Replied(failed));
          }
          if answered.Some? {
            AccountedFor(answered.value);
            return None;
          }
          if !failed {
            return None;
          }
          var late := RepliesToWithdrawn(at);
          return if late then None else Some(Replied(failed));
      }
    }

    // What reading the channel once more comes to, with so much of what was delivered passed over
    // since the exchange began.
    method TakeNext(id: nat, discovery: bool, inbox: seq<Arrival>, read: nat, ghost start: seq<Entry>) returns (r: Option<Outcome>)
      requires Valid() && read < |inbox| && clock <= inbox[read].at && (read > 0 ==> !inbox[read].over)
      requires id < nextId && forall w <- Made(log) :: w.id < id
      requires log == Held(start, inbox, read) && ReadOn(start, inbox, read, id, discovery)
      modifies this`unaccounted, this`log, this`clock, this`silent
      ensures Valid() && Made(log) == old(Made(log)) && (clock == old(clock) || clock == inbox[read].at)
      ensures r.None? ==> log == Held(start, inbox, read + 1) && ReadOn(start, inbox, read + 1, id, discovery)
      ensures r.Some? ==> Ended(start, inbox, id, discovery, r.value, read + 1) && (r.value.Lost? <==> inbox[read].frame.None?)
      ensures r.Some? && r.value.Replied? ==> AnswersOwn(inbox, read + 1, r.value.failed, id, unaccounted)
      ensures Tally(log, Absorbed) == old(Tally(log, Absorbed)) + if r.None? && NamesNone(inbox[read]) then 1 else 0
      ensures r.Some? && !r.value.Replied? ==> !NamesNone(inbox[read])
      ensures silent == (old(silent) && inbox[read].frame.None?)
    {
      OneMore(start, inbox, read, id, discovery);
      var arrival := inbox[read];
      if arrival.frame.None? {
        return Some(Lost);
      }
      silent := false;
      r := TakeFrame(arrival.frame.value, arrival.at, id, discovery);
    }

    // Reads until the reply to id arrives, passing over what is not it. inbox is what
    // the channel would deliver, and until a moment none of it comes after; read says how much
    // of it was.
    method ExchangeFrame(id: nat, discovery: bool, inbox: seq<Arrival>, ghost until: int) returns (r: Outcome, read: nat)
      requires Valid() && InOrder(inbox, clock) && clock <= until && forall i :: 0 <= i < |inbox| ==> inbox[i].at <= until
      requires id < nextId && forall w <- Made(log) :: w.id < id
      modifies this`unaccounted, this`log, this`clock, this`silent
      ensures Valid() && read <= |inbox| && Made(log) == old(Made(log))
      ensures old(clock) <= clock <= until
      ensures Ended(old(log), inbox, id, discovery, r, read)
      ensures r.Replied? ==> AnswersOwn(inbox, read, r.failed, id, unaccounted)
      ensures Tally(log, Absorbed) == old(Tally(log, Absorbed)) + Uncorrelated(inbox[..if r.Replied? then read - 1 else read])
      ensures silent == (old(silent) && !Heard(inbox, read))
    {
      read := 0;
      ghost var start := log;
      while read < |inbox|
        invariant 0 <= read <= |inbox|
        invariant Valid() && Made(log) == old(Made(log))
        invariant log == Held(start, inbox, read) && ReadOn(start, inbox, read, id, discovery)
        invariant old(clock) <= clock <= until
        invariant forall i :: read <= i < |inbox| ==> clock <= inbox[i].at
        invariant Tally(log, Absorbed) == old(Tally(log, Absorbed)) + Uncorrelated(inbox[..read])
        invariant silent == (old(silent) && !Heard(inbox, read))
      {
        if read > 0 && inbox[read].over {
          return Over, read;
        }
        UncorrelatedNext(inbox, read);
        var over := TakeNext(id, discovery, inbox, read, start);
        read := read + 1;
        if over.Some? {
          return over.value, read;
        }
      }
      return Lost, read;
    }

    // Whether a failed exchange was a request withdrawn, so that the connection stands.
    method Withdraw(id: nat, failing: Failing, terms: Terms, now: int) returns (withdrawn: bool)
      requires Valid() && clock <= now && id < nextId && forall w <- Made(log) :: w.id < id
      modifies this`unaccounted, this`log, this`clock, this`silent
      ensures Valid() && clock <= now
      ensures withdrawn == Withdrawable(failing, terms, old(silent))
      ensures withdrawn && terms.notifies && !terms.apart ==>
                && Unexpired(unaccounted, now) && NewestIs(unaccounted, Withdrawal(id, now))
                && Made(log) == old(Made(log)) + [Withdrawal(id, now)] && Tally(log, Absorbed) == old(Tally(log, Absorbed))
      ensures !(withdrawn && terms.notifies && !terms.apart) ==> log == old(log)
      ensures withdrawn || !terms.settled ==> silent == (old(silent) || (withdrawn && failing.TimedOut?))
    {
      if !terms.aware || failing.Broken? {
        return false;
      }
      var hung := failing.TimedOut? && silent;
      if terms.settled && failing.TimedOut? {
        silent := !hung;
      }
      if !terms.settled || hung {
        return false;
      }
      if !terms.notifies {
        return true;
      }
      if !terms.noticeSent {
        return false;
      }
      if !terms.apart {
        Account(id, now);
      }
      return true;
    }

    // One request: its id is new to the channel, so no reply owed to a request withdrawn can ever
    // carry it.
    method Attempt(q: Request) returns (a: Answer)
      requires Valid() && InOrder(q.inbox, clock) && clock <= q.now
      requires forall i :: 0 <= i < |q.inbox| ==> q.inbox[i].at <= q.now
      modifies this
      ensures Valid() && Attempted(old(State()), State(), q, a)
    {
      ghost var s := State();
      var id := nextId;
      nextId := nextId + 1;
      var r, read := ExchangeFrame(id, q.discovery, q.inbox, q.now);
      ghost var m := State();
      if r.Replied? {
        RepliedAttempt(s, m, q, r, read);
        return Answer(r, read, false);
      }
      var withdrawn := GiveUpOn(id, if r.Refused? then Broken else q.failing, q.terms, q.now);
      FailedAttempt(s, m, State(), q, r, read, withdrawn);
      return Answer(r, read, withdrawn);
    }

    // A failed exchange is withdrawn, or costs the channel where a connection is settled over it.
    method GiveUpOn(id: nat, failing: Failing, terms: Terms, now: int) returns (withdrawn: bool)
      requires Valid() && clock <= now && id < nextId && forall w <- Made(log) :: w.id < id
      modifies this`unaccounted, this`log, this`clock, this`silent
      ensures Valid() && Failed(old(State()), State(), id, failing, terms, now, withdrawn)
    {
      withdrawn := Withdraw(id, failing, terms, now);
      if !withdrawn && terms.settled {
        Disconnect();
      }
    }
  }

  // ----- Whole runs -----

  // A request answered, and what the channel holds after it.
  datatype Turn = Turn(request: Request, answer: Answer, after: Record)

  ghost predicate Runs(s: Record, turns: seq<Turn>)
    decreases |turns|
  {
    turns == [] ||
    (Attempted(s, turns[0].after, turns[0].request, turns[0].answer) && Runs(turns[0].after, turns[1..]))
  }

  ghost function PassedOver(s: Record, turns: seq<Turn>): nat
    requires Runs(s, turns)
    decreases |turns|
  {
    if turns == [] then 0
    else Passed(turns[0].request, turns[0].answer) + PassedOver(turns[0].after, turns[1..])
  }

  function Withdrawals(turns: seq<Turn>): nat {
    if turns == [] then 0
    else (if Recorded(turns[0].request, turns[0].answer) then 1 else 0) + Withdrawals(turns[1..])
  }

  // The withdrawals of a record that have taken no error with them.
  function Unspent(s: Record): int {
    |Made(s.log)| - Tally(s.log, Absorbed)
  }

  // Over any run, through every disconnect, no more errors without an id are passed over than
  // withdrawals were made to take them.
  lemma {:induction false} PassedAtMostWithdrawn(s: Record, turns: seq<Turn>)
    requires Runs(s, turns)
    ensures PassedOver(s, turns) <= Unspent(s) + Withdrawals(turns)
    decreases |turns|
  {
    if turns == [] {
      AbsorbedAtMostMade(s.log);
    } else {
      PassedAtMostWithdrawn(turns[0].after, turns[1..]);
    }
  }

  // From a record with nothing withdrawn in it.
  lemma PassedFromStart(s: Record, turns: seq<Turn>)
    requires Runs(s, turns) && s.log == []
    ensures PassedOver(s, turns) <= Withdrawals(turns)
  {
    PassedAtMostWithdrawn(s, turns);
  }

  // Over any run every reply is the request's own, its id new to the channel; and what is held stays
  // the ordered record of so many withdrawals at most, of none lapsed where one is recorded.
  lemma {:induction false} EveryTurnHolds(s: Record, turns: seq<Turn>, i: nat)
    requires Runs(s, turns) && i < |turns|
    ensures var Turn(q, a, after) := turns[i];
            && Sound(after) && after.nextId == s.nextId + i + 1 && Ordered(Opens(after.log))
            && (a.outcome.Replied? ==> AnswersOwn(q.inbox, a.read, a.outcome.failed, s.nextId + i, Opens(after.log)))
            && (Recorded(q, a) ==> Unexpired(Opens(after.log), q.now))
    decreases i
  {
    if i == 0 {
      OpensOrdered(turns[0].after.log);
    } else {
      EveryTurnHolds(turns[0].after, turns[1..], i - 1);
    }
  }
}
