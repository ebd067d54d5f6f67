// client/transport_stdio.go: frames read from a subprocess, held until they are received.
module Stdio {
  import opened Wrappers

  const MAX_FRAME := 0x200_0000
  const SLOTS := 16

  type Frame = s: seq<char> | s != [] witness ['x']

  // ----- Who is where -----

  // The reader between its locks: reading on, about to look for room, asleep until there may be
  // some, with a frame it has taken room for, at the end of what it reads, or reading only to drop.
  datatype Reader =
    | Reading
    | Wants(frame: Frame)
    | Asleep(frame: Frame)
    | Holding(frame: Frame)
    | Ended
    | Discarding(dropped: nat)

  // What became of the error the reading ended with: a receiver is told of it, or takes it while a
  // line is still waiting and returns the line instead.
  datatype Ending = Open | Pending | Told | Lost

  // frames is all the subprocess writes, read how many of them were read; releasing holds the sizes
  // of the frames some receiver has in hand and not yet let go of.
  datatype State = State(
    frames: seq<Frame>, read: nat, reader: Reader, lines: seq<Frame>, held: int,
    releasing: seq<nat>, received: seq<Frame>, closed: bool, done: bool, ending: Ending)

  datatype Event =
    | Read
    | Take
    | Put
    | GiveUp
    | Receive
    | Release(which: nat)
    | Close
    | Finish
    | EndOfStream
    | ReceiveEnding

  function Start(frames: seq<Frame>): State {
    State(frames, 0, Reading, [], 0, [], [], false, false, Open)
  }

  // Everyone asleep wakes and looks again.
  function Woken(r: Reader): Reader {
    if r.Asleep? then Wants(r.frame) else r
  }

  // Whether a frame of n bytes has to wait: one frame is always held, whatever its size.
  predicate MustWait(held: int, closed: bool, n: nat) {
    !closed && held > 0 && held + n > MAX_FRAME
  }

  predicate Crowded(s: State, f: Frame) {
    MustWait(s.held, s.closed, |f|)
  }

  predicate Enabled(s: State, e: Event) {
    match e
    case Read => s.reader.Reading? && s.read < |s.frames|
    case Take => s.reader.Wants?
    case Put => s.reader.Holding? && |s.lines| < SLOTS
    case GiveUp => s.reader.Holding? && s.done
    case Receive => s.lines != []
    case Release(which) => which < |s.releasing|
    case Close => true
    case Finish => true
    case EndOfStream => s.reader.Reading?
    case ReceiveEnding => s.ending.Pending?
  }

  function Taken(s: State): State
    requires s.reader.Wants?
  {
    var f := s.reader.frame;
    if Crowded(s, f) then s.(reader := Asleep(f))
    else if s.closed then s.(reader := Discarding(0))
    else s.(reader := Holding(f), held := s.held + |f|)
  }

  function Received(s: State): State
    requires s.lines != []
  {
    s.(lines := s.lines[1..], received := s.received + [s.lines[0]], releasing := s.releasing + [|s.lines[0]|])
  }

  function Next(s: State, e: Event): State
    requires Enabled(s, e)
  {
    match e
    case Read => s.(reader := Wants(s.frames[s.read]), read := s.read + 1)
    case Take => Taken(s)
    case Put => s.(reader := Reading, lines := s.lines + [s.reader.frame])
    case GiveUp => s.(reader := Discarding(|s.reader.frame|))
    case Receive => Received(s)
    case Release(which) =>
      s.(held := s.held - s.releasing[which],
         releasing := s.releasing[..which] + s.releasing[which + 1..],
         reader := Woken(s.reader))
    case Close => s.(closed := true, reader := Woken(s.reader))
    case Finish => s.(done := true)
    case EndOfStream => s.(reader := Ended, ending := Pending)
    case ReceiveEnding => if s.lines == [] then s.(ending := Told) else Received(s).(ending := Lost)
  }

  predicate Runs(s: State, events: seq<Event>)
    decreases |events|
  {
    events == [] || (Enabled(s, events[0]) && Runs(Next(s, events[0]), events[1..]))
  }

  function After(s: State, events: seq<Event>): State
    requires Runs(s, events)
    decreases |events|
  {
    if events == [] then s else After(Next(s, events[0]), events[1..])
  }

  // ----- What every step keeps -----

  function Sum(sizes: seq<nat>): nat {
    if sizes == [] then 0 else Sum(sizes[..|sizes| - 1]) + sizes[|sizes| - 1]
  }

  function Lengths(frames: seq<Frame>): (r: seq<nat>)
    ensures |r| == |frames|
  {
    seq(|frames|, i requires 0 <= i < |frames| => |frames[i]|)
  }

  lemma {:induction false} SumConcat(a: seq<nat>, b: seq<nat>)
    ensures Sum(a + b) == Sum(a) + Sum(b)
  {
    if b == [] {
      assert a + b == a;
    } else {
      SumConcat(a, b[..|b| - 1]);
      assert (a + b)[..|a + b| - 1] == a + b[..|b| - 1];
    }
  }

  lemma SumOne(n: nat)
    ensures Sum([n]) == n
  {
    assert [n][..0] == [];
  }

  function InHand(r: Reader): seq<Frame> {
    if r.Wants? || r.Asleep? || r.Holding? then [r.frame] else []
  }

  function Kept(r: Reader): nat {
    if r.Holding? then |r.frame| else if r.Discarding? then r.dropped else 0
  }

  // The count is exactly the frames taken and not let go of.
  predicate Counted(s: State) {
    s.held == Sum(Lengths(s.lines)) + Kept(s.reader) + Sum(s.releasing)
  }

  // Nothing is held beyond the bound.
  predicate Bounded(s: State) {
    s.held <= MAX_FRAME && forall i :: 0 <= i < |s.frames| ==> |s.frames[i]| <= MAX_FRAME
  }

  // What was received, what waits to be, and what the reader has in hand are the frames read so far,
  // in order, but for one dropped where the reader gave up.
  predicate InOrder(s: State) {
    && s.read <= |s.frames|
    && if s.reader.Discarding? then s.received + s.lines <= s.frames[..s.read]
       else s.received + s.lines + InHand(s.reader) == s.frames[..s.read]
  }

  // A reader asleep still has no room: it never sleeps through what would make some.
  predicate RightlyAsleep(s: State) {
    s.reader.Asleep? ==> Crowded(s, s.reader.frame)
  }

  predicate Inv(s: State) {
    Counted(s) && Bounded(s) && InOrder(s) && RightlyAsleep(s)
  }

  lemma {:induction false} SumRemoved(sizes: seq<nat>, i: nat)
    requires i < |sizes|
    ensures Sum(sizes) == Sum(sizes[..i] + sizes[i + 1..]) + sizes[i]
  {
    SumConcat(sizes[..i], [sizes[i]] + sizes[i + 1..]);
    SumConcat([sizes[i]], sizes[i + 1..]);
    SumConcat(sizes[..i], sizes[i + 1..]);
    SumOne(sizes[i]);
    assert sizes == sizes[..i] + ([sizes[i]] + sizes[i + 1..]);
  }

  lemma LengthsAppend(frames: seq<Frame>, f: Frame)
    ensures Sum(Lengths(frames + [f])) == Sum(Lengths(frames)) + |f|
  {
    assert Lengths(frames + [f]) == Lengths(frames) + [|f|];
    SumConcat(Lengths(frames), [|f|]);
    SumOne(|f|);
  }

  lemma LengthsRest(frames: seq<Frame>)
    requires frames != []
    ensures Sum(Lengths(frames)) == |frames[0]| + Sum(Lengths(frames[1..]))
  {
    assert Lengths(frames) == [|frames[0]|] + Lengths(frames[1..]);
    SumConcat([|frames[0]|], Lengths(frames[1..]));
    SumOne(|frames[0]|);
  }

  lemma ReadKeeps(s: State)
    requires Inv(s) && Enabled(s, Read)
    ensures Inv(Next(s, Read))
  {
    assert s.frames[..s.read + 1] == s.frames[..s.read] + [s.frames[s.read]];
    assert s.received + s.lines + [] == s.received + s.lines;
  }

  lemma TakeKeeps(s: State)
    requires Inv(s) && Enabled(s, Take)
    ensures Inv(Next(s, Take))
  {
    var f := s.reader.frame;
    assert (s.received + s.lines + [f])[..|s.received + s.lines|] == s.received + s.lines;
    assert f == (s.received + s.lines + [f])[|s.received + s.lines|];
    assert s.frames[..s.read][|s.received + s.lines|] == s.frames[|s.received + s.lines|];
  }

  lemma PutKeeps(s: State)
    requires Inv(s) && Enabled(s, Put)
    ensures Inv(Next(s, Put))
  {
    LengthsAppend(s.lines, s.reader.frame);
    assert s.received + (s.lines + [s.reader.frame]) + [] == s.received + s.lines + [s.reader.frame];
  }

  lemma GiveUpKeeps(s: State)
    requires Inv(s) && Enabled(s, GiveUp)
    ensures Inv(Next(s, GiveUp))
  {
    var front := s.received + s.lines;
    assert front + [s.reader.frame] == s.frames[..s.read];
    assert front == s.frames[..s.read][..|front|];
  }

  lemma ReceivedKeeps(s: State)
    requires Inv(s) && s.lines != []
    ensures Inv(Received(s))
  {
    LengthsRest(s.lines);
    SumConcat(s.releasing, [|s.lines[0]|]);
    SumOne(|s.lines[0]|);
    assert s.received + [s.lines[0]] + s.lines[1..] == s.received + s.lines;
  }

  lemma ReleaseKeeps(s: State, which: nat)
    requires Inv(s) && Enabled(s, Release(which))
    ensures Inv(Next(s, Release(which)))
  {
    SumRemoved(s.releasing, which);
  }

  lemma EndKeeps(s: State)
    requires Inv(s) && Enabled(s, EndOfStream)
    ensures Inv(Next(s, EndOfStream))
  {
  }

  lemma NextKeeps(s: State, e: Event)
    requires Inv(s) && Enabled(s, e)
    ensures Inv(Next(s, e))
  {
    match e
    case Read => ReadKeeps(s);
    case Take => TakeKeeps(s);
    case Put => PutKeeps(s);
    case GiveUp => GiveUpKeeps(s);
    case Receive => ReceivedKeeps(s);
    case Release(which) => ReleaseKeeps(s, which);
    case Close =>
    case Finish =>
    case EndOfStream => EndKeeps(s);
    case ReceiveEnding => if s.lines != [] { ReceivedKeeps(s); }
  }

  lemma {:induction false} RunKeeps(s: State, events: seq<Event>)
    requires Inv(s) && Runs(s, events)
    ensures Inv(After(s, events)) && After(s, events).frames == s.frames
    decreases |events|
  {
    if events == [] {
    } else {
      NextKeeps(s, events[0]);
      RunKeeps(Next(s, events[0]), events[1..]);
    }
  }

  predicate Framed(frames: seq<Frame>) {
    forall i :: 0 <= i < |frames| ==> |frames[i]| <= MAX_FRAME
  }

  // However the reader and the receivers take turns: the count is exact and within the bound, frames
  // are received in the order they were read and none is skipped, and no reader sleeps on room.
  lemma EveryRunHolds(frames: seq<Frame>, events: seq<Event>)
    requires Framed(frames) && Runs(Start(frames), events)
    ensures var s := After(Start(frames), events);
            Inv(s) && s.frames == frames && s.received <= frames
  {
    RunKeeps(Start(frames), events);
    var s := After(Start(frames), events);
    assert s.received <= s.received + s.lines;
  }

  // A reader asleep always has someone to wait for: a frame to be received, or a receiver with one
  // in hand that will let go of it and wake the reader.
  lemma NeverDeadlocked(s: State)
    requires Inv(s) && s.reader.Asleep?
    ensures Enabled(s, Receive) || Enabled(s, Release(0))
    ensures forall which :: Enabled(s, Release(which)) ==> Next(s, Release(which)).reader == Wants(s.reader.frame)
  {
  }

  // ----- The end of the stream -----

  lemma Leads(s: State, e: Event, events: seq<Event>)
    requires Enabled(s, e) && Runs(Next(s, e), events)
    ensures Runs(s, [e] + events) && After(s, [e] + events) == After(Next(s, e), events)
  {
    assert ([e] + events)[1..] == events;
  }

  // Whether some run from here on loses the error the stream ended with.
  ghost predicate MayLose(s: State) {
    exists events :: Runs(s, events) && After(s, events).ending.Lost?
  }

  // With no line waiting none ever will be, and the error is told of whenever it is taken.
  lemma {:induction false} NothingWaitingTells(s: State, events: seq<Event>)
    requires Runs(s, events) && s.reader.Ended? && s.lines == [] && (s.ending.Pending? || s.ending.Told?)
    ensures !After(s, events).ending.Lost?
    decreases |events|
  {
    if events == [] {
    } else {
      NothingWaitingTells(Next(s, events[0]), events[1..]);
    }
  }

  // The error still to be taken may be lost exactly where a line is waiting.
  lemma PendingMayLose(s: State)
    requires s.reader.Ended? && s.ending.Pending?
    ensures MayLose(s) <==> s.lines != []
  {
    if s.lines == [] {
      forall events | Runs(s, events) ensures !After(s, events).ending.Lost? {
        NothingWaitingTells(s, events);
      }
    } else {
      var lost := Next(s, ReceiveEnding);
      assert Runs(lost, []) && After(lost, []) == lost;
      Leads(s, ReceiveEnding, []);
      assert [ReceiveEnding] + [] == [ReceiveEnding];
      assert Runs(s, [ReceiveEnding]) && After(s, [ReceiveEnding]).ending.Lost?;
    }
  }

  // The error of a stream that ends now may be lost exactly where a line read before it has not been
  // received yet.
  lemma EndingMayLose(s: State)
    requires Enabled(s, EndOfStream)
    ensures MayLose(Next(s, EndOfStream)) <==> s.lines != []
  {
    PendingMayLose(Next(s, EndOfStream));
  }

  // The stream ends in this run at a moment when no line is waiting.
  predicate EndsDrained(s: State, events: seq<Event>)
    requires Runs(s, events)
    decreases |events|
  {
    && events != []
    && ((events[0].EndOfStream? && s.lines == []) || EndsDrained(Next(s, events[0]), events[1..]))
  }

  lemma {:induction false} EndsOnce(s: State, events: seq<Event>)
    requires Runs(s, events) && s.reader.Ended?
    ensures !EndsDrained(s, events)
    decreases |events|
  {
    if events == [] {
    } else {
      EndsOnce(Next(s, events[0]), events[1..]);
    }
  }

  // A run in which every line was received by the time the stream ended never loses the error.
  lemma {:induction false} DrainedNeverLoses(s: State, events: seq<Event>)
    requires Runs(s, events) && s.ending.Open? && !s.reader.Ended? && EndsDrained(s, events)
    ensures !After(s, events).ending.Lost?
    decreases |events|
  {
    if events[0].EndOfStream? {
      EndsOnce(Next(s, events[0]), events[1..]);
      NothingWaitingTells(Next(s, events[0]), events[1..]);
    } else {
      DrainedNeverLoses(Next(s, events[0]), events[1..]);
    }
  }

  // Where one is, the error is gone for good: nothing that follows tells of it.
  lemma {:induction false} LostForGood(s: State, events: seq<Event>)
    requires s.ending.Lost? && (s.reader.Ended? || s.reader.Discarding?) && Runs(s, events)
    ensures After(s, events).ending.Lost?
    decreases |events|
  {
    if events == [] {
    } else {
      LostForGood(Next(s, events[0]), events[1..]);
    }
  }

  // One frame, and the end read before it is received, is enough.
  lemma EndingLost(f: Frame)
    requires |f| <= MAX_FRAME
    ensures var events := [Read, Take, Put, EndOfStream, ReceiveEnding];
            Runs(Start([f]), events) && After(Start([f]), events).ending.Lost?
  {
    var s0 := Start([f]);
    var s1 := Next(s0, Read);
    var s2 := Next(s1, Take);
    var s3 := Next(s2, Put);
    var s4 := Next(s3, EndOfStream);
    var s5 := Next(s4, ReceiveEnding);
    assert Runs(s5, []) && After(s5, []) == s5;
    Leads(s4, ReceiveEnding, []);
    Leads(s3, EndOfStream, [ReceiveEnding]);
    Leads(s2, Put, [EndOfStream, ReceiveEnding]);
    Leads(s1, Take, [Put, EndOfStream, ReceiveEnding]);
    Leads(s0, Read, [Take, Put, EndOfStream, ReceiveEnding]);
    assert [Read] + [Take, Put, EndOfStream, ReceiveEnding] == [Read, Take, Put, EndOfStream, ReceiveEnding];
    assert [Take] + [Put, EndOfStream, ReceiveEnding] == [Take, Put, EndOfStream, ReceiveEnding];
    assert [Put] + [EndOfStream, ReceiveEnding] == [Put, EndOfStream, ReceiveEnding];
    assert [EndOfStream] + [ReceiveEnding] == [EndOfStream, ReceiveEnding];
    assert [ReceiveEnding] + [] == [ReceiveEnding];
  }

  // ----- The backlog -----

  // What wakes a taker: a frame let go of, or the end of it all.
  datatype Wake = LetGo(n: nat) | Shut

  function HeldAfter(held: int, wakes: seq<Wake>): int {
    if wakes == [] then held
    else HeldAfter(held, wakes[..|wakes| - 1]) - if wakes[|wakes| - 1].LetGo? then wakes[|wakes| - 1].n else 0
  }

  predicate ShutAfter(closed: bool, wakes: seq<Wake>) {
    closed || Shut in wakes
  }

  // Whether a taker goes on sleeping after the first wakes.
  predicate SleepsThrough(held: int, closed: bool, n: nat, wakes: seq<Wake>) {
    MustWait(HeldAfter(held, wakes), ShutAfter(closed, wakes), n)
  }

  class Backlog {
    var held: int
    var closed: bool

    constructor ()
      ensures held == 0 && !closed
    {
      held, closed := 0, false;
    }

    // wakes is what others do, each under the lock the taker has let go of to sleep. It takes the
    // frame at the first moment it need not wait, or is refused there; asleep says that they never
    // came to one.
    method Take(n: nat, wakes: seq<Wake>) returns (ok: bool, asleep: bool, slept: nat)
      modifies this
      ensures slept <= |wakes|
      ensures forall i :: 0 <= i < slept ==> SleepsThrough(old(held), old(closed), n, wakes[..i])
      ensures asleep == SleepsThrough(old(held), old(closed), n, wakes[..slept]) && (asleep ==> slept == |wakes|)
      ensures closed == ShutAfter(old(closed), wakes[..slept])
      ensures ok == (!asleep && !closed)
      ensures held == HeldAfter(old(held), wakes[..slept]) + if ok then n else 0
    {
      slept := 0;
      while !closed && held > 0 && held + n > MAX_FRAME
        invariant slept <= |wakes|
        invariant held == HeldAfter(old(held), wakes[..slept]) && closed == ShutAfter(old(closed), wakes[..slept])
        invariant forall i :: 0 <= i < slept ==> SleepsThrough(old(held), old(closed), n, wakes[..i])
        decreases |wakes| - slept
      {
        if slept == |wakes| {
          return false, true, slept;
        }
        assert wakes[..slept + 1][..slept] == wakes[..slept] && wakes[..slept + 1][slept] == wakes[slept];
        assert wakes[..slept + 1] == wakes[..slept] + [wakes[slept]];
        if wakes[slept].LetGo? {
          Release(wakes[slept].n);
        } else {
          Close();
        }
        slept := slept + 1;
      }
      ok, asleep := !closed, false;
      if ok {
        held := held + n;
      }
    }

    method Release(n: nat)
      modifies this`held
      ensures held == old(held) - n
    {
      held := held - n;
    }

    method Close()
      modifies this`closed
      ensures closed
    {
      closed := true;
    }
  }

  // ----- Reading one frame -----

  // What one read of the buffered stream gives, and whether the line goes on behind it.
  datatype Chunk = Chunk(bytes: seq<char>, more: bool)

  function Line(chunks: seq<Chunk>): seq<char> {
    if chunks == [] then [] else if chunks[0].more then chunks[0].bytes + Line(chunks[1..]) else chunks[0].bytes
  }

  predicate Complete(chunks: seq<Chunk>) {
    chunks != [] && (!chunks[0].more || Complete(chunks[1..]))
  }

  lemma {:induction false} LineOnward(chunks: seq<Chunk>, i: nat, front: seq<char>)
    requires i < |chunks|
    ensures front + Line(chunks[i..])
         == if chunks[i].more then (front + chunks[i].bytes) + Line(chunks[i + 1..]) else front + chunks[i].bytes
    ensures Complete(chunks[i..]) <==> !chunks[i].more || Complete(chunks[i + 1..])
  {
    assert chunks[i..][1..] == chunks[i + 1..];
  }

  // A whole line, exactly when it is no longer than the limit; of a longer one nothing is taken.
  method ReadFrame(chunks: seq<Chunk>, limit: nat) returns (frame: Option<seq<char>>)
    requires Complete(chunks)
    ensures frame == if |Line(chunks)| <= limit then Some(Line(chunks)) else None
  {
    var read: seq<char> := [];
    var i := 0;
    while true
      invariant i <= |chunks| && Complete(chunks[i..]) && |read| <= limit
      invariant read + Line(chunks[i..]) == Line(chunks)
      decreases |chunks| - i
    {
      var chunk := chunks[i];
      LineOnward(chunks, i, read);
      if |read| + |chunk.bytes| > limit {
        return None;
      }
      read := read + chunk.bytes;
      if !chunk.more {
        return Some(read);
      }
      i := i + 1;
    }
  }

  // ----- The tail of the standard error -----

  function Tail(bytes: seq<char>, limit: nat): seq<char> {
    if |bytes| <= limit then bytes else bytes[|bytes| - limit..]
  }

  class TailBuffer {
    const limit: nat
    var buf: seq<char>
    // Everything ever written.
    ghost var written: seq<char>

    ghost predicate Valid()
      reads this
    {
      buf == Tail(written, limit)
    }

    constructor (limit: nat)
      ensures Valid() && this.limit == limit && written == []
    {
      this.limit, buf, written := limit, [], [];
    }

    // All of p is taken for written, and of everything written the last bytes are kept.
    method Write(p: seq<char>) returns (n: nat)
      requires Valid()
      modifies this
      ensures Valid() && n == |p| && written == old(written) + p
    {
      written := written + p;
      if |p| >= limit {
        buf := p[|p| - limit..];
        return |p|;
      }
      var overflow := |buf| + |p| - limit;
      if overflow > 0 {
        buf := buf[overflow..];
      }
      buf := buf + p;
      return |p|;
    }
  }
}
