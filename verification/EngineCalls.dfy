// In which form a tool call may leave the connection it stands over (client/protocol.go,
// client/client.go).
module EngineCalls {
  import opened Wrappers
  import opened Pages
  import opened Catalogue
  import opened Credential
  import opened Versions
  import opened Engine
  import opened EngineSafety
  import opened EngineRuns

  // A call about to go out over the connection it stands over.
  ghost predicate Stationed(w: World, id: Id) {
    id in w.goroutines && w.goroutines[id].task.CallTool? && w.goroutines[id].stage.Standing?
  }

  // The frame that left since is the call's, over the connection it stood over.
  ghost predicate Leaves(w: World, id: Id, w': World, bare: bool)
    requires Stationed(w, id)
  {
    exists call: Call :: w'.calls == w.calls + [call] && call.name == w.goroutines[id].task.name
                         && call.generation == w.generation && call.headers.None? == bare
  }

  // Whether some run sends the call without headers, or with them, as the next frame of any.
  ghost predicate MayLeave(w: World, id: Id, bare: bool)
    requires Stationed(w, id)
  {
    exists w' :: Reaches(w, w') && Leaves(w, id, w', bare)
  }

  // The call has come as far as the stage, and nothing left meanwhile.
  ghost predicate Comes(w: World, s: World, id: Id, stage: Stage)
    requires id in w.goroutines
  {
    && Reaches(w, s) && s.generation == w.generation && s.calls == w.calls
    && id in s.goroutines && s.goroutines[id].task == w.goroutines[id].task && s.goroutines[id].stage == stage
  }

  lemma Moves(w: World, s: World, id: Id, stage: Stage, m: Calling)
    requires id in w.goroutines && Comes(w, s, id, stage)
    requires MayCall(s, s.goroutines[id], m)
    ensures Reaches(w, DoCall(s, id, m))
  {
    var a := By(id, Calls(m));
    assert Enabled(s, a) && Next(s, a) == DoCall(s, id, m);
    ReachesOn(w, s, a);
  }

  // What is in hand goes out.
  lemma SendsInHand(w: World, s: World, id: Id, stage: Stage)
    requires Stationed(w, id) && Comes(w, s, id, stage) && stage.InHand? && Renderable(stage.source)
    ensures MayLeave(w, id, false)
  {
    Moves(w, s, id, stage, Send);
    var w' := DoCall(s, id, Send);
    assert w'.calls[|w.calls|].headers.Some?;
    assert Leaves(w, id, w', false);
  }

  const FOUND := Advertised("", "", false)

  lemma StatesTool(entries: seq<Entry<Tool>>, name: string)
    requires |entries| == 1 && entries[0].payload.name == name && !entries[0].payload.refused
    ensures name in StatedBy(entries) && !StatedBy(entries)[name].refused
  {
    assert name in StatedBy(entries);
  }

  // The one page of a reading advertises the tool, refused in nothing.
  lemma ReadsTool(w: World, s: World, id: Id, stage: Stage) returns (r: World, next: Stage)
    requires Stationed(w, id) && Comes(w, s, id, stage) && stage.SettingOut?
    ensures Comes(w, r, id, next) && next.Recording?
    ensures |next.read.entries| == 1 && next.read.entries[0].payload.name == w.goroutines[id].task.name && !next.read.entries[0].payload.refused
  {
    Moves(w, s, id, stage, SetOut);
    var s1 := DoCall(s, id, SetOut);
    var ask := AskHeldPage([FOUND.(name := w.goroutines[id].task.name)], 0, true);
    Moves(w, s1, id, s1.goroutines[id].stage, ask);
    var s2 := DoCall(s1, id, ask);
    Moves(w, s2, id, s2.goroutines[id].stage, NoteHeld);
    r := DoCall(s2, id, NoteHeld);
    next := r.goroutines[id].stage;
  }

  lemma SendsRead(w: World, s: World, id: Id, stage: Stage)
    requires Stationed(w, id) && Comes(w, s, id, stage) && stage.SettingOut?
    ensures MayLeave(w, id, false)
  {
    var r, next := ReadsTool(w, s, id, stage);
    StatesTool(next.read.entries, w.goroutines[id].task.name);
    Moves(w, r, id, next, RecordHeld);
    var n := DoCall(r, id, RecordHeld);
    SendsInHand(w, n, id, n.goroutines[id].stage);
  }

  // What the catalogue keeps for the tool, where that cannot be rendered, is read again.
  lemma SendsLookedUp(w: World, s: World, id: Id, stage: Stage)
    requires Stationed(w, id) && Comes(w, s, id, stage) && stage.Looking?
    ensures MayLeave(w, id, false)
  {
    Moves(w, s, id, stage, LookUp);
    var n := DoCall(s, id, LookUp);
    var next := n.goroutines[id].stage;
    if next.SettingOut? {
      SendsRead(w, n, id, next);
    } else if Renderable(next.source) {
      SendsInHand(w, n, id, next);
    } else {
      Moves(w, n, id, next, ReadAgain);
      var again := DoCall(n, id, ReadAgain);
      SendsRead(w, again, id, again.goroutines[id].stage);
    }
  }

  lemma MayLeaveRendered(w: World, id: Id)
    requires Stationed(w, id) && HandshakeFor(w.goroutines[id].stage.under.version).Discovery?
    ensures MayLeave(w, id, false)
  {
    ReachesItself(w);
    var stage := w.goroutines[id].stage;
    if w.goroutines[id].task.repeat {
      Moves(w, w, id, stage, ReadAgain);
      var s := DoCall(w, id, ReadAgain);
      SendsRead(w, s, id, s.goroutines[id].stage);
    } else {
      Moves(w, w, id, stage, LookAtClock);
      var s := DoCall(w, id, LookAtClock);
      SendsLookedUp(w, s, id, s.goroutines[id].stage);
    }
  }

  lemma MayLeaveBare(w: World, id: Id)
    requires Stationed(w, id) && HandshakeFor(w.goroutines[id].stage.under.version).Initialize?
    ensures MayLeave(w, id, true)
  {
    ReachesItself(w);
    Moves(w, w, id, w.goroutines[id].stage, SendBare);
    var w' := DoCall(w, id, SendBare);
    assert w'.calls[|w.calls|].headers.None?;
    assert Leaves(w, id, w', true);
  }

  // What left over a connection has the form its version asks for.
  lemma LeavesFormed(w: World, id: Id, w': World, bare: bool)
    requires Inv(w) && Stationed(w, id) && w.generation in w.settledOn && Reaches(w, w') && Leaves(w, id, w', bare)
    ensures bare <==> w.settledOn[w.generation] in INITIALIZE_SUPPORTED
  {
    ReachedSafe(w, w');
    InvIsSafe(w');
    var call := w'.calls[|w.calls|];
    assert Formed(call, w'.settledOn);
  }

  // From wherever a call stands over its connection some run sends it, without headers where the
  // version settled is one initialize negotiates and with them where it is not, and none sends it
  // the other way.
  lemma EveryCallMayLeave(w: World, id: Id)
    requires Inv(w) && Stationed(w, id)
    ensures w.generation in w.settledOn
    ensures MayLeave(w, id, true) <==> w.settledOn[w.generation] in INITIALIZE_SUPPORTED
    ensures MayLeave(w, id, false) <==> w.settledOn[w.generation] !in INITIALIZE_SUPPORTED
  {
    var under := w.goroutines[id].stage.under;
    assert Current(w, under);
    ByInitialize(under.version);
    if HandshakeFor(under.version).Initialize? {
      MayLeaveBare(w, id);
    } else {
      MayLeaveRendered(w, id);
    }
    forall bare | MayLeave(w, id, bare) ensures bare <==> w.settledOn[w.generation] in INITIALIZE_SUPPORTED {
      var w' :| Reaches(w, w') && Leaves(w, id, w', bare);
      LeavesFormed(w, id, w', bare);
    }
  }

  // ----- How often a call leaves -----

  const MOST_ATTEMPTS := 3

  predicate Sends(a: Action, id: Id) {
    a.By? && a.id == id && (a.move == Calls(Send) || a.move == Calls(SendBare))
  }

  predicate Begins(a: Action, id: Id) {
    a.Start? && a.id == id && a.task.CallTool?
  }

  function Frames(actions: seq<Action>, id: Id): nat {
    if actions == [] then 0 else (if Sends(actions[0], id) then 1 else 0) + Frames(actions[1..], id)
  }

  function Begun(actions: seq<Action>, id: Id): nat {
    if actions == [] then 0 else (if Begins(actions[0], id) then 1 else 0) + Begun(actions[1..], id)
  }

  // How many frames a goroutine may still send: those its exchange is attempted with, and as many for
  // the one repeat of a call refused for its headers.
  function Left(me: Goroutine): nat {
    if !me.task.CallTool? then 0
    else
      var attempts := match me.attempt case First => 3 case NextSession => 2 case NextVersion => 1;
      (if me.stage.Sent? then attempts - 1 else attempts) + if me.task.repeat then 0 else MOST_ATTEMPTS
  }

  function LeftOf(w: World, id: Id): nat {
    if id in w.goroutines then Left(w.goroutines[id]) else 0
  }

  lemma ComingSpends(w: World, id: Id, m: Coming)
    requires id in w.goroutines && MayCome(w, w.goroutines[id], m)
    ensures LeftOf(DoCome(w, id, m), id) <= LeftOf(w, id)
    ensures Elsewhere(w, DoCome(w, id, m), id)
  {
  }

  lemma ConnectingSpends(w: World, id: Id, m: Connecting)
    requires id in w.goroutines && MayConnect(w, w.goroutines[id], m)
    ensures LeftOf(DoConnect(w, id, m), id) <= LeftOf(w, id)
    ensures Elsewhere(w, DoConnect(w, id, m), id)
  {
  }

  lemma ListingSpends(w: World, id: Id, m: ListMove)
    requires id in w.goroutines && MayList(w, w.goroutines[id], m)
    ensures LeftOf(DoList(w, id, m), id) <= LeftOf(w, id)
    ensures Elsewhere(w, DoList(w, id, m), id)
  {
  }

  lemma CallingElsewhere(w: World, id: Id, m: Calling)
    requires id in w.goroutines && MayCall(w, w.goroutines[id], m)
    ensures Elsewhere(w, DoCall(w, id, m), id)
  {
  }

  lemma SendingSpends(w: World, id: Id, m: Calling)
    requires m.Send? || m.SendBare?
    requires id in w.goroutines && MayCall(w, w.goroutines[id], m)
    ensures LeftOf(DoCall(w, id, m), id) + 1 <= LeftOf(w, id)
  {
  }

  lemma PreparingSpends(w: World, id: Id, m: Calling)
    requires !m.Send? && !m.SendBare?
    requires id in w.goroutines && MayCall(w, w.goroutines[id], m)
    ensures LeftOf(DoCall(w, id, m), id) <= LeftOf(w, id)
  {
  }

  lemma CallingSpends(w: World, id: Id, m: Calling)
    requires id in w.goroutines && MayCall(w, w.goroutines[id], m)
    ensures LeftOf(DoCall(w, id, m), id) + (if m.Send? || m.SendBare? then 1 else 0) <= LeftOf(w, id)
    ensures Elsewhere(w, DoCall(w, id, m), id)
  {
    CallingElsewhere(w, id, m);
    if m.Send? || m.SendBare? {
      SendingSpends(w, id, m);
    } else {
      PreparingSpends(w, id, m);
    }
  }

  lemma DoingSpends(w: World, id: Id, m: Other)
    requires id in w.goroutines && MayDo(w, w.goroutines[id], m)
    ensures LeftOf(DoOther(w, id, m), id) <= LeftOf(w, id)
    ensures Elsewhere(w, DoOther(w, id, m), id)
  {
  }

  lemma MoveSpends(w: World, id: Id, m: Move)
    requires id in w.goroutines && MayMove(w, w.goroutines[id], m)
    ensures LeftOf(DoMove(w, id, m), id) + (if Sends(By(id, m), id) then 1 else 0) <= LeftOf(w, id)
    ensures Elsewhere(w, DoMove(w, id, m), id)
  {
    match m {
      case Comes(coming) => ComingSpends(w, id, coming);
      case Connects(connecting) => ConnectingSpends(w, id, connecting);
      case Lists(list) => ListingSpends(w, id, list);
      case Calls(calling) => CallingSpends(w, id, calling);
      case Does(other) => DoingSpends(w, id, other);
    }
  }

  lemma StartSpends(w: World, other: Id, task: Task, id: Id)
    requires Enabled(w, Start(other, task))
    ensures LeftOf(Next(w, Start(other, task)), id) <= LeftOf(w, id) + if other == id && task.CallTool? then 2 * MOST_ATTEMPTS else 0
  {
  }

  lemma StepSpends(w: World, a: Action, id: Id)
    requires Enabled(w, a)
    ensures LeftOf(Next(w, a), id) + (if Sends(a, id) then 1 else 0)
         <= LeftOf(w, id) + if Begins(a, id) then 2 * MOST_ATTEMPTS else 0
  {
    match a {
      case By(other, m) =>
        MoveSpends(w, other, m);
        if other != id {
          OtherStands(w, DoMove(w, other, m), other, id);
        }
      case Start(other, task) => StartSpends(w, other, task, id);
      case _ =>
    }
  }

  // No run sends more than six frames for a call: three attempts at the exchange, and three at its one
  // repeat.
  lemma {:induction false} FramesBounded(w: World, actions: seq<Action>, id: Id)
    requires Runs(w, actions)
    ensures Frames(actions, id) <= LeftOf(w, id) + 2 * MOST_ATTEMPTS * Begun(actions, id)
    decreases |actions|
  {
    if actions == [] {
    } else {
      StepSpends(w, actions[0], id);
      FramesBounded(Next(w, actions[0]), actions[1..], id);
    }
  }
}
