// When the refused tools shown to a caller may be another's (client/client.go).
module EngineExclusions {
  import opened Wrappers
  import opened Pages
  import opened Catalogue
  import opened Credential
  import opened Versions
  import opened Engine
  import opened EngineSafety
  import opened EngineRuns

  // ----- What may be shown to another -----

  predicate Looks(w: World, id: Id) {
    id in w.goroutines && MayDo(w, w.goroutines[id], LookAtAuthorization)
  }

  function Looked(w: World, id: Id): World
    requires Looks(w, id)
  {
    DoOther(w, id, LookAtAuthorization)
  }

  ghost predicate ShowsAnothers(w: World, look: nat) {
    exists x :: x in w.exclusions && x.look == look && x.names != {} && !Own(w, x)
  }

  // Whether some run that goes on from a look now shows whoever takes it tools that were refused for
  // another token than the one it is taken under.
  ghost predicate MayShowAnothers(w: World, id: Id)
    requires Looks(w, id)
  {
    exists w' :: Reaches(Looked(w, id), w') && ShowsAnothers(w', |w.looks|)
  }

  lemma SafeShowsOwn(w: World, look: nat)
    requires Inv(w) && look < |w.looks| && w.looks[look].standing
    ensures !ShowsAnothers(w, look)
  {
    forall x | x in w.exclusions && x.look == look ensures Own(w, x) {
      assert w.looks[x.look] in w.looks;
    }
  }

  // A look under the token last settled is shown its own, whatever happens before it is.
  lemma StandingSeesOwn(w: World, id: Id)
    requires Inv(w) && Looks(w, id) && StandsFor(w.credential, w.token)
    ensures !MayShowAnothers(w, id)
  {
    var l := Looked(w, id);
    LookKeeps(w, id);
    forall w' | Reaches(l, w') ensures !ShowsAnothers(w', |w.looks|) {
      ReachedSafe(l, w');
      assert w'.looks[|w.looks|] == l.looks[|w.looks|];
      SafeShowsOwn(w', |w.looks|);
    }
  }

  // ----- The run that shows another's -----

  lemma {:induction false} FreshId(ids: set<Id>) returns (id: Id)
    ensures forall other <- ids :: other < id
  {
    if ids == {} {
      return 0;
    }
    var any :| any in ids;
    var above := FreshId(ids - {any});
    id := if any < above then above else any + 1;
    forall other | other in ids ensures other < id {
      if other != any {
        assert other in ids - {any};
      }
    }
  }

  const REFUSED := [Advertised("tool", "", true)]

  function Lister(w: World): Task {
    ListTools(w.kept.changes, true, 0, Unread(), false)
  }

  // A listing set out from w under its token, not settled before, and as far as the stage.
  ghost predicate Seeks(w: World, s: World, n: Id, stage: Stage) {
    && s.goroutines == w.goroutines[n := Goroutine(Lister(w), stage, First)] && s.gate == Some(n)
    && s.token == w.token && s.credential == Settled(w.credential, w.token) && s.tokens == w.tokens + [w.token]
    && s.kept == w.kept && s.looks == w.looks && s.exclusions == w.exclusions
  }

  lemma TakesGate(w: World, n: Id) returns (s: World)
    requires w.gate.None? && n !in w.goroutines
    ensures Reaches(w, s)
    ensures s == w.(goroutines := w.goroutines[n := Goroutine(Lister(w), Beginning, First)], gate := Some(n))
  {
    ReachesItself(w);
    ReachesOn(w, w, Start(n, Lister(w)));
    var s1 := Next(w, Start(n, Lister(w)));
    ReachesOn(w, s1, By(n, Comes(Acquire)));
    s := Next(s1, By(n, Comes(Acquire)));
  }

  lemma SetsOut(w: World, n: Id) returns (s: World)
    requires w.gate.None? && n !in w.goroutines && !StandsFor(w.credential, w.token)
    ensures Reaches(w, s) && Seeks(w, s, n, Weighing(w.credential.authorization + 1))
    ensures s.conn == w.conn && s.connected == w.connected
  {
    var s1 := TakesGate(w, n);
    ReachesOn(w, s1, By(n, Connects(SettleCredential)));
    s := Next(s1, By(n, Connects(SettleCredential)));
  }

  lemma ComesToWeigh(w: World, s: World, n: Id) returns (o: World)
    requires Inv(w) && w.gate.None? && Reaches(w, s)
    requires Seeks(w, s, n, Weighing(w.credential.authorization + 1)) && s.conn == w.conn && s.connected == w.connected
    ensures Reaches(w, o) && n in o.goroutines && Seeks(w, o, n, o.goroutines[n].stage) && !o.connected
    ensures var stage := o.goroutines[n].stage; (stage.Forsaking? || stage.Opening?) && stage.authorization == w.credential.authorization + 1
  {
    ReachesOn(w, s, By(n, Connects(Weigh)));
    o := Next(s, By(n, Connects(Weigh)));
  }

  // Whatever stands was settled under another authorization, and is given up.
  lemma ComesToOpen(w: World, s: World, n: Id) returns (o: World)
    requires Inv(w) && w.gate.None? && Reaches(w, s)
    requires Seeks(w, s, n, Weighing(w.credential.authorization + 1)) && s.conn == w.conn && s.connected == w.connected
    ensures Reaches(w, o) && Seeks(w, o, n, Opening(w.credential.authorization + 1)) && !o.connected
  {
    o := ComesToWeigh(w, s, n);
    if o.goroutines[n].stage.Forsaking? {
      ReachesOn(w, o, By(n, Connects(PutDown)));
      o := Next(o, By(n, Connects(PutDown)));
    }
  }

  lemma ComesToHandshake(w: World, o: World, n: Id) returns (h: World)
    requires Reaches(w, o) && Seeks(w, o, n, Opening(w.credential.authorization + 1)) && !o.connected
    ensures Reaches(w, h) && Seeks(w, h, n, Handshaking(w.credential.authorization + 1))
  {
    ReachesOn(w, o, By(n, Connects(Check)));
    h := Next(o, By(n, Connects(Check)));
  }

  lemma ComesToStand(w: World, h: World, n: Id) returns (s: World)
    requires Reaches(w, h) && Seeks(w, h, n, Handshaking(w.credential.authorization + 1))
    ensures Reaches(w, s) && n in s.goroutines && s.goroutines[n].stage.Standing?
    ensures Seeks(w, s, n, s.goroutines[n].stage)
    ensures s.goroutines[n].stage.under == Held(LATEST, s.generation, w.credential.authorization + 1)
  {
    var agree := By(n, Connects(Agree(LATEST, "", 0)));
    ReachesOn(w, h, agree);
    var s1 := Next(h, agree);
    ReachesOn(w, s1, By(n, Connects(Count)));
    s := Next(s1, By(n, Connects(Count)));
  }

  ghost predicate Refused(w: World, r: World, n: Id) {
    && r.goroutines == w.goroutines - {n} && r.looks == w.looks && r.exclusions == w.exclusions
    && r.tokens == w.tokens + [w.token] && r.kept.excludedFor == w.credential.authorization + 1 && r.kept.excluded != {}
  }

  lemma RefusesTool(entries: seq<Entry<Tool>>)
    requires |entries| == 1 && entries[0].payload.refused
    ensures RefusedBy(entries) != {}
  {
    assert entries[0].payload.name in RefusedBy(entries);
  }

  // The one page of the listing refuses a tool.
  lemma ReadsRefusal(w: World, s: World, n: Id) returns (r: World)
    requires Reaches(w, s) && n in s.goroutines && s.goroutines[n].stage.Standing? && Seeks(w, s, n, s.goroutines[n].stage)
    requires s.goroutines[n].stage.under.authorization == w.credential.authorization + 1
    ensures Reaches(w, r) && Refused(w, r, n)
  {
    var ask := By(n, Lists(AskPage(REFUSED, 0, true)));
    ReachesOn(w, s, ask);
    var s1 := Next(s, ask);
    ReachesOn(w, s1, By(n, Lists(NoteListing)));
    var s2 := Next(s1, By(n, Lists(NoteListing)));
    ReachesOn(w, s2, By(n, Lists(ListMove.RecordListing)));
    r := Next(s2, By(n, Lists(ListMove.RecordListing)));
    RefusesTool(s1.goroutines[n].task.read.entries);
  }

  // From a free gate, a listing under a token not settled before is read and recorded.
  lemma ListsRefusal(w: World) returns (n: Id, r: World)
    requires Inv(w) && w.gate.None? && !StandsFor(w.credential, w.token)
    ensures n !in w.goroutines && Reaches(w, r) && Refused(w, r, n)
  {
    n := FreshId(w.goroutines.Keys);
    var s := SetsOut(w, n);
    var o := ComesToOpen(w, s, n);
    var h := ComesToHandshake(w, o, n);
    var c := ComesToStand(w, h, n);
    r := ReadsRefusal(w, c, n);
  }

  // The token changes to one nobody has presented, and the listing is read under it.
  lemma AnotherLists(l: World) returns (another: string, n: Id, r: World)
    requires Inv(l) && l.gate.None?
    ensures another != l.token && n !in l.goroutines && Reaches(l, r)
    ensures Refused(l.(token := another), r, n)
  {
    another := l.token + l.credential.bearer + "x";
    ReachesItself(l);
    ReachesOn(l, l, Rotate(another));
    var changed := Next(l, Rotate(another));
    WorldKeeps(l, Rotate(another));
    n, r := ListsRefusal(changed);
    Then(l, changed, r);
  }

  // Shown by a number that has come to stand for another token.
  lemma ShowsRefusal(l: World, id: Id, look: nat, r: World, n: Id, another: string)
    requires look < |l.looks| && another != l.looks[look].token && Refused(l.(token := another), r, n)
    requires |l.tokens| == l.credential.authorization && n !in l.goroutines && id in l.goroutines
    requires l.goroutines[id].stage == Numbered(look, l.credential.authorization + 1)
    ensures Enabled(r, By(id, Does(ShowExcluded))) && ShowsAnothers(Next(r, By(id, Does(ShowExcluded))), look)
  {
    assert r.goroutines[id] == l.goroutines[id];
    var w' := Next(r, By(id, Does(ShowExcluded)));
    var x := w'.exclusions[|w'.exclusions| - 1];
    assert w'.tokens[x.refusedFor - 1] == another;
    assert x in w'.exclusions && !Own(w', x);
  }

  // A number only foretold may come to stand for another token before it is compared.
  lemma ForetoldMaySeeAnothers(w: World, id: Id)
    requires Inv(w) && w.gate.None? && Looks(w, id) && !StandsFor(w.credential, w.token)
    ensures MayShowAnothers(w, id)
  {
    var l := Looked(w, id);
    LookKeeps(w, id);
    var another, n, r := AnotherLists(l);
    ShowsRefusal(l, id, |w.looks|, r, n, another);
    ReachesOn(l, r, By(id, Does(ShowExcluded)));
  }

  // Whoever looks at the refused tools, with the gate free, may be shown another's exactly where the
  // token then presented is not the one last settled.
  lemma AnothersMayBeShown(w: World, id: Id)
    requires Inv(w) && w.gate.None? && Looks(w, id)
    ensures MayShowAnothers(w, id) <==> !StandsFor(w.credential, w.token)
  {
    if StandsFor(w.credential, w.token) {
      StandingSeesOwn(w, id);
    } else {
      ForetoldMaySeeAnothers(w, id);
    }
  }

  // What was shown was refused for the token looked under exactly where that token was the one last
  // settled then, or the first to be settled after.
  lemma ShownExactly(w: World, actions: seq<Action>, x: Exclusion)
    requires Initial(w) && Runs(w, actions) && x in Ends(w, actions).exclusions
    ensures var e := Ends(w, actions);
            && x.look < |e.looks|
            && var k := e.looks[x.look];
            && (!k.standing ==> k.given < |e.tokens|)
            && (Own(e, x) <==> k.standing || e.tokens[k.given] == k.token)
  {
    RunsKeep(w, actions);
    var e := Ends(w, actions);
    assert LookOk(e.looks[x.look], e.tokens);
  }
}
