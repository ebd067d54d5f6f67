// The worlds a run of the connection engine can come to.
module EngineRuns {
  import opened Wrappers
  import opened Pages
  import opened Catalogue
  import opened Credential
  import opened Versions
  import opened Engine
  import opened EngineSafety

  ghost predicate Reaches(w: World, w': World) {
    exists actions :: Runs(w, actions) && Ends(w, actions) == w'
  }

  lemma {:induction false} RunsOn(w: World, a: seq<Action>, b: seq<Action>)
    requires Runs(w, a) && Runs(Ends(w, a), b)
    ensures Runs(w, a + b) && Ends(w, a + b) == Ends(Ends(w, a), b)
    decreases |a|
  {
    if a == [] {
      assert a + b == b;
    } else {
      assert (a + b)[1..] == a[1..] + b;
      RunsOn(Next(w, a[0]), a[1..], b);
    }
  }

  lemma OneAction(w: World, a: Action)
    requires Enabled(w, a)
    ensures Runs(w, [a]) && Ends(w, [a]) == Next(w, a)
  {
    assert [a][1..] == [];
    assert Runs(Next(w, a), []) && Ends(Next(w, a), []) == Next(w, a);
  }

  lemma ReachesOn(w: World, w': World, a: Action)
    requires Reaches(w, w') && Enabled(w', a)
    ensures Reaches(w, Next(w', a))
  {
    var actions :| Runs(w, actions) && Ends(w, actions) == w';
    OneAction(w', a);
    RunsOn(w, actions, [a]);
  }

  lemma ReachesItself(w: World)
    ensures Reaches(w, w)
  {
    assert Runs(w, []) && Ends(w, []) == w;
  }

  lemma Then(w: World, w': World, w'': World)
    requires Reaches(w, w') && Reaches(w', w'')
    ensures Reaches(w, w'')
  {
    var a :| Runs(w, a) && Ends(w, a) == w';
    var b :| Runs(w', b) && Ends(w', b) == w'';
    RunsOn(w, a, b);
  }

  lemma ReachedSafe(w: World, w': World)
    requires Inv(w) && Reaches(w, w')
    ensures Inv(w') && Grows(w, w')
  {
    var actions :| Runs(w, actions) && Ends(w, actions) == w';
    RunsKeep(w, actions);
    GenerationsCountSettlements(w, actions);
  }
}
