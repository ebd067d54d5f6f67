// What a client keeps of the tools one connection stated (client/client.go): the
// sections its mutex guards, as transitions and as the methods that make them.
module Catalogue {
  import opened Wrappers
  import opened Pages

  // Where a statement of the server came from: the connection and the authorization
  // its page was read under, and the count of announced changes its listing set out
  // at. Nothing the client decides reads it; it is what the safety results speak of.
  datatype Origin = Origin(generation: int, authorization: int, setOut: nat)

  datatype Tool = Tool(name: string, schema: string, refused: bool, origin: Origin)

  datatype Definition = Definition(schema: string, refused: bool, staleAfter: int, origin: Origin)

  // listed and claim belong to the last whole listing: the names it carried and where
  // it came from.
  datatype Catalogue = Catalogue(generation: int, tools: map<string, Definition>,
                                 whole: bool, wholeUntil: int, listed: set<string>, claim: Origin)

  datatype Kept = Kept(catalogue: Catalogue, changes: nat, excluded: set<string>, excludedFor: int)

  datatype Known =
    | Unknown
    | Stated(definition: Definition)
    | Unlisted(claim: Origin, listed: set<string>, until: int)

  const NOWHERE := Origin(0, 0, 0)

  function Emptied(generation: int): Catalogue {
    Catalogue(generation, map[], false, 0, {}, NOWHERE)
  }

  const NOTHING_KEPT := Kept(Emptied(0), 0, {}, 0)

  function DefinitionOf(entry: Entry<Tool>): Definition {
    Definition(entry.payload.schema, entry.payload.refused, entry.staleAfter, entry.payload.origin)
  }

  // What a listing stated for each name; a later entry speaks over an earlier one.
  function StatedBy(entries: seq<Entry<Tool>>): map<string, Definition> {
    if entries == [] then map[]
    else
      var last := entries[|entries| - 1];
      StatedBy(entries[..|entries| - 1])[last.payload.name := DefinitionOf(last)]
  }

  function RefusedBy(entries: seq<Entry<Tool>>): set<string> {
    set entry <- entries | entry.payload.refused :: entry.payload.name
  }

  lemma {:induction false} StatedFromEntry(entries: seq<Entry<Tool>>, name: string)
    requires name in StatedBy(entries)
    ensures exists i :: 0 <= i < |entries| && entries[i].payload.name == name && DefinitionOf(entries[i]) == StatedBy(entries)[name]
  {
    var n := |entries| - 1;
    if entries[n].payload.name == name {
    } else {
      StatedFromEntry(entries[..n], name);
      var i :| 0 <= i < n && entries[..n][i].payload.name == name && DefinitionOf(entries[..n][i]) == StatedBy(entries[..n])[name];
      assert entries[i].payload.name == name;
    }
  }

  // ----- The guarded sections as transitions -----

  function Notified(kept: Kept): Kept {
    kept.(catalogue := Emptied(kept.catalogue.generation), changes := kept.changes + 1)
  }

  function Forgotten(catalogue: Catalogue, generation: int): Catalogue {
    if catalogue.generation == generation then catalogue else Emptied(generation)
  }

  function Recorded(kept: Kept, read: Listing<Tool>, whole: bool, setOut: nat, generation: int): Kept {
    var standing := Forgotten(kept.catalogue, generation);
    var stated := StatedBy(read.entries);
    var noted := kept.(catalogue := standing, excluded := RefusedBy(read.entries), excludedFor := read.authorization);
    if read.readOn != generation || setOut != kept.changes then noted
    else if whole then
      noted.(catalogue := Catalogue(generation, stated, true, read.staleAfter, stated.Keys,
                                    Origin(read.readOn, read.authorization, setOut)))
    else noted.(catalogue := standing.(tools := standing.tools + stated))
  }

  function LookedUp(catalogue: Catalogue, name: string, now: int): Known {
    if name in catalogue.tools then
      if now < catalogue.tools[name].staleAfter then Stated(catalogue.tools[name]) else Unknown
    else if catalogue.whole && now < catalogue.wholeUntil then
      Unlisted(catalogue.claim, catalogue.listed, catalogue.wholeUntil)
    else Unknown
  }

  // An entry that no later one of its name speaks over.
  predicate Speaks(entries: seq<Entry<Tool>>, i: nat, name: string) {
    i < |entries| && entries[i].payload.name == name && forall j :: i < j < |entries| ==> entries[j].payload.name != name
  }

  lemma {:induction false} LastSpeaks(entries: seq<Entry<Tool>>, i: nat, name: string)
    requires Speaks(entries, i, name)
    ensures name in StatedBy(entries) && StatedBy(entries)[name] == DefinitionOf(entries[i])
    decreases |entries|
  {
    var n := |entries| - 1;
    if i < n {
      assert entries[n].payload.name != name;
      LastSpeaks(entries[..n], i, name);
    }
  }

  // What a listing stated last of a tool is found again, as long as it is fresh, where the listing is
  // recorded for the connection it was read over and no change was announced since it set out; and what a
  // whole listing did not state is found to be absent.
  lemma RecordedIsFound(kept: Kept, read: Listing<Tool>, whole: bool, setOut: nat, generation: int, name: string, now: int)
    requires read.readOn == generation && setOut == kept.changes
    ensures var found := LookedUp(Forgotten(Recorded(kept, read, whole, setOut, generation).catalogue, generation), name, now);
            && (forall i: nat :: Speaks(read.entries, i, name) && now < read.entries[i].staleAfter ==>
                  found == Stated(DefinitionOf(read.entries[i])))
            && (whole && now < read.staleAfter && (forall i :: 0 <= i < |read.entries| ==> read.entries[i].payload.name != name) ==>
                  found.Unlisted? && found.until == read.staleAfter)
  {
    forall i: nat | Speaks(read.entries, i, name)
      ensures name in StatedBy(read.entries) && StatedBy(read.entries)[name] == DefinitionOf(read.entries[i])
    {
      LastSpeaks(read.entries, i, name);
    }
    if name in StatedBy(read.entries) {
      StatedFromEntry(read.entries, name);
    }
  }

  // The refused tools one authorization is shown: those of the last listing, where it was its own.
  function ShownTo(kept: Kept, authorization: int): set<string> {
    if kept.excludedFor == authorization then kept.excluded else {}
  }

  class Client {
    var catalogue: Catalogue
    var changes: nat
    var excluded: set<string>
    var excludedFor: int

    function State(): Kept
      reads this
    {
      Kept(catalogue, changes, excluded, excludedFor)
    }

    constructor ()
      ensures State() == NOTHING_KEPT
    {
      catalogue, changes, excluded, excludedFor := Emptied(0), 0, {}, 0;
    }

    method ServerNotified(toolsChanged: bool)
      modifies this
      ensures State() == if toolsChanged then Notified(old(State())) else old(State())
    {
      if !toolsChanged {
        return;
      }
      catalogue := Emptied(catalogue.generation);
      changes := changes + 1;
    }

    method ForgetOtherConnection(generation: int)
      modifies this`catalogue
      ensures catalogue == Forgotten(old(catalogue), generation)
    {
      if catalogue.generation == generation {
        return;
      }
      catalogue := Emptied(generation);
    }

    // generation is the count read before the mutex was taken.
    method RecordListing(read: Listing<Tool>, whole: bool, setOut: nat, generation: int)
      modifies this
      ensures State() == Recorded(old(State()), read, whole, setOut, generation)
    {
      ForgetOtherConnection(generation);
      excluded, excludedFor := RefusedBy(read.entries), read.authorization;
      if read.readOn != generation || setOut != changes {
        return;
      }
      var stated := StatedBy(read.entries);
      if whole {
        catalogue := Catalogue(generation, stated, true, read.staleAfter, stated.Keys,
                               Origin(read.readOn, read.authorization, setOut));
        return;
      }
      catalogue := catalogue.(tools := catalogue.tools + stated);
    }

    // now is the clock as it was read before the mutex was taken.
    method StatedFor(name: string, generation: int, now: int) returns (known: Known)
      modifies this`catalogue
      ensures catalogue == Forgotten(old(catalogue), generation)
      ensures known == LookedUp(catalogue, name, now)
    {
      ForgetOtherConnection(generation);
      if name in catalogue.tools {
        var stated := catalogue.tools[name];
        if now < stated.staleAfter {
          return Stated(stated);
        }
        return Unknown;
      }
      if catalogue.whole && now < catalogue.wholeUntil {
        return Unlisted(catalogue.claim, catalogue.listed, catalogue.wholeUntil);
      }
      return Unknown;
    }

    method ExcludedTools(authorizationNow: int) returns (names: set<string>)
      ensures names == ShownTo(State(), authorizationNow)
    {
      if excludedFor != authorizationNow {
        return {};
      }
      return excluded;
    }
  }
}
