// What every run of the connection engine keeps: a tool call is mirrored only from what
// the server stated over the very connection, and to the very caller, the call travels
// with.
module EngineSafety {
  import opened Wrappers
  import opened Pages
  import opened Catalogue
  import opened Credential
  import opened Versions
  import opened Engine

  // ----- The safety properties -----

  // A call's headers come from the connection and the authorization the call travels
  // with; what the catalogue kept was fresh when looked up, and was read by a listing
  // that set out after the last change the server had announced by then.
  ghost predicate Coherent(call: Call) {
    match call.headers
    case Some(FromCatalogue(d, lookedUp, changes)) =>
      d.origin == Origin(call.generation, call.authorization, changes) && lookedUp < d.staleAfter && !d.refused
    case Some(FromAbsence(claim, listed, until, lookedUp, changes)) =>
      claim == Origin(call.generation, call.authorization, changes) && lookedUp < until && call.name !in listed
    case Some(FromReading(d)) =>
      d.origin.generation == call.generation && d.origin.authorization == call.authorization && !d.refused
    case Some(NotAdvertised(claim, listed)) =>
      claim.generation == call.generation && claim.authorization == call.authorization && call.name !in listed
    case Some(ListingRefused) => true
    case None => true
  }

  // A call leaves without headers exactly where its generation was settled on a version
  // that is negotiated by initialize.
  ghost predicate Formed(call: Call, settledOn: map<int, Version>) {
    && call.generation in settledOn
    && (call.headers.None? <==> settledOn[call.generation] in INITIALIZE_SUPPORTED)
  }

  // A handshake result is shown only while the token it was settled under is the one
  // presented.
  ghost predicate Rightful(d: Display) {
    d.connection.askedAs == d.token
  }

  // Refused tools are shown to whoever looked under a token settled by then only where
  // they were refused for that very token.
  ghost predicate Own(w: World, x: Exclusion) {
    && x.look < |w.looks| && 1 <= x.refusedFor <= |w.tokens|
    && w.tokens[x.refusedFor - 1] == w.looks[x.look].token
  }

  ghost predicate OwnWhereStanding(w: World) {
    forall x <- w.exclusions :: x.look < |w.looks| && (w.looks[x.look].standing ==> Own(w, x))
  }

  // Whenever nobody holds the gate and the client is connected, a connection is
  // recorded, settled by exactly the handshake of its version.
  ghost predicate ConnectedIsSettled(w: World) {
    w.gate == None && w.connected ==>
      && w.conn.Some? && WellSettled(w.conn.value)
      && w.generation in w.settledUnder && w.settledUnder[w.generation] == w.conn.value.authorization
      && w.generation in w.settledOn && w.settledOn[w.generation] == w.conn.value.version
  }

  ghost predicate Safe(w: World) {
    && ConnectedIsSettled(w)
    && (forall c <- w.calls :: Coherent(c) && Formed(c, w.settledOn))
    && (forall d <- w.displays :: Rightful(d))
    && OwnWhereStanding(w)
  }

  // ----- The invariant -----

  ghost predicate GateOk(w: World) {
    && (forall id <- w.goroutines :: HoldsGate(w.goroutines[id].stage) <==> w.gate == Some(id))
    && (w.gate.Some? ==> w.gate.value in w.goroutines)
  }

  // Every authorization number was settled for one token, which the record holds.
  ghost predicate CredentialOk(w: World) {
    && |w.tokens| == w.credential.authorization
    && (w.credential.settled <==> w.credential.authorization > 0)
    && (w.credential.settled ==> w.tokens[|w.tokens| - 1] == w.credential.bearer)
  }

  // Every connection counted was settled under one authorization, and on one version.
  ghost predicate HistoryOk(w: World) {
    && (forall g :: g in w.settledUnder <==> 1 <= g <= w.generation)
    && w.settledOn.Keys == w.settledUnder.Keys
    && (forall g <- w.settledUnder :: 1 <= w.settledUnder[g] <= w.credential.authorization)
  }

  ghost predicate ConnOk(c: Connection, tokens: seq<string>) {
    && 1 <= c.authorization <= |tokens|
    && c.askedAs == tokens[c.authorization - 1]
    && (WellSettled(c) || (c.discover.None? && c.initialize.None?))
  }

  ghost predicate Stands(w: World) {
    && w.conn.Some? && WellSettled(w.conn.value)
    && w.generation >= 1 && w.generation in w.settledUnder
    && w.settledUnder[w.generation] == w.conn.value.authorization
    && w.generation in w.settledOn && w.settledOn[w.generation] == w.conn.value.version
  }

  // The held connection carries headers.
  predicate Carries(under: Held) {
    HandshakeFor(under.version).Discovery?
  }

  // What left over a connection has headers just where its version carries them.
  ghost predicate CallOk(c: Call, settledOn: map<int, Version>) {
    && Coherent(c) && c.generation in settledOn && Supported(settledOn[c.generation])
    && (c.headers.None? <==> HandshakeFor(settledOn[c.generation]).Initialize?)
  }

  ghost predicate CallsOk(calls: seq<Call>, settledOn: map<int, Version>) {
    forall c <- calls :: CallOk(c, settledOn)
  }

  ghost predicate Current(w: World, under: Held) {
    Stands(w) && under == HeldNow(w) && under.authorization == w.credential.authorization
  }

  ghost predicate KeptOk(kept: Kept, settledUnder: map<int, int>) {
    var c := kept.catalogue;
    && (c.tools != map[] || c.whole ==> c.generation in settledUnder)
    && (forall name <- c.tools :: c.tools[name].origin == Origin(c.generation, settledUnder[c.generation], kept.changes))
    && (c.whole ==> c.claim == Origin(c.generation, settledUnder[c.generation], kept.changes) && c.listed <= c.tools.Keys)
  }

  // What a listing carries is dated by the pages it was read from, all of them read for
  // one caller.
  ghost predicate ReadOk(read: Listing<Tool>, setOut: nat, pages: nat, settledUnder: map<int, int>) {
    && (pages == 0 ==> read == Unread<Tool>())
    && (pages > 0 ==>
          && read.authorization >= 1
          && (forall e <- read.entries :: e.payload.origin.setOut == setOut && e.payload.origin.authorization == read.authorization)
          && (read.readOn != CROSSED_GENERATION ==>
                && read.readOn in settledUnder && settledUnder[read.readOn] == read.authorization
                && forall e <- read.entries :: e.payload.origin.generation == read.readOn))
  }

  ghost predicate TaskOk(task: Task, settledUnder: map<int, int>) {
    task.ListTools? ==> ReadOk(task.read, task.setOut, task.pages, settledUnder)
  }

  ghost predicate SourceOk(source: Source, under: Held, name: string) {
    match source
    case FromCatalogue(d, lookedUp, changes) => d.origin == Origin(under.generation, under.authorization, changes) && lookedUp < d.staleAfter
    case FromAbsence(claim, listed, until, lookedUp, changes) =>
      claim == Origin(under.generation, under.authorization, changes) && lookedUp < until && name !in listed
    case FromReading(d) => d.origin.generation == under.generation && d.origin.authorization == under.authorization
    case NotAdvertised(claim, listed) => claim.generation == under.generation && claim.authorization == under.authorization && name !in listed
    case ListingRefused => true
  }

  // A reading made over the held connection never leaves it.
  ghost predicate HeldRead(read: Listing<Tool>, under: Held, setOut: nat, pages: nat, settledUnder: map<int, int>) {
    && ReadOk(read, setOut, pages, settledUnder)
    && (pages > 0 ==> read.readOn == under.generation && read.authorization == under.authorization)
  }

  // The authorization carried towards a handshake is the one the credential stands at.
  ghost predicate Settling(w: World, authorization: int) {
    authorization == w.credential.authorization >= 1
  }

  ghost predicate HolderOk(w: World, me: Goroutine) {
    match me.stage
    case Beginning => w.connected ==> Stands(w)
    case Weighing(authorization) => Settling(w, authorization) && (w.connected ==> Stands(w))
    case Forsaking(authorization, standing) => Settling(w, authorization) && !w.connected && ConnOk(standing, w.tokens)
    case Opening(authorization) => Settling(w, authorization) && (w.connected ==> Stands(w) && w.conn.value.authorization == authorization)
    case Handshaking(authorization) => Settling(w, authorization) && !w.connected
    case Counting =>
      !w.connected && w.conn.Some? && WellSettled(w.conn.value) && w.conn.value.authorization == w.credential.authorization
    case Standing(under) => Current(w, under)
    case Looking(under, _) => Current(w, under) && Carries(under)
    case SettingOut(under, _) => Current(w, under) && Carries(under)
    case Reading(under, _, setOut, pages, read) => Current(w, under) && Carries(under) && HeldRead(read, under, setOut, pages, w.settledUnder)
    case Noting(under, _, setOut, read) => Current(w, under) && Carries(under) && HeldRead(read, under, setOut, 1, w.settledUnder)
    case Recording(under, _, setOut, read, _) => Current(w, under) && Carries(under) && HeldRead(read, under, setOut, 1, w.settledUnder)
    case InHand(under, source) => Current(w, under) && Carries(under) && me.task.CallTool? && SourceOk(source, under, me.task.name)
    case Sent(under, _) => Current(w, under)
    case Unpinned(wasConnected) => w.connected ==> wasConnected
    case _ => true
  }

  // What a goroutine without the gate carries.
  ghost predicate AsideOk(w: World, me: Goroutine) {
    && TaskOk(me.task, w.settledUnder)
    && (me.stage.NotingListing? || me.stage.RecordingListing? ==> me.task.ListTools? && me.task.pages > 0)
    && (me.stage.Showing? && me.stage.found.Some? ==> ConnOk(me.stage.found.value, w.tokens))
    && (me.task.ListTools? ==> 0 <= me.task.read.authorization <= |w.tokens|)
    && (me.stage.Numbered? ==> me.stage.look < |w.looks| && w.looks[me.stage.look].number == me.stage.number)
  }

  ghost predicate RefusedOk(kept: Kept, tokens: seq<string>) {
    0 <= kept.excludedFor <= |tokens|
  }

  // A look's number is its token's own, where it stood for one, and else the next to be given.
  ghost predicate LookOk(k: Look, tokens: seq<string>) {
    && k.number >= 1 && k.given <= |tokens|
    && k.number == (if k.standing then k.given else k.given + 1)
    && (k.standing ==> tokens[k.number - 1] == k.token)
  }

  ghost predicate LooksOk(w: World) {
    && (forall k <- w.looks :: LookOk(k, w.tokens))
    && (forall x <- w.exclusions ::
          x.look < |w.looks| && x.refusedFor == w.looks[x.look].number && 1 <= x.refusedFor <= |w.tokens|)
  }

  // What the goroutines share.
  ghost predicate SharedOk(w: World) {
    && CredentialOk(w) && HistoryOk(w)
    && (w.conn.Some? ==> ConnOk(w.conn.value, w.tokens))
    && (w.gate == None && w.connected ==> Stands(w))
    && KeptOk(w.kept, w.settledUnder) && RefusedOk(w.kept, w.tokens) && LooksOk(w)
    && CallsOk(w.calls, w.settledOn)
    && (forall d <- w.displays :: Rightful(d))
  }

  // Where each of them stands.
  ghost predicate GoroutinesOk(w: World) {
    && GateOk(w)
    && (forall id <- w.goroutines :: AsideOk(w, w.goroutines[id]))
    && (w.gate.Some? && w.gate.value in w.goroutines ==> HolderOk(w, w.goroutines[w.gate.value]))
  }

  ghost predicate Inv(w: World) {
    SharedOk(w) && GoroutinesOk(w)
  }

  // Initialize negotiates all the versions supported but those discovery does.
  lemma ByInitialize(version: Version)
    requires Supported(version)
    ensures HandshakeFor(version).Initialize? <==> version in INITIALIZE_SUPPORTED
  {
  }

  lemma InvIsSafe(w: World)
    requires Inv(w)
    ensures Safe(w)
  {
    forall c | c in w.calls ensures Coherent(c) && Formed(c, w.settledOn) {
      ByInitialize(w.settledOn[c.generation]);
    }
    forall x | x in w.exclusions ensures x.look < |w.looks| && (w.looks[x.look].standing ==> Own(w, x)) {
      assert LookOk(w.looks[x.look], w.tokens);
    }
  }

  // ----- What growing records leave standing -----

  ghost predicate Grows(w: World, w': World) {
    && w.settledUnder.Keys <= w'.settledUnder.Keys
    && (forall g <- w.settledUnder :: w'.settledUnder[g] == w.settledUnder[g])
    && w.settledOn.Keys <= w'.settledOn.Keys
    && (forall g <- w.settledOn :: w'.settledOn[g] == w.settledOn[g])
    && w.tokens <= w'.tokens && w.looks <= w'.looks
  }

  lemma AsideStands(w: World, w': World, me: Goroutine)
    requires AsideOk(w, me) && Grows(w, w')
    ensures AsideOk(w', me)
  {
  }

  lemma KeptStands(kept: Kept, w: World, w': World)
    requires KeptOk(kept, w.settledUnder) && Grows(w, w')
    ensures KeptOk(kept, w'.settledUnder)
  {
  }

  predicate Elsewhere(w: World, w': World, id: Id) {
    w'.goroutines - {id} == w.goroutines - {id}
  }

  lemma OtherStands(w: World, w': World, id: Id, other: Id)
    requires Elsewhere(w, w', id) && other != id
    ensures other in w'.goroutines <==> other in w.goroutines
    ensures other in w'.goroutines ==> w'.goroutines[other] == w.goroutines[other]
  {
    assert other in w.goroutines <==> other in (w.goroutines - {id});
    assert other in w'.goroutines <==> other in (w'.goroutines - {id});
    if other in w.goroutines {
      assert (w'.goroutines - {id})[other] == (w.goroutines - {id})[other];
    }
  }

  // The others are as they were when one goroutine moves and the records only grow.
  lemma OthersStand(w: World, w': World, id: Id)
    requires GoroutinesOk(w) && Grows(w, w') && Elsewhere(w, w', id)
    requires id in w'.goroutines ==> AsideOk(w', w'.goroutines[id])
    ensures forall other <- w'.goroutines :: AsideOk(w', w'.goroutines[other])
  {
    forall other | other in w'.goroutines ensures AsideOk(w', w'.goroutines[other]) {
      if other != id {
        OtherStands(w, w', id, other);
        AsideStands(w, w', w.goroutines[other]);
      }
    }
  }

  // ----- The moves of one goroutine -----

  // A move of the goroutine that holds the gate, and goes on holding it, over nothing
  // but its own stage, the connection, the catalogue and the calls sent.
  lemma HolderKeeps(w: World, w': World, id: Id)
    requires Inv(w) && id in w.goroutines && w.gate == Some(id)
    requires id in w'.goroutines && w'.goroutines == w.goroutines[id := w'.goroutines[id]]
    requires w' == w.(goroutines := w'.goroutines, conn := w'.conn, connected := w'.connected, kept := w'.kept, calls := w'.calls)
    requires HoldsGate(w'.goroutines[id].stage) && w'.goroutines[id].task == w.goroutines[id].task
    requires w'.conn.Some? ==> ConnOk(w'.conn.value, w.tokens)
    requires KeptOk(w'.kept, w.settledUnder) && RefusedOk(w'.kept, w.tokens)
    requires CallsOk(w'.calls, w.settledOn)
    requires HolderOk(w', w'.goroutines[id])
    ensures Inv(w')
  {
    OthersStand(w, w', id);
  }

  // The holder lets go of the gate: what it leaves connected still stands.
  lemma ReleaseKeeps(w: World, w': World, id: Id)
    requires Inv(w) && id in w.goroutines && w.gate == Some(id) && Elsewhere(w, w', id)
    requires id in w'.goroutines ==> !HoldsGate(w'.goroutines[id].stage) && AsideOk(w, w'.goroutines[id])
    requires w' == w.(goroutines := w'.goroutines, gate := None, connected := w'.connected, kept := w'.kept)
    requires KeptOk(w'.kept, w.settledUnder) && RefusedOk(w'.kept, w.tokens)
    requires w'.connected ==> Stands(w)
    ensures Inv(w')
  {
    OthersStand(w, w', id);
    forall other | other in w'.goroutines ensures !HoldsGate(w'.goroutines[other].stage) {
      if other != id {
        OtherStands(w, w', id, other);
      }
    }
  }

  lemma AsideGate(w: World, w': World, id: Id)
    requires GoroutinesOk(w) && w.gate != Some(id) && Elsewhere(w, w', id) && w'.gate == w.gate
    requires id in w'.goroutines ==> !HoldsGate(w'.goroutines[id].stage)
    ensures GateOk(w')
    ensures w.gate.Some? ==> w'.goroutines[w.gate.value] == w.goroutines[w.gate.value]
  {
    forall other | other in w'.goroutines ensures HoldsGate(w'.goroutines[other].stage) <==> w'.gate == Some(other) {
      if other != id {
        OtherStands(w, w', id, other);
      }
    }
    if w.gate.Some? {
      OtherStands(w, w', id, w.gate.value);
    }
  }

  // A goroutine without the gate comes, moves or goes, and takes none.
  lemma AsideKeeps(w: World, w': World, id: Id)
    requires Inv(w) && w.gate != Some(id) && Elsewhere(w, w', id)
    requires id in w'.goroutines ==> !HoldsGate(w'.goroutines[id].stage) && AsideOk(w', w'.goroutines[id])
    requires w' == w.(goroutines := w'.goroutines, kept := w'.kept, displays := w'.displays,
                      looks := w'.looks, exclusions := w'.exclusions)
    requires w.looks <= w'.looks && LooksOk(w')
    requires KeptOk(w'.kept, w.settledUnder) && RefusedOk(w'.kept, w.tokens)
    requires forall d <- w'.displays :: Rightful(d)
    ensures Inv(w')
  {
    OthersStand(w, w', id);
    AsideGate(w, w', id);
  }

  // A goroutine takes the free gate, and finds what was left connected standing.
  lemma AcquireKeeps(w: World, id: Id)
    requires Inv(w) && id in w.goroutines && MayCome(w, w.goroutines[id], Acquire)
    ensures Inv(DoCome(w, id, Acquire))
  {
    OthersStand(w, DoCome(w, id, Acquire), id);
  }

  lemma ComesKeeps(w: World, id: Id, m: Coming)
    requires Inv(w) && id in w.goroutines && MayCome(w, w.goroutines[id], m)
    ensures Inv(DoCome(w, id, m))
  {
    var w' := DoCome(w, id, m);
    match m {
      case Acquire => AcquireKeeps(w, id);
      case GiveUp => AsideKeeps(w, w', id);
      case _ => ReleaseKeeps(w, w', id);
    }
  }

  // The credential is settled anew: a number already handed out keeps its token.
  lemma SettlingKeeps(w: World, id: Id)
    requires Inv(w) && id in w.goroutines && MayConnect(w, w.goroutines[id], SettleCredential)
    ensures Inv(DoConnect(w, id, SettleCredential))
  {
    var w' := DoConnect(w, id, SettleCredential);
    OthersStand(w, w', id);
    KeptStands(w.kept, w, w');
  }

  lemma CountingShares(w: World, id: Id)
    requires Inv(w) && id in w.goroutines && MayConnect(w, w.goroutines[id], Count)
    ensures SharedOk(DoConnect(w, id, Count)) && Grows(w, DoConnect(w, id, Count))
  {
    KeptStands(w.kept, w, DoConnect(w, id, Count));
  }

  // A connection is counted: a new generation, under the authorization it was settled with.
  lemma CountingKeeps(w: World, id: Id)
    requires Inv(w) && id in w.goroutines && MayConnect(w, w.goroutines[id], Count)
    ensures Inv(DoConnect(w, id, Count))
  {
    CountingShares(w, id);
    OthersStand(w, DoConnect(w, id, Count), id);
  }

  // The standing connection is weighed against the credential now settled, and given up
  // when it was settled under another.
  lemma WeighingKeeps(w: World, id: Id, m: Connecting)
    requires m.Weigh? || m.PutDown? || m.Check?
    requires Inv(w) && id in w.goroutines && MayConnect(w, w.goroutines[id], m)
    ensures Inv(DoConnect(w, id, m))
  {
    HolderKeeps(w, DoConnect(w, id, m), id);
  }

  // A handshake forgets a server, or records what it settled.
  lemma AgreeingKeeps(w: World, id: Id, m: Connecting)
    requires m.ForgetServer? || m.Agree?
    requires Inv(w) && id in w.goroutines && MayConnect(w, w.goroutines[id], m)
    ensures Inv(DoConnect(w, id, m))
  {
    HolderKeeps(w, DoConnect(w, id, m), id);
  }

  // A connection is lost, refused or outlived in the middle of an exchange.
  lemma LosingKeeps(w: World, id: Id, m: Connecting)
    requires m.LoseSession? || m.LoseVersion? || m.AdvertiseAgain?
    requires Inv(w) && id in w.goroutines && MayConnect(w, w.goroutines[id], m)
    ensures Inv(DoConnect(w, id, m))
  {
    HolderKeeps(w, DoConnect(w, id, m), id);
  }

  lemma ConnectsKeeps(w: World, id: Id, m: Connecting)
    requires Inv(w) && id in w.goroutines && MayConnect(w, w.goroutines[id], m)
    ensures Inv(DoConnect(w, id, m))
  {
    match m {
      case SettleCredential => SettlingKeeps(w, id);
      case Count => CountingKeeps(w, id);
      case Weigh => WeighingKeeps(w, id, m);
      case PutDown => WeighingKeeps(w, id, m);
      case Check => WeighingKeeps(w, id, m);
      case ForgetServer => AgreeingKeeps(w, id, m);
      case Agree(_, _, _) => AgreeingKeeps(w, id, m);
      case _ => LosingKeeps(w, id, m);
    }
  }

  // One more page leaves a listing dated by its pages, all of them the one caller's.
  lemma PageReadKeeps(w: World, under: Held, read: Listing<Tool>, setOut: nat, pages: nat, page: seq<Advertised>, lifetime: nat)
    requires HistoryOk(w) && Current(w, under)
    requires ReadOk(read, setOut, pages, w.settledUnder)
    requires read.authorization == 0 || read.authorization == w.conn.value.authorization
    ensures var longer := PageRead(w, under.generation, under.authorization, read, pages == 0, setOut, page, lifetime);
            && ReadOk(longer, setOut, pages + 1, w.settledUnder)
            && longer.authorization == w.credential.authorization
            && (pages == 0 || read.readOn == w.generation ==> longer.readOn == w.generation)
  {
  }

  // A recorded listing is one that was read whole over the connection the record is
  // for, and that no announced change has outdated since it set out.
  lemma RecordedKeeps(kept: Kept, settledUnder: map<int, int>, read: Listing<Tool>, whole: bool, setOut: nat, pages: nat, generation: int)
    requires KeptOk(kept, settledUnder) && pages > 0 && ReadOk(read, setOut, pages, settledUnder)
    requires generation >= 0
    ensures KeptOk(Recorded(kept, read, whole, setOut, generation), settledUnder)
  {
    var stated := StatedBy(read.entries);
    if read.readOn == generation && setOut == kept.changes {
      forall name | name in stated
        ensures stated[name].origin == Origin(generation, settledUnder[generation], setOut)
      {
        StatedFromEntry(read.entries, name);
      }
    }
  }

  lemma AskPageKeeps(w: World, id: Id, m: ListMove)
    requires m.AskPage? && Inv(w) && id in w.goroutines && MayList(w, w.goroutines[id], m)
    ensures Inv(DoList(w, id, m))
  {
    var Goroutine(task, stage, _) := w.goroutines[id];
    PageReadKeeps(w, stage.under, task.read, task.setOut, task.pages, m.page, m.lifetime);
    ReleaseKeeps(w, DoList(w, id, m), id);
  }

  lemma RefusePageKeeps(w: World, id: Id)
    requires Inv(w) && id in w.goroutines && MayList(w, w.goroutines[id], RefusePage)
    ensures Inv(DoList(w, id, RefusePage))
  {
    ReleaseKeeps(w, DoList(w, id, RefusePage), id);
  }

  lemma NoteListingKeeps(w: World, id: Id)
    requires Inv(w) && id in w.goroutines && MayList(w, w.goroutines[id], NoteListing)
    ensures Inv(DoList(w, id, NoteListing))
  {
    AsideKeeps(w, DoList(w, id, NoteListing), id);
  }

  lemma RecordListingKeeps(w: World, id: Id)
    requires Inv(w) && id in w.goroutines && MayList(w, w.goroutines[id], ListMove.RecordListing)
    ensures Inv(DoList(w, id, ListMove.RecordListing))
  {
    var Goroutine(task, stage, _) := w.goroutines[id];
    RecordedKeeps(w.kept, w.settledUnder, task.read, task.whole, task.setOut, task.pages, stage.generation);
    AsideKeeps(w, DoList(w, id, ListMove.RecordListing), id);
  }

  lemma ListsKeeps(w: World, id: Id, m: ListMove)
    requires Inv(w) && id in w.goroutines && MayList(w, w.goroutines[id], m)
    ensures Inv(DoList(w, id, m))
  {
    match m {
      case AskPage(_, _, _) => AskPageKeeps(w, id, m);
      case RefusePage => RefusePageKeeps(w, id);
      case NoteListing => NoteListingKeeps(w, id);
      case RecordListing => RecordListingKeeps(w, id);
    }
  }

  // A goroutine without the gate ends, and leaves nothing behind but records.
  lemma GoneKeeps(w: World, id: Id, displays: seq<Display>, exclusions: seq<Exclusion>)
    requires Inv(w) && id in w.goroutines && !HoldsGate(w.goroutines[id].stage)
    requires LooksOk(Gone(w, id).(displays := displays, exclusions := exclusions))
    requires forall d <- displays :: Rightful(d)
    ensures Inv(Gone(w, id).(displays := displays, exclusions := exclusions))
  {
    AsideKeeps(w, Gone(w, id).(displays := displays, exclusions := exclusions), id);
  }

  // A result is shown only while the credential it was settled under is presented.
  lemma ShownRightful(w: World, id: Id)
    requires Inv(w) && id in w.goroutines && MayDo(w, w.goroutines[id], Compare)
    ensures forall d <- DoOther(w, id, Compare).displays :: Rightful(d)
  {
    assert AsideOk(w, w.goroutines[id]);
  }

  lemma CompareKeeps(w: World, id: Id)
    requires Inv(w) && id in w.goroutines && MayDo(w, w.goroutines[id], Compare)
    ensures Inv(DoOther(w, id, Compare))
  {
    var w' := DoOther(w, id, Compare);
    ShownRightful(w, id);
    GoneKeeps(w, id, w'.displays, w.exclusions);
    assert w' == Gone(w, id).(displays := w'.displays, exclusions := w.exclusions);
  }

  lemma LookAtConnectionKeeps(w: World, id: Id)
    requires Inv(w) && id in w.goroutines && MayDo(w, w.goroutines[id], LookAtConnection)
    ensures Inv(DoOther(w, id, LookAtConnection))
  {
    AsideKeeps(w, DoOther(w, id, LookAtConnection), id);
  }

  // A look finds the token's own number, or one no token has yet.
  lemma LookKeeps(w: World, id: Id)
    requires Inv(w) && id in w.goroutines && MayDo(w, w.goroutines[id], LookAtAuthorization)
    ensures Inv(DoOther(w, id, LookAtAuthorization))
  {
    AsideKeeps(w, DoOther(w, id, LookAtAuthorization), id);
  }

  lemma ShownOk(w: World, id: Id)
    requires Inv(w) && id in w.goroutines && MayDo(w, w.goroutines[id], ShowExcluded)
    ensures LooksOk(DoOther(w, id, ShowExcluded))
  {
    assert AsideOk(w, w.goroutines[id]);
    assert LookOk(w.looks[w.goroutines[id].stage.look], w.tokens);
  }

  lemma ShowKeeps(w: World, id: Id)
    requires Inv(w) && id in w.goroutines && MayDo(w, w.goroutines[id], ShowExcluded)
    ensures Inv(DoOther(w, id, ShowExcluded))
  {
    var w' := DoOther(w, id, ShowExcluded);
    ShownOk(w, id);
    assert w' == Gone(w, id).(displays := w.displays, exclusions := w'.exclusions);
    GoneKeeps(w, id, w.displays, w'.exclusions);
  }

  lemma DropConnectionKeeps(w: World, id: Id)
    requires Inv(w) && id in w.goroutines && MayDo(w, w.goroutines[id], DropConnection)
    ensures Inv(DoOther(w, id, DropConnection))
  {
    HolderKeeps(w, DoOther(w, id, DropConnection), id);
  }

  lemma DropChannelKeeps(w: World, id: Id)
    requires Inv(w) && id in w.goroutines && MayDo(w, w.goroutines[id], DropChannel)
    ensures Inv(DoOther(w, id, DropChannel))
  {
    ReleaseKeeps(w, DoOther(w, id, DropChannel), id);
  }

  lemma DoesKeeps(w: World, id: Id, m: Other)
    requires Inv(w) && id in w.goroutines && MayDo(w, w.goroutines[id], m)
    ensures Inv(DoOther(w, id, m))
  {
    match m {
      case DropConnection => DropConnectionKeeps(w, id);
      case DropChannel => DropChannelKeeps(w, id);
      case LookAtConnection => LookAtConnectionKeeps(w, id);
      case Compare => CompareKeeps(w, id);
      case LookAtAuthorization => LookKeeps(w, id);
      case ShowExcluded => ShowKeeps(w, id);
    }
  }

  // What a lookup finds stands for the connection it was asked about.
  lemma LookedUpStands(w: World, name: string, under: Held, now: int)
    requires Inv(w) && Current(w, under)
    ensures var standing := Forgotten(w.kept.catalogue, under.generation);
            && KeptOk(w.kept.(catalogue := standing), w.settledUnder)
            && match LookedUp(standing, name, now)
               case Unknown => true
               case Stated(d) => SourceOk(FromCatalogue(d, now, w.kept.changes), under, name)
               case Unlisted(claim, listed, until) => SourceOk(FromAbsence(claim, listed, until, now, w.kept.changes), under, name)
  {
  }

  // What a reading over the held connection states for a tool is that connection's.
  lemma ReadingStands(w: World, read: Listing<Tool>, under: Held, setOut: nat, name: string)
    requires HeldRead(read, under, setOut, 1, w.settledUnder) && under.generation >= 0
    ensures name in StatedBy(read.entries) ==> SourceOk(FromReading(StatedBy(read.entries)[name]), under, name)
    ensures name !in StatedBy(read.entries) ==>
              SourceOk(NotAdvertised(Origin(read.readOn, read.authorization, setOut), StatedBy(read.entries).Keys), under, name)
  {
    if name in StatedBy(read.entries) {
      StatedFromEntry(read.entries, name);
    }
  }

  // The catalogue as a call's own reading leaves it.
  lemma NotedKeeps(w: World, id: Id)
    requires Inv(w) && id in w.goroutines && MayCall(w, w.goroutines[id], RecordHeld)
    ensures var Goroutine(task, stage, _) := w.goroutines[id];
            var kept := Recorded(w.kept, stage.read, true, stage.setOut, stage.generation);
            KeptOk(kept, w.settledUnder) && RefusedOk(kept, w.tokens)
  {
    var stage := w.goroutines[id].stage;
    RecordedKeeps(w.kept, w.settledUnder, stage.read, true, stage.setOut, 1, stage.generation);
  }

  lemma RecordHeldGoesOn(w: World, id: Id)
    requires Inv(w) && id in w.goroutines && MayCall(w, w.goroutines[id], RecordHeld)
    requires DoCall(w, id, RecordHeld).gate.Some?
    ensures Inv(DoCall(w, id, RecordHeld))
  {
    var Goroutine(task, stage, _) := w.goroutines[id];
    NotedKeeps(w, id);
    ReadingStands(w, stage.read, stage.under, stage.setOut, task.name);
    HolderKeeps(w, DoCall(w, id, RecordHeld), id);
  }

  lemma RecordHeldEnds(w: World, id: Id)
    requires Inv(w) && id in w.goroutines && MayCall(w, w.goroutines[id], RecordHeld)
    requires DoCall(w, id, RecordHeld).gate.None?
    ensures Inv(DoCall(w, id, RecordHeld))
  {
    NotedKeeps(w, id);
    ReleaseKeeps(w, DoCall(w, id, RecordHeld), id);
  }

  lemma RecordHeldKeeps(w: World, id: Id)
    requires Inv(w) && id in w.goroutines && MayCall(w, w.goroutines[id], RecordHeld)
    ensures Inv(DoCall(w, id, RecordHeld))
  {
    if DoCall(w, id, RecordHeld).gate.Some? {
      RecordHeldGoesOn(w, id);
    } else {
      RecordHeldEnds(w, id);
    }
  }

  lemma LookAtClockKeeps(w: World, id: Id)
    requires Inv(w) && id in w.goroutines && MayCall(w, w.goroutines[id], LookAtClock)
    ensures Inv(DoCall(w, id, LookAtClock))
  {
    HolderKeeps(w, DoCall(w, id, LookAtClock), id);
  }

  lemma LookUpKeeps(w: World, id: Id)
    requires Inv(w) && id in w.goroutines && MayCall(w, w.goroutines[id], LookUp)
    ensures Inv(DoCall(w, id, LookUp))
  {
    var Goroutine(task, stage, _) := w.goroutines[id];
    LookedUpStands(w, task.name, stage.under, stage.now);
    HolderKeeps(w, DoCall(w, id, LookUp), id);
  }

  lemma ReadAgainKeeps(w: World, id: Id)
    requires Inv(w) && id in w.goroutines && MayCall(w, w.goroutines[id], ReadAgain)
    ensures Inv(DoCall(w, id, ReadAgain))
  {
    HolderKeeps(w, DoCall(w, id, ReadAgain), id);
  }

  lemma SetOutKeeps(w: World, id: Id)
    requires Inv(w) && id in w.goroutines && MayCall(w, w.goroutines[id], SetOut)
    ensures Inv(DoCall(w, id, SetOut))
  {
    HolderKeeps(w, DoCall(w, id, SetOut), id);
  }

  lemma AskHeldPageKeeps(w: World, id: Id, m: Calling)
    requires m.AskHeldPage? && Inv(w) && id in w.goroutines && MayCall(w, w.goroutines[id], m)
    ensures Inv(DoCall(w, id, m))
  {
    var stage := w.goroutines[id].stage;
    PageReadKeeps(w, stage.under, stage.read, stage.setOut, stage.pages, m.page, m.lifetime);
    HolderKeeps(w, DoCall(w, id, m), id);
  }

  lemma NoteHeldKeeps(w: World, id: Id)
    requires Inv(w) && id in w.goroutines && MayCall(w, w.goroutines[id], NoteHeld)
    ensures Inv(DoCall(w, id, NoteHeld))
  {
    HolderKeeps(w, DoCall(w, id, NoteHeld), id);
  }

  lemma RefusedGoesOn(w: World, id: Id)
    requires Inv(w) && id in w.goroutines && MayCall(w, w.goroutines[id], RefuseListing)
    requires DoCall(w, id, RefuseListing).gate.Some?
    ensures Inv(DoCall(w, id, RefuseListing))
  {
    HolderKeeps(w, DoCall(w, id, RefuseListing), id);
  }

  lemma RefusedEnds(w: World, id: Id)
    requires Inv(w) && id in w.goroutines && MayCall(w, w.goroutines[id], RefuseListing)
    requires DoCall(w, id, RefuseListing).gate.None?
    ensures Inv(DoCall(w, id, RefuseListing))
  {
    ReleaseKeeps(w, DoCall(w, id, RefuseListing), id);
  }

  lemma RefusedKeeps(w: World, id: Id)
    requires Inv(w) && id in w.goroutines && MayCall(w, w.goroutines[id], RefuseListing)
    ensures Inv(DoCall(w, id, RefuseListing))
  {
    if DoCall(w, id, RefuseListing).gate.Some? {
      RefusedGoesOn(w, id);
    } else {
      RefusedEnds(w, id);
    }
  }

  // A frame leaves over the connection held.
  lemma LeftKeeps(w: World, id: Id, under: Held, rendered: bool, call: Call)
    requires Inv(w) && id in w.goroutines && w.gate == Some(id) && Current(w, under)
    requires CallOk(call, w.settledOn)
    ensures Inv(At(w, id, Sent(under, rendered)).(calls := w.calls + [call]))
  {
    HolderKeeps(w, At(w, id, Sent(under, rendered)).(calls := w.calls + [call]), id);
  }

  // It leaves with what its headers came from, which is the connection's own.
  lemma SendKeeps(w: World, id: Id)
    requires Inv(w) && id in w.goroutines && MayCall(w, w.goroutines[id], Send)
    ensures Inv(DoCall(w, id, Send))
  {
    var Goroutine(task, stage, _) := w.goroutines[id];
    assert HolderOk(w, w.goroutines[id]);
    LeftKeeps(w, id, stage.under, true, Call(task.name, w.generation, w.credential.authorization, Some(stage.source)));
  }

  lemma SendBareKeeps(w: World, id: Id)
    requires Inv(w) && id in w.goroutines && MayCall(w, w.goroutines[id], SendBare)
    ensures Inv(DoCall(w, id, SendBare))
  {
    var Goroutine(task, stage, _) := w.goroutines[id];
    LeftKeeps(w, id, stage.under, false, Call(task.name, w.generation, w.credential.authorization, None));
  }

  lemma MismatchKeeps(w: World, id: Id)
    requires Inv(w) && id in w.goroutines && MayCall(w, w.goroutines[id], Mismatch)
    ensures Inv(DoCall(w, id, Mismatch))
  {
    ReleaseKeeps(w, DoCall(w, id, Mismatch), id);
  }

  lemma CallsKeeps(w: World, id: Id, m: Calling)
    requires Inv(w) && id in w.goroutines && MayCall(w, w.goroutines[id], m)
    ensures Inv(DoCall(w, id, m))
  {
    match m {
      case LookAtClock => LookAtClockKeeps(w, id);
      case LookUp => LookUpKeeps(w, id);
      case ReadAgain => ReadAgainKeeps(w, id);
      case SetOut => SetOutKeeps(w, id);
      case AskHeldPage(_, _, _) => AskHeldPageKeeps(w, id, m);
      case RefuseListing => RefusedKeeps(w, id);
      case NoteHeld => NoteHeldKeeps(w, id);
      case RecordHeld => RecordHeldKeeps(w, id);
      case Send => SendKeeps(w, id);
      case SendBare => SendBareKeeps(w, id);
      case Mismatch => MismatchKeeps(w, id);
    }
  }

  // ----- Every step, and every run -----

  // Time passes, the token changes, or the channel is torn down without the gate.
  lemma AroundKeeps(w: World, w': World)
    requires Inv(w) && w' == w.(clock := w'.clock, token := w'.token, connected := w'.connected)
    requires w'.connected ==> w.connected
    ensures Inv(w')
  {
    forall id | id in w'.goroutines ensures AsideOk(w', w'.goroutines[id]) {
      assert AsideOk(w, w.goroutines[id]);
    }
  }

  lemma StartKeeps(w: World, id: Id, task: Task)
    requires Inv(w) && Enabled(w, Start(id, task))
    ensures Inv(Next(w, Start(id, task)))
  {
    AsideKeeps(w, Next(w, Start(id, task)), id);
  }

  // An announced change drops what the catalogue kept, and outdates what is being read.
  lemma NotifyKeeps(w: World)
    requires Inv(w) && Enabled(w, Notify)
    ensures Inv(Next(w, Notify))
  {
    var w' := Next(w, Notify);
    assert forall id <- w'.goroutines :: AsideOk(w', w'.goroutines[id]) <==> AsideOk(w, w.goroutines[id]);
  }

  lemma WorldKeeps(w: World, a: Action)
    requires Inv(w) && Enabled(w, a) && !a.By?
    ensures Inv(Next(w, a))
  {
    if a.Start? {
      StartKeeps(w, a.id, a.task);
    } else if a.Notify? {
      NotifyKeeps(w);
    } else {
      AroundKeeps(w, Next(w, a));
    }
  }

  lemma NextKeeps(w: World, a: Action)
    requires Inv(w) && Enabled(w, a)
    ensures Inv(Next(w, a))
  {
    match a {
      case By(id, Comes(m)) => ComesKeeps(w, id, m);
      case By(id, Connects(m)) => ConnectsKeeps(w, id, m);
      case By(id, Lists(m)) => ListsKeeps(w, id, m);
      case By(id, Calls(m)) => CallsKeeps(w, id, m);
      case By(id, Does(m)) => DoesKeeps(w, id, m);
      case _ => WorldKeeps(w, a);
    }
  }

  lemma {:induction false} RunsKeep(w: World, actions: seq<Action>)
    requires Inv(w) && Runs(w, actions)
    ensures Inv(Ends(w, actions))
    decreases |actions|
  {
    if actions == [] {
    } else {
      NextKeeps(w, actions[0]);
      RunsKeep(Next(w, actions[0]), actions[1..]);
    }
  }

  // In every run from the start, under every interleaving of goroutines, credential
  // changes, disconnections and announcements: every call frame sent was mirrored from
  // what was stated over its own connection to its own caller, every result shown was
  // shown to the token it was settled under, and a connected client at rest has a
  // connection settled by exactly the handshake of its version.
  lemma EveryRunIsSafe(w: World, actions: seq<Action>)
    requires Initial(w) && Runs(w, actions)
    ensures Safe(Ends(w, actions))
  {
    RunsKeep(w, actions);
    InvIsSafe(Ends(w, actions));
  }

  // ----- The count of connections -----

  function Settlements(actions: seq<Action>): nat {
    if actions == [] then 0
    else (if actions[0].By? && actions[0].move == Connects(Count) then 1 else 0) + Settlements(actions[1..])
  }

  lemma ConnectingGrows(w: World, id: Id, m: Connecting)
    requires Inv(w) && id in w.goroutines && MayConnect(w, w.goroutines[id], m)
    ensures Grows(w, DoConnect(w, id, m))
    ensures DoConnect(w, id, m).generation == w.generation + if m.Count? then 1 else 0
  {
  }

  lemma CallingGrows(w: World, id: Id, m: Calling)
    requires id in w.goroutines && MayCall(w, w.goroutines[id], m)
    ensures Grows(w, DoCall(w, id, m))
    ensures DoCall(w, id, m).generation == w.generation
  {
  }

  lemma ListingGrows(w: World, id: Id, m: ListMove)
    requires id in w.goroutines && MayList(w, w.goroutines[id], m)
    ensures Grows(w, DoList(w, id, m))
    ensures DoList(w, id, m).generation == w.generation
  {
  }

  lemma ComingGrows(w: World, id: Id, m: Coming)
    requires id in w.goroutines && MayCome(w, w.goroutines[id], m)
    ensures Grows(w, DoCome(w, id, m))
    ensures DoCome(w, id, m).generation == w.generation
  {
  }

  lemma DoingGrows(w: World, id: Id, m: Other)
    requires id in w.goroutines && MayDo(w, w.goroutines[id], m)
    ensures Grows(w, DoOther(w, id, m))
    ensures DoOther(w, id, m).generation == w.generation
  {
  }

  lemma NextGrows(w: World, a: Action)
    requires Inv(w) && Enabled(w, a)
    ensures Grows(w, Next(w, a))
    ensures Next(w, a).generation == w.generation + if a.By? && a.move == Connects(Count) then 1 else 0
  {
    match a {
      case By(id, Connects(m)) => ConnectingGrows(w, id, m);
      case By(id, Calls(m)) => CallingGrows(w, id, m);
      case By(id, Lists(m)) => ListingGrows(w, id, m);
      case By(id, Comes(m)) => ComingGrows(w, id, m);
      case By(id, Does(m)) => DoingGrows(w, id, m);
      case _ =>
    }
  }

  // The generation counts the connections settled, one for each and never less: what
  // was dated by one is never taken for another's. What it was settled under, and what
  // token an authorization number stands for, is never rewritten.
  lemma {:induction false} GenerationsCountSettlements(w: World, actions: seq<Action>)
    requires Inv(w) && Runs(w, actions)
    ensures Ends(w, actions).generation == w.generation + Settlements(actions)
    ensures Grows(w, Ends(w, actions))
    decreases |actions|
  {
    if actions == [] {
    } else {
      NextKeeps(w, actions[0]);
      NextGrows(w, actions[0]);
      GenerationsCountSettlements(Next(w, actions[0]), actions[1..]);
    }
  }
}
