// The client connection engine (client/protocol.go, client/client.go) as a transition
// system: any number of goroutines over one transport, interleaved at every mutex
// section, with the exchange gate, the credential, the connection and the catalogue
// they share. An action is one atomic section of one goroutine, or a move of the world
// around them.
module Engine {
  import opened Wrappers
  import opened Pages
  import opened Catalogue
  import opened Credential
  import opened Versions

  type Id = nat

  // ----- Goroutines -----

  datatype Held = Held(version: Version, generation: int, authorization: int)

  // What a call renders its mirrored headers from.
  datatype Source =
    | FromCatalogue(definition: Definition, lookedUp: int, changes: nat)
    | FromAbsence(claim: Origin, listed: set<string>, until: int, lookedUp: int, changes: nat)
    | FromReading(definition: Definition)
    | NotAdvertised(claim: Origin, listed: set<string>)
    | ListingRefused

  datatype Task =
    | ListTools(setOut: nat, whole: bool, pages: nat, read: Listing<Tool>, retried: bool)
    | CallTool(name: string, repeat: bool)
    | Advertise(stood: int)
    | Request
    | Pin
    | Show
    | ShowRefused

  // Where a goroutine stands. Until a connection stands it carries the authorization it
  // settled, or was given, for the handshake. again says that a call reads the catalogue
  // because it could not render its headers from the definition the catalogue kept.
  datatype Stage =
    | Waiting
    | Beginning
    | Weighing(authorization: int)
    | Forsaking(authorization: int, standing: Connection)
    | Opening(authorization: int)
    | Handshaking(authorization: int)
    | Counting
    | Standing(under: Held)
    | Looking(under: Held, now: int)
    | SettingOut(under: Held, again: bool)
    | Reading(under: Held, again: bool, setOut: nat, pages: nat, read: Listing<Tool>)
    | Noting(under: Held, again: bool, setOut: nat, read: Listing<Tool>)
    | Recording(under: Held, again: bool, setOut: nat, read: Listing<Tool>, generation: nat)
    | InHand(under: Held, source: Source)
    | Sent(under: Held, rendered: bool)
    | Unpinned(wasConnected: bool)
    | NotingListing
    | RecordingListing(generation: nat)
    | Showing(found: Option<Connection>)
    | Numbered(look: nat, number: nat)

  // An exchange is attempted again once for a session the server lost, and once for a version it
  // refused, in that order.
  datatype Attempt = First | NextSession | NextVersion

  datatype Goroutine = Goroutine(task: Task, stage: Stage, attempt: Attempt)

  predicate HoldsGate(stage: Stage) {
    !stage.Waiting? && !stage.NotingListing? && !stage.RecordingListing? && !stage.Showing? && !stage.Numbered?
  }

  // ----- The world -----

  // A tools/call frame that left: the connection it travelled over, the authorization
  // it presented, and what its headers were rendered from where it carried any.
  datatype Call = Call(name: string, generation: int, authorization: int, headers: Option<Source>)

  // A handshake result handed to a caller, and the token presented at that moment.
  datatype Display = Display(connection: Connection, token: string)

  // The authorization number read for the token presented at that moment, whether it was
  // that token's already or is the one it would be settled under, and how many numbers had
  // been given by then.
  datatype Look = Look(token: string, number: nat, standing: bool, given: nat)

  // The refused tools shown to whoever took that look, and the authorization of the
  // listing that refused them.
  datatype Exclusion = Exclusion(look: nat, names: set<string>, refusedFor: int)

  // settledUnder, settledOn, tokens, calls, displays, looks and exclusions are records of
  // what happened: nothing in the engine reads them. settledUnder and settledOn are the
  // authorization and the version a generation was settled under and on; tokens[n - 1] is
  // the token authorization n was settled for.
  datatype World = World(
    clock: int,
    token: string,
    credential: Credential,
    gate: Option<Id>,
    connected: bool,
    conn: Option<Connection>,
    generation: nat,
    kept: Kept,
    goroutines: map<Id, Goroutine>,
    settledUnder: map<int, int>,
    settledOn: map<int, Version>,
    tokens: seq<string>,
    calls: seq<Call>,
    displays: seq<Display>,
    looks: seq<Look>,
    exclusions: seq<Exclusion>)

  predicate Initial(w: World) {
    && w.credential == UNSETTLED && w.gate == None && !w.connected && w.conn == None && w.generation == 0
    && w.kept == NOTHING_KEPT && w.goroutines == map[]
    && w.settledUnder == map[] && w.settledOn == map[] && w.tokens == []
    && w.calls == [] && w.displays == [] && w.looks == [] && w.exclusions == []
  }

  // One tool of a page, as the server wrote it.
  datatype Advertised = Advertised(name: string, schema: string, refused: bool)

  // The moves of one goroutine, by what it is about.
  datatype Coming =
    | Acquire
    | GiveUp
    | Fail(lost: bool)
    | Finish

  datatype Connecting =
    | SettleCredential
    | Weigh
    | PutDown
    | Check
    | ForgetServer
    | Agree(version: Version, result: string, lifetime: nat)
    | Count
    | LoseSession
    | LoseVersion
    | AdvertiseAgain

  datatype ListMove =
    | RefusePage
    | AskPage(page: seq<Advertised>, lifetime: nat, last: bool)
    | NoteListing
    | RecordListing

  datatype Calling =
    | LookAtClock
    | LookUp
    | ReadAgain
    | SetOut
    | AskHeldPage(page: seq<Advertised>, lifetime: nat, last: bool)
    | RefuseListing
    | NoteHeld
    | RecordHeld
    | Send
    | SendBare
    | Mismatch

  datatype Other =
    | DropConnection
    | DropChannel
    | LookAtConnection
    | Compare
    | LookAtAuthorization
    | ShowExcluded

  datatype Move = Comes(coming: Coming) | Connects(connecting: Connecting) | Lists(list: ListMove) | Calls(calling: Calling) | Does(other: Other)

  datatype Action =
    | Tick(passed: nat)
    | Rotate(token: string)
    | Disconnect
    | Notify
    | Start(id: Id, task: Task)
    | By(id: Id, move: Move)

  // ----- Steps -----

  function At(w: World, id: Id, stage: Stage): World
    requires id in w.goroutines
  {
    w.(goroutines := w.goroutines[id := w.goroutines[id].(stage := stage)])
  }

  // The same exchange, attempted again.
  function Again(w: World, id: Id, stage: Stage, attempt: Attempt): World
    requires id in w.goroutines
  {
    w.(goroutines := w.goroutines[id := w.goroutines[id].(stage := stage, attempt := attempt)])
  }

  function Gone(w: World, id: Id): World {
    w.(goroutines := w.goroutines - {id})
  }

  // A goroutine that lets go of the gate and ends.
  function Released(w: World, id: Id): World {
    Gone(w, id).(gate := None)
  }

  function HeldNow(w: World): Held
    requires w.conn.Some?
  {
    Held(w.conn.value.version, w.generation, w.conn.value.authorization)
  }

  function Stamped(page: seq<Advertised>, origin: Origin, staleAfter: int): (r: seq<Entry<Tool>>)
    ensures |r| == |page|
    ensures forall i :: 0 <= i < |r| ==>
              r[i] == Entry(Tool(page[i].name, page[i].schema, page[i].refused, origin), staleAfter)
  {
    if page == [] then []
    else [Entry(Tool(page[0].name, page[0].schema, page[0].refused, origin), staleAfter)] + Stamped(page[1..], origin, staleAfter)
  }

  // One page added to a listing, dated by the generation and the authorization whoever
  // asked for it goes by. The marks on its entries are of the connection now standing and
  // the credential last settled, which its frame travelled over and presented.
  function PageRead(w: World, generation: int, authorization: int, read: Listing<Tool>, first: bool, setOut: nat,
                    page: seq<Advertised>, lifetime: nat): Listing<Tool>
  {
    var staleAfter := w.clock + lifetime;
    var dated := Dated(read, first, Answer(generation, authorization, staleAfter, Malformed));
    dated.(entries := dated.entries + Stamped(page, Origin(w.generation, w.credential.authorization, setOut), staleAfter))
  }

  // --- coming and going ---

  predicate MayCome(w: World, me: Goroutine, m: Coming) {
    match m
    case Acquire => me.stage.Waiting? && !me.task.Show? && !me.task.ShowRefused? && w.gate.None?
    case GiveUp => me.stage.Waiting? || me.stage.NotingListing?
    case Fail(_) =>
      || me.stage.Opening? || me.stage.Handshaking? || me.stage.Standing? || me.stage.Looking? || me.stage.Reading?
      || me.stage.Noting? || me.stage.InHand? || me.stage.Sent?
    case Finish => (me.stage.Standing? && (me.task.Request? || me.task.Advertise?)) || me.stage.Sent?
  }

  // A handshake that fails always takes the channel down with it; a request that does
  // may leave it standing.
  function DoCome(w: World, id: Id, m: Coming): World
    requires id in w.goroutines && MayCome(w, w.goroutines[id], m)
  {
    match m
    case Acquire => At(w, id, Beginning).(gate := Some(id))
    case GiveUp => Gone(w, id)
    case Fail(lost) => Released(w, id).(connected := w.connected && !lost && !w.goroutines[id].stage.Handshaking?)
    case Finish => Released(w, id)
  }

  // --- connecting ---

  predicate MayConnect(w: World, me: Goroutine, m: Connecting) {
    match m
    case SettleCredential => me.stage.Beginning? && !me.task.Pin?
    case Weigh => me.stage.Weighing?
    case PutDown => me.stage.Forsaking?
    case Check => me.stage.Opening? && (w.connected ==> w.conn.Some?)
    case ForgetServer => me.stage.Handshaking?
    case Agree(version, _, _) => me.stage.Handshaking? && Supported(version)
    case Count => me.stage.Counting? && w.conn.Some?
    case LoseSession => me.attempt.First? && (me.stage.Standing? || me.stage.Reading? || me.stage.Sent?)
    case LoseVersion => !me.attempt.NextVersion? && (me.stage.Standing? || me.stage.Sent?)
    case AdvertiseAgain =>
      me.stage.Standing? && me.task.Advertise? && me.task.stood == w.generation && w.conn.Some? && Outlived(w.conn.value, w.clock)
  }

  // The connection a handshake settles belongs to the authorization it was run for; its
  // frames present what the transport then does.
  function Agreed(w: World, authorization: int, version: Version, result: string, lifetime: nat): Connection {
    match HandshakeFor(version)
    case Discovery => Connection(version, Some(result), None, w.clock + lifetime, authorization, Presents(w.credential, w.token))
    case Initialize => Connection(version, None, Some(result), 0, authorization, Presents(w.credential, w.token))
  }

  function DoConnect(w: World, id: Id, m: Connecting): World
    requires id in w.goroutines && MayConnect(w, w.goroutines[id], m)
  {
    var stage := w.goroutines[id].stage;
    match m
    case SettleCredential =>
      var settled := Settled(w.credential, w.token);
      At(w, id, Weighing(settled.authorization)).(
        credential := settled,
        tokens := if settled.authorization > w.credential.authorization then w.tokens + [w.token] else w.tokens)
    case Weigh =>
      if w.conn.Some? && w.conn.value.authorization != stage.authorization
      then At(w, id, Forsaking(stage.authorization, w.conn.value)).(connected := false)
      else At(w, id, Opening(stage.authorization))
    case PutDown => At(w, id, Opening(stage.authorization)).(conn := Some(Remembered(stage.standing)))
    case Check => if w.connected then At(w, id, Standing(HeldNow(w))) else At(w, id, Handshaking(stage.authorization))
    case ForgetServer => w.(conn := None)
    case Agree(version, result, lifetime) =>
      At(w, id, Counting).(conn := Some(Agreed(w, stage.authorization, version, result, lifetime)))
    case Count =>
      var counted := w.(connected := true, generation := w.generation + 1,
                        settledUnder := w.settledUnder[w.generation + 1 := w.conn.value.authorization],
                        settledOn := w.settledOn[w.generation + 1 := w.conn.value.version]);
      At(counted, id, Standing(HeldNow(counted)))
    case LoseSession => Again(w, id, Beginning, NextSession).(connected := false)
    case LoseVersion => Again(w, id, Handshaking(stage.under.authorization), NextVersion).(connected := false, conn := None)
    case AdvertiseAgain => At(w, id, Handshaking(w.conn.value.authorization)).(connected := false)
  }

  // --- listing, each page in an exchange of its own ---

  predicate MayList(w: World, me: Goroutine, m: ListMove) {
    && me.task.ListTools?
    && match m
       case RefusePage => me.stage.Standing? && me.task.read.authorization != 0 && me.stage.under.authorization != me.task.read.authorization
       case AskPage(_, _, _) =>
         && me.stage.Standing?
         && (me.task.read.authorization == 0 || me.stage.under.authorization == me.task.read.authorization)
       case NoteListing => me.stage.NotingListing?
       case RecordListing => me.stage.RecordingListing?
  }

  function DoList(w: World, id: Id, m: ListMove): World
    requires id in w.goroutines && MayList(w, w.goroutines[id], m)
  {
    var task := w.goroutines[id].task;
    match m
    case RefusePage =>
      if task.retried then Released(w, id)
      else w.(gate := None,
              goroutines := w.goroutines[id := Goroutine(task.(pages := 0, read := Unread(), retried := true), Waiting, First)])
    case AskPage(page, lifetime, last) =>
      var under := w.goroutines[id].stage.under;
      var read := PageRead(w, w.generation, under.authorization, task.read, task.pages == 0, task.setOut, page, lifetime);
      w.(gate := None,
         goroutines := w.goroutines[id := Goroutine(task.(pages := task.pages + 1, read := read),
                                                    if last then NotingListing else Waiting, First)])
    case NoteListing => At(w, id, RecordingListing(w.generation))
    case RecordListing =>
      Gone(w, id).(kept := Recorded(w.kept, task.read, task.whole, task.setOut, w.goroutines[id].stage.generation))
  }

  // --- calling, with the gate held throughout ---
  //
  // Only a revision that carries headers has any rendered; over another the call goes
  // out bare.

  predicate Renderable(source: Source) {
    (source.FromCatalogue? || source.FromReading?) ==> !source.definition.refused
  }

  predicate MayCall(w: World, me: Goroutine, m: Calling) {
    && me.task.CallTool?
    && match m
       case LookAtClock => me.stage.Standing? && !me.task.repeat && HandshakeFor(me.stage.under.version).Discovery?
       case LookUp => me.stage.Looking?
       case ReadAgain =>
         || (me.stage.Standing? && me.task.repeat && HandshakeFor(me.stage.under.version).Discovery?)
         || (me.stage.InHand? && me.stage.source.FromCatalogue?)
       case SetOut => me.stage.SettingOut?
       case AskHeldPage(_, _, _) => me.stage.Reading?
       case RefuseListing => me.stage.Reading?
       case NoteHeld => me.stage.Noting?
       case RecordHeld => me.stage.Recording?
       case Send => me.stage.InHand? && Renderable(me.stage.source)
       case SendBare => me.stage.Standing? && HandshakeFor(me.stage.under.version).Initialize?
       case Mismatch => me.stage.Sent? && me.stage.rendered && !me.task.repeat
  }

  function DoCall(w: World, id: Id, m: Calling): World
    requires id in w.goroutines && MayCall(w, w.goroutines[id], m)
  {
    var Goroutine(task, stage, _) := w.goroutines[id];
    match m
    case LookAtClock => At(w, id, Looking(stage.under, w.clock))
    case LookUp =>
      var standing := Forgotten(w.kept.catalogue, stage.under.generation);
      var next := match LookedUp(standing, task.name, stage.now)
        case Unknown => SettingOut(stage.under, false)
        case Stated(definition) => InHand(stage.under, FromCatalogue(definition, stage.now, w.kept.changes))
        case Unlisted(claim, listed, until) => InHand(stage.under, FromAbsence(claim, listed, until, stage.now, w.kept.changes));
      At(w, id, next).(kept := w.kept.(catalogue := standing))
    case ReadAgain => At(w, id, SettingOut(stage.under, stage.InHand?))
    case SetOut => At(w, id, Reading(stage.under, stage.again, w.kept.changes, 0, Unread()))
    case AskHeldPage(page, lifetime, last) =>
      var read := PageRead(w, stage.under.generation, stage.under.authorization, stage.read, stage.pages == 0,
                           stage.setOut, page, lifetime);
      At(w, id, if last then Noting(stage.under, stage.again, stage.setOut, read)
                else Reading(stage.under, stage.again, stage.setOut, stage.pages + 1, read))
    case RefuseListing =>
      if stage.again || task.repeat then Released(w, id) else At(w, id, InHand(stage.under, ListingRefused))
    case NoteHeld => At(w, id, Recording(stage.under, stage.again, stage.setOut, stage.read, w.generation))
    case RecordHeld =>
      var noted := w.(kept := Recorded(w.kept, stage.read, true, stage.setOut, stage.generation));
      var stated := StatedBy(stage.read.entries);
      if task.name in stated then At(noted, id, InHand(stage.under, FromReading(stated[task.name])))
      else if stage.again || task.repeat then Released(noted, id)
      else At(noted, id, InHand(stage.under, NotAdvertised(Origin(stage.read.readOn, stage.read.authorization, stage.setOut), stated.Keys)))
    case Send =>
      At(w, id, Sent(stage.under, true)).(calls := w.calls + [Call(task.name, w.generation, w.credential.authorization, Some(stage.source))])
    case SendBare =>
      At(w, id, Sent(stage.under, false)).(calls := w.calls + [Call(task.name, w.generation, w.credential.authorization, None)])
    case Mismatch =>
      w.(gate := None, goroutines := w.goroutines[id := Goroutine(task.(repeat := true), Waiting, First)])
  }

  // --- pinning a version, and showing what a handshake or a listing brought back ---

  predicate MayDo(w: World, me: Goroutine, m: Other) {
    match m
    case DropConnection => me.stage.Beginning? && me.task.Pin?
    case DropChannel => me.stage.Unpinned?
    case LookAtConnection => me.stage.Waiting? && me.task.Show?
    case Compare => me.stage.Showing?
    case LookAtAuthorization => me.stage.Waiting? && me.task.ShowRefused?
    case ShowExcluded => me.stage.Numbered?
  }

  function DoOther(w: World, id: Id, m: Other): World
    requires id in w.goroutines && MayDo(w, w.goroutines[id], m)
  {
    var stage := w.goroutines[id].stage;
    match m
    case DropConnection => At(w, id, Unpinned(w.connected)).(conn := None)
    case DropChannel => Released(w, id).(connected := w.connected && !stage.wasConnected)
    case LookAtConnection => At(w, id, Showing(w.conn))
    case Compare =>
      if stage.found.Some? && stage.found.value.authorization == ContextOf(w.credential, w.token)
      then Gone(w, id).(displays := w.displays + [Display(stage.found.value, w.token)])
      else Gone(w, id)
    case LookAtAuthorization =>
      var number := ContextOf(w.credential, w.token);
      At(w, id, Numbered(|w.looks|, number)).(looks := w.looks + [Look(w.token, number, StandsFor(w.credential, w.token), w.credential.authorization)])
    case ShowExcluded =>
      if w.kept.excludedFor == stage.number
      then Gone(w, id).(exclusions := w.exclusions + [Exclusion(stage.look, ShownTo(w.kept, stage.number), w.kept.excludedFor)])
      else Gone(w, id)
  }

  // --- any action ---

  predicate Fresh(w: World, task: Task) {
    && (task.ListTools? ==> task.setOut == w.kept.changes && task.pages == 0 && task.read == Unread() && !task.retried)
    && (task.CallTool? ==> !task.repeat)
  }

  predicate MayMove(w: World, me: Goroutine, m: Move) {
    match m
    case Comes(coming) => MayCome(w, me, coming)
    case Connects(connecting) => MayConnect(w, me, connecting)
    case Lists(list) => MayList(w, me, list)
    case Calls(calling) => MayCall(w, me, calling)
    case Does(other) => MayDo(w, me, other)
  }

  function DoMove(w: World, id: Id, m: Move): World
    requires id in w.goroutines && MayMove(w, w.goroutines[id], m)
  {
    match m
    case Comes(coming) => DoCome(w, id, coming)
    case Connects(connecting) => DoConnect(w, id, connecting)
    case Lists(list) => DoList(w, id, list)
    case Calls(calling) => DoCall(w, id, calling)
    case Does(other) => DoOther(w, id, other)
  }

  predicate Enabled(w: World, a: Action) {
    match a
    case Tick(_) => true
    case Rotate(_) => true
    case Disconnect => true
    case Notify => w.gate.Some?
    case Start(id, task) => id !in w.goroutines && Fresh(w, task)
    case By(id, move) => id in w.goroutines && MayMove(w, w.goroutines[id], move)
  }

  // What one action makes of the world.
  function Next(w: World, a: Action): World
    requires Enabled(w, a)
  {
    match a
    case Tick(passed) => w.(clock := w.clock + passed)
    case Rotate(token) => w.(token := token)
    case Disconnect => w.(connected := false)
    case Notify => w.(kept := Notified(w.kept))
    case Start(id, task) => w.(goroutines := w.goroutines[id := Goroutine(task, Waiting, First)])
    case By(id, move) => DoMove(w, id, move)
  }

  // A run is any sequence of actions, each enabled where it happens.
  predicate Runs(w: World, actions: seq<Action>)
    decreases |actions|
  {
    actions == [] || (Enabled(w, actions[0]) && Runs(Next(w, actions[0]), actions[1..]))
  }

  function Ends(w: World, actions: seq<Action>): World
    requires Runs(w, actions)
    decreases |actions|
  {
    if actions == [] then w else Ends(Next(w, actions[0]), actions[1..])
  }
}
