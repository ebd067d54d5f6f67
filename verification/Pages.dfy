// Paginated listings: the loop that follows a server's cursors (client/methods.go).
module Pages {
  import opened Wrappers
  import opened Base64

  // The most pages one listing is followed for.
  const MAX_LIST_PAGES: nat := 1000

  // The connection of a listing whose pages were read over more than one.
  const CROSSED_GENERATION := -1

  datatype Entry<+T> = Entry(payload: T, staleAfter: int)

  datatype Listing<+T> = Listing(entries: seq<Entry<T>>, readOn: int, staleAfter: int, authorization: int)

  // A cursor is kept as the bytes it was written with.
  datatype NextCursor = Ended | NotAString | Cursor(raw: seq<byte>)

  // A decoded page. An entry that is not an object is None.
  datatype Body<+T> = Malformed | Body(page: seq<Option<T>>, next: NextCursor)

  // What one exchange brought back: the connection and the authorization it
  // travelled under, and the moment its page stops being fresh.
  datatype Answer<+T> = Answer(generation: int, authorization: int, staleAfter: int, body: Body<T>)

  datatype AskError = AuthorizationChanged | ExchangeFailed

  // What a page was asked for with: the cursor, and the authorization insisted on.
  datatype Request = Request(cursor: Option<seq<byte>>, authorization: int)

  datatype Fault =
    | AskFailed(cause: AskError)
    | RepeatedCursor
    | Unbounded(pages: nat)
    | InvalidResponse
    | InvalidPayload

  // An arbitrary server: its answer may depend on everything asked before, which
  // the number of the turn stands for.
  type Server<!T> = (nat, Request) -> Result<Answer<T>, AskError>

  function Unread<T>(): Listing<T> {
    Listing([], CROSSED_GENERATION, 0, 0)
  }

  // Dates a listing by one more page: the first page settles the connection, the
  // staleness and the authorization; a later one can only weaken the first two.
  function Dated<T>(read: Listing<T>, first: bool, reply: Answer<T>): Listing<T> {
    if first then
      read.(readOn := reply.generation, staleAfter := reply.staleAfter, authorization := reply.authorization)
    else
      read.(readOn := if reply.generation != read.readOn then CROSSED_GENERATION else read.readOn,
            staleAfter := if reply.staleAfter < read.staleAfter then reply.staleAfter else read.staleAfter)
  }

  // ----- What a finished reading is held to -----

  // One page request and what came of it.
  datatype Turn<+T> = Turn(request: Request, reply: Result<Answer<T>, AskError>)

  ghost predicate AnsweredBy<T>(turns: seq<Turn<T>>, server: Server<T>) {
    forall i :: 0 <= i < |turns| ==> turns[i].reply == server(i, turns[i].request)
  }

  function Objects<T>(page: seq<Option<T>>, staleAfter: int): (r: seq<Entry<T>>)
    ensures |r| <= |page|
    ensures forall k :: 0 <= k < |r| ==> page[k].Some? && r[k] == Entry(page[k].value, staleAfter)
    ensures |r| < |page| ==> page[|r|].None?
  {
    if page == [] || page[0].None? then []
    else [Entry(page[0].value, staleAfter)] + Objects(page[1..], staleAfter)
  }

  predicate AllObjects<T>(page: seq<Option<T>>) {
    forall k :: 0 <= k < |page| ==> page[k].Some?
  }

  predicate Readable<T>(turn: Turn<T>) {
    turn.reply.Success? && turn.reply.value.body.Body?
  }

  predicate Continues<T>(turn: Turn<T>) {
    Readable(turn) && AllObjects(turn.reply.value.body.page) && turn.reply.value.body.next.Cursor?
  }

  // Every page after the first was asked for with the cursor of the one before it,
  // and under the authorization the first one travelled in.
  ghost predicate Linked<T>(turns: seq<Turn<T>>, i: nat)
    requires 0 < i < |turns|
  {
    && Continues(turns[i - 1])
    && Continues(turns[0])
    && turns[i].request == Request(Some(turns[i - 1].reply.value.body.next.raw), turns[0].reply.value.authorization)
  }

  ghost predicate Chained<T>(turns: seq<Turn<T>>) {
    && (|turns| > 0 ==> turns[0].request == Request(None, 0))
    && forall i: nat {:trigger Linked(turns, i)} :: 0 < i < |turns| ==> Linked(turns, i)
  }

  ghost predicate DistinctCursors<T>(turns: seq<Turn<T>>) {
    forall i, j :: 0 <= i < j < |turns| ==> turns[i].request.cursor != turns[j].request.cursor
  }

  ghost predicate AllReadable<T>(turns: seq<Turn<T>>) {
    forall i :: 0 <= i < |turns| ==> Readable(turns[i])
  }

  // The pages concatenated in order.
  ghost function Gathered<T>(turns: seq<Turn<T>>): seq<Entry<T>>
    requires AllReadable(turns)
  {
    if turns == [] then []
    else
      var answer := turns[|turns| - 1].reply.value;
      Gathered(turns[..|turns| - 1]) + Objects(answer.body.page, answer.staleAfter)
  }

  function Cut<T>(all: seq<T>, lim: nat, hasLimit: bool): seq<T> {
    if hasLimit && lim < |all| then all[..lim] else all
  }

  ghost predicate OneConnection<T>(turns: seq<Turn<T>>)
    requires AllReadable(turns)
  {
    forall i :: 0 <= i < |turns| ==> turns[i].reply.value.generation == turns[0].reply.value.generation
  }

  // What a listing says of its pages: the one connection all of them travelled
  // over, the moment the first to go stale does, the authorization of the first.
  ghost predicate Describes<T>(turns: seq<Turn<T>>, read: Listing<T>)
    requires AllReadable(turns) && |turns| > 0
  {
    && read.readOn == (if OneConnection(turns) then turns[0].reply.value.generation else CROSSED_GENERATION)
    && (forall i :: 0 <= i < |turns| ==> read.staleAfter <= turns[i].reply.value.staleAfter)
    && (exists i :: 0 <= i < |turns| && read.staleAfter == turns[i].reply.value.staleAfter)
    && read.authorization == turns[0].reply.value.authorization
  }

  lemma DatedDescribes<T>(turns: seq<Turn<T>>, turn: Turn<T>, read: Listing<T>)
    requires AllReadable(turns) && Readable(turn)
    requires |turns| > 0 ==> Describes(turns, read)
    ensures AllReadable(turns + [turn])
    ensures Describes(turns + [turn], Dated(read, |turns| == 0, turn.reply.value))
  {
    var all := turns + [turn];
    var dated := Dated(read, |turns| == 0, turn.reply.value);
    assert all[|turns|] == turn;
    if |turns| > 0 {
      assert all[0] == turns[0];
      var least :| 0 <= least < |turns| && read.staleAfter == turns[least].reply.value.staleAfter;
      assert all[least] == turns[least];
      assert dated.staleAfter == all[least].reply.value.staleAfter || dated.staleAfter == all[|turns|].reply.value.staleAfter;
      if !OneConnection(turns) {
        var odd :| 0 <= odd < |turns| && turns[odd].reply.value.generation != turns[0].reply.value.generation;
        assert all[odd] == turns[odd];
      }
    } else {
      assert dated.staleAfter == all[0].reply.value.staleAfter;
    }
  }

  lemma GatheredExtends<T>(turns: seq<Turn<T>>, turn: Turn<T>)
    requires AllReadable(turns) && Readable(turn)
    ensures AllReadable(turns + [turn])
    ensures Gathered(turns + [turn]) == Gathered(turns) + Objects(turn.reply.value.body.page, turn.reply.value.staleAfter)
  {
    assert (turns + [turn])[..|turns|] == turns;
  }

  // The cursors sent so far, which is what the loop remembers.
  ghost predicate Remembers<T>(seen: set<seq<byte>>, turns: seq<Turn<T>>) {
    && (forall i :: 0 <= i < |turns| && turns[i].request.cursor.Some? ==> turns[i].request.cursor.value in seen)
    && (forall c :: c in seen ==> exists i :: 0 <= i < |turns| && turns[i].request.cursor == Some(c))
  }

  ghost predicate SentBefore<T>(turns: seq<Turn<T>>, cursor: seq<byte>) {
    exists i :: 0 <= i < |turns| && turns[i].request.cursor == Some(cursor)
  }

  // Asking for one more page keeps the chain and its cursors distinct.
  lemma AskedNext<T>(turns: seq<Turn<T>>, cursor: Option<seq<byte>>, authorization: int, reply: Result<Answer<T>, AskError>, seen: set<seq<byte>>)
    requires Chained(turns) && DistinctCursors(turns) && Remembers(seen, turns)
    requires turns == [] ==> cursor.None? && authorization == 0
    requires turns != [] ==>
               && Continues(turns[|turns| - 1])
               && cursor == Some(turns[|turns| - 1].reply.value.body.next.raw)
               && Continues(turns[0]) && authorization == turns[0].reply.value.authorization
    requires cursor.Some? ==> !SentBefore(turns, cursor.value)
    ensures Chained(turns + [Turn(Request(cursor, authorization), reply)])
    ensures DistinctCursors(turns + [Turn(Request(cursor, authorization), reply)])
    ensures Remembers(if cursor.Some? then seen + {cursor.value} else seen, turns + [Turn(Request(cursor, authorization), reply)])
  {
    var turn := Turn(Request(cursor, authorization), reply);
    var all := turns + [turn];
    assert all[|turns|] == turn;
    assert forall i :: 0 <= i < |turns| ==> all[i] == turns[i];
    forall i: nat | 0 < i < |all| ensures Linked(all, i) {
      if i < |turns| {
        assert Linked(turns, i);
      }
    }
    if cursor.Some? {
      forall c | c in seen + {cursor.value} ensures exists i :: 0 <= i < |all| && all[i].request.cursor == Some(c) {
        if c in seen {
          var i :| 0 <= i < |turns| && turns[i].request.cursor == Some(c);
          assert all[i].request.cursor == Some(c);
        } else {
          assert all[|turns|].request.cursor == Some(c);
        }
      }
    }
  }

  ghost predicate Explains<T>(turns: seq<Turn<T>>, fault: Fault)
    requires |turns| > 0
  {
    var last := turns[|turns| - 1];
    match fault
    case AskFailed(cause) => last.reply == Failure(cause)
    case RepeatedCursor => Continues(last) && SentBefore(turns, last.reply.value.body.next.raw)
    case Unbounded(pages) => pages == |turns| == MAX_LIST_PAGES && Continues(last)
    case InvalidResponse => last.reply.Success? && (last.reply.value.body.Malformed? || last.reply.value.body.next.NotAString?)
    case InvalidPayload => Readable(last) && !AllObjects(last.reply.value.body.page)
  }

  ghost predicate Completes<T>(turns: seq<Turn<T>>, read: Listing<T>, lim: nat, hasLimit: bool)
    requires |turns| > 0
  {
    && AllReadable(turns)
    && Describes(turns, read)
    && read.entries == Cut(Gathered(turns), lim, hasLimit)
    && var last := turns[|turns| - 1].reply.value.body;
    && ((AllObjects(last.page) && last.next.Ended?) || (hasLimit && lim < |Gathered(turns)|))
  }

  // What appending one page to a listing came to.
  datatype Appended = Whole | Full | Broken

  // Appends the entries of one page, up to the limit: Full when an entry was left
  // over, Broken when one is not an object.
  method AppendPage<T>(gathered: seq<Entry<T>>, page: seq<Option<T>>, staleAfter: int, lim: nat, hasLimit: bool)
    returns (entries: seq<Entry<T>>, came: Appended)
    requires hasLimit ==> |gathered| <= lim
    ensures hasLimit ==> |entries| <= lim
    ensures came.Broken? <==> exists k :: 0 <= k < |page| && page[k].None? && (hasLimit ==> |gathered| + k <= lim)
    ensures came.Full? ==> hasLimit && lim < |gathered + Objects(page, staleAfter)|
    ensures came.Whole? ==> AllObjects(page) && entries == gathered + Objects(page, staleAfter)
    ensures !came.Broken? ==> entries == Cut(gathered + Objects(page, staleAfter), lim, hasLimit)
  {
    ghost var carried := Objects(page, staleAfter);
    entries := gathered;
    var index := 0;
    while index < |page|
      invariant 0 <= index <= |carried|
      invariant entries == gathered + carried[..index]
      invariant hasLimit ==> |entries| <= lim
    {
      if page[index].None? {
        return entries, Broken;
      }
      if hasLimit && |entries| >= lim {
        assert index < |carried|;
        assert (gathered + carried)[..lim] == entries;
        return entries, Full;
      }
      assert index < |carried|;
      entries := entries + [Entry(page[index].value, staleAfter)];
      index := index + 1;
    }
    assert carried[..index] == carried;
    came := Whole;
  }

  // Where one page leaves a listing.
  datatype Progress<+T> = More(read: Listing<T>, cursor: seq<byte>) | Done(read: Listing<T>) | Stopped(fault: Fault)

  // Reads the page the last turn brought back into the listing. The turns before it
  // are there for the contract alone.
  method ReadPage<T>(ghost before: seq<Turn<T>>, read: Listing<T>, first: bool, turn: Turn<T>, lim: nat, hasLimit: bool)
    returns (p: Progress<T>)
    requires AllReadable(before) && first == (|before| == 0)
    requires |before| > 0 ==> Describes(before, read)
    requires read.entries == Gathered(before) && (hasLimit ==> |read.entries| <= lim)
    ensures p.Stopped? ==> (p.fault.AskFailed? || p.fault.InvalidResponse? || p.fault.InvalidPayload?) && Explains([turn], p.fault)
    ensures p.Done? ==> Completes(before + [turn], p.read, lim, hasLimit)
    ensures p.More? ==>
              && Continues(turn) && p.cursor == turn.reply.value.body.next.raw
              && AllReadable(before + [turn]) && Describes(before + [turn], p.read)
              && p.read.entries == Gathered(before + [turn]) && (hasLimit ==> |p.read.entries| <= lim)
  {
    if turn.reply.Failure? {
      return Stopped(AskFailed(turn.reply.error));
    }
    var reply := turn.reply.value;
    var dated := Dated(read, first, reply);
    if reply.body.Malformed? {
      return Stopped(InvalidResponse);
    }
    DatedDescribes(before, turn, read);
    GatheredExtends(before, turn);
    var entries, came := AppendPage(dated.entries, reply.body.page, reply.staleAfter, lim, hasLimit);
    if came.Broken? {
      return Stopped(InvalidPayload);
    }
    dated := dated.(entries := entries);
    if came.Full? {
      return Done(dated);
    }
    match reply.body.next
    case NotAString => return Stopped(InvalidResponse);
    case Ended => return Done(dated);
    case Cursor(raw) => return More(dated, raw);
  }

  lemma AnsweredNext<T>(turns: seq<Turn<T>>, turn: Turn<T>, server: Server<T>)
    requires AnsweredBy(turns, server) && turn.reply == server(|turns|, turn.request)
    ensures AnsweredBy(turns + [turn], server)
  {
    var all := turns + [turn];
    forall i | 0 <= i < |all| ensures all[i].reply == server(i, all[i].request) {
      if i < |turns| {
        assert all[i] == turns[i];
      }
    }
  }

  // Follows a listing from its first page to its last, or to the limit. turns is
  // every page request made, in order, with what came of it.
  method ReadPages<T>(server: Server<T>, lim: nat, hasLimit: bool)
    returns (r: Result<Listing<T>, Fault>, turns: seq<Turn<T>>)
    ensures 0 < |turns| <= MAX_LIST_PAGES
    ensures AnsweredBy(turns, server) && Chained(turns) && DistinctCursors(turns)
    ensures r.Success? ==> Completes(turns, r.value, lim, hasLimit)
    ensures r.Failure? ==> Explains(turns, r.error)
  {
    var read: Listing<T> := Unread();
    var cursor: Option<seq<byte>> := None;
    var seen: set<seq<byte>> := {};
    turns := [];

    while true
      invariant |turns| <= MAX_LIST_PAGES
      invariant AnsweredBy(turns, server) && Chained(turns) && DistinctCursors(turns) && AllReadable(turns)
      invariant Remembers(seen, turns)
      invariant turns == [] ==> cursor == None && read == Unread()
      invariant turns != [] ==>
                  && Describes(turns, read)
                  && Continues(turns[|turns| - 1]) && Continues(turns[0])
                  && cursor == Some(turns[|turns| - 1].reply.value.body.next.raw)
      invariant read.entries == Gathered(turns) && (hasLimit ==> |read.entries| <= lim)
      decreases MAX_LIST_PAGES - |turns|
    {
      ghost var sent := seen;
      if cursor.Some? {
        if cursor.value in seen {
          return Failure(RepeatedCursor), turns;
        }
        seen := seen + {cursor.value};
      }
      if |turns| == MAX_LIST_PAGES {
        return Failure(Unbounded(|turns|)), turns;
      }

      var request := Request(cursor, read.authorization);
      var turn := Turn(request, server(|turns|, request));
      AskedNext(turns, cursor, read.authorization, turn.reply, sent);
      var progress := ReadPage(turns, read, turns == [], turn, lim, hasLimit);
      AnsweredNext(turns, turn, server);
      turns := turns + [turn];
      match progress
      case Stopped(fault) => return Failure(fault), turns;
      case Done(whole) => return Success(whole), turns;
      case More(longer, next) => read, cursor := longer, Some(next);
    }
  }

  // ----- A listing read for one caller -----

  // A server reached through exchanges that refuse a page, before it is sent, when
  // the credential now presented is not the one the page insists on.
  ghost predicate Insists<T(!new)>(server: Server<T>) {
    forall n: nat, request: Request ::
      request.authorization != 0 && server(n, request).Success? ==> server(n, request).value.authorization == request.authorization
  }

  // The pages of one reading are the answers to one caller.
  lemma OneCaller<T(!new)>(turns: seq<Turn<T>>, server: Server<T>, read: Listing<T>, lim: nat, hasLimit: bool)
    requires Insists(server) && AnsweredBy(turns, server) && Chained(turns)
    requires |turns| > 0 && Completes(turns, read, lim, hasLimit)
    requires read.authorization != 0
    ensures forall i :: 0 <= i < |turns| ==> turns[i].reply.value.authorization == read.authorization
  {
    forall i | 0 <= i < |turns| ensures turns[i].reply.value.authorization == read.authorization {
      assert turns[i].reply == server(i, turns[i].request);
      if i > 0 {
        assert Linked(turns, i);
        var n: nat := i;
        assert server(n, turns[i].request).Success?;
      }
    }
  }

  datatype ListFault = NegativeLimit | KeptChanging | ReadFailed(fault: Fault)

  // Lists with an optional limit. A reading refused because the credential changed in
  // the middle of it is dropped whole and made once more, from the start.
  method ListOn<T>(first: Server<T>, again: Server<T>, limit: Option<int>)
    returns (r: Result<Listing<T>, ListFault>, turns: seq<Turn<T>>)
    ensures r == Failure(NegativeLimit) <==> limit.Some? && limit.value < 0
    ensures limit == Some(0) ==> r == Success(Unread<T>()) && turns == []
    ensures limit != Some(0) && r.Success? ==>
              && |turns| > 0 && (AnsweredBy(turns, first) || AnsweredBy(turns, again))
              && Chained(turns) && DistinctCursors(turns)
              && Completes(turns, r.value, if limit.Some? then limit.value else 0, limit.Some?)
    ensures r == Failure(KeptChanging) ==>
              |turns| > 0 && AnsweredBy(turns, again) && turns[|turns| - 1].reply == Failure(AuthorizationChanged)
    ensures r.Failure? && r.error.ReadFailed? ==> r.error.fault != AskFailed(AuthorizationChanged)
  {
    if limit.Some? && limit.value < 0 {
      return Failure(NegativeLimit), [];
    }
    if limit == Some(0) {
      return Success(Unread()), [];
    }
    var lim: nat := if limit.Some? then limit.value else 0;
    var read, asked := ReadPages(first, lim, limit.Some?);
    if read == Failure(AskFailed(AuthorizationChanged)) {
      read, asked := ReadPages(again, lim, limit.Some?);
    }
    if read == Failure(AskFailed(AuthorizationChanged)) {
      return Failure(KeptChanging), asked;
    }
    match read
    case Success(listing) => return Success(listing), asked;
    case Failure(fault) => return Failure(ReadFailed(fault)), asked;
  }
}
