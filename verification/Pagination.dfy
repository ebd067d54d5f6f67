// The server's cursor paginator (server/pagination.go), and the client's listing loop
// followed over it.
module Pagination {
  import opened Wrappers
  import opened Base64
  import opened Pages

  // The JSON object a cursor wraps: writing an offset, and reading one from any bytes.
  datatype OffsetCodec = OffsetCodec(marshal: int -> seq<byte>, unmarshal: seq<byte> -> Option<int>)

  ghost predicate Sound(codec: OffsetCodec) {
    forall offset: int :: codec.marshal(offset) != [] && codec.unmarshal(codec.marshal(offset)) == Some(offset)
  }

  function EncodeCursor(codec: OffsetCodec, offset: int): seq<byte> {
    Encode(codec.marshal(offset))
  }

  // Any cursor that cannot be read stands for the start of the list.
  function StartOffset(codec: OffsetCodec, cursor: seq<byte>): nat {
    if cursor == [] then 0
    else
      var decoded := Decode(cursor, false);
      if decoded.None? then 0
      else
        var offset := codec.unmarshal(decoded.value);
        if offset.None? || offset.value < 0 then 0 else offset.value
  }

  function Paginate<T>(codec: OffsetCodec, items: seq<T>, perPage: int, cursor: seq<byte>): (seq<T>, seq<byte>) {
    var start := StartOffset(codec, cursor);
    if perPage <= 0 || start >= |items| then ([], [])
    else
      var end := if start + perPage > |items| then |items| else start + perPage;
      (items[start..end], if |items| > start + perPage then EncodeCursor(codec, start + perPage) else [])
  }

  // A cursor the paginator hands out leads back to the offset it was made from.
  lemma CursorRoundTrip(codec: OffsetCodec, offset: nat)
    requires Sound(codec)
    ensures StartOffset(codec, EncodeCursor(codec, offset)) == offset
  {
    RoundTrip(codec.marshal(offset), false);
  }

  function Wrapped<T>(page: seq<T>): (r: seq<Option<T>>)
    ensures |r| == |page| && forall k :: 0 <= k < |r| ==> r[k] == Some(page[k])
  {
    if page == [] then [] else [Some(page[0])] + Wrapped(page[1..])
  }

  // The paginator behind a list method, over one connection and one authorization.
  function Serving<T>(codec: OffsetCodec, items: seq<T>, perPage: int, generation: int, authorization: int, staleAfter: int): Server<T> {
    (turn: nat, request: Request) =>
      var (page, next) := Paginate(codec, items, perPage, if request.cursor.Some? then request.cursor.value else []);
      Success(Answer(generation, authorization, staleAfter, Body(Wrapped(page), if next == [] then Ended else Cursor(next))))
  }

  function Entries<T>(items: seq<T>, staleAfter: int): (r: seq<Entry<T>>)
    ensures |r| == |items| && forall k :: 0 <= k < |r| ==> r[k] == Entry(items[k], staleAfter)
  {
    if items == [] then [] else [Entry(items[0], staleAfter)] + Entries(items[1..], staleAfter)
  }

  function Least(a: int, b: int): int {
    if a < b then a else b
  }

  // How many pages n items come in.
  function PageCount(n: nat, perPage: nat): (r: nat)
    requires perPage >= 1
    ensures r >= 1
  {
    if n == 0 then 1 else (n + perPage - 1) / perPage
  }

  function CursorOf<T>(turn: Turn<T>): seq<byte> {
    if turn.request.cursor.Some? then turn.request.cursor.value else []
  }

  function NextOf(codec: OffsetCodec, count: nat, from: nat): NextCursor {
    if count > from then Cursor(EncodeCursor(codec, from)) else Ended
  }

  // What the first turns of a reading over the paginator brought back: turn i was asked
  // at offset i * perPage, and the pages so far are the items so far.
  ghost predicate Followed<T>(codec: OffsetCodec, items: seq<T>, perPage: nat, staleAfter: int, turns: seq<Turn<T>>) {
    && AllReadable(turns)
    && (forall i :: 0 <= i < |turns| ==>
          StartOffset(codec, CursorOf(turns[i])) == i * perPage)
    && Gathered(turns) == Entries(items[..Least(|turns| * perPage, |items|)], staleAfter)
    && (|turns| > 0 ==>
          var last := turns[|turns| - 1].reply.value.body;
          && AllObjects(last.page)
          && last.next == NextOf(codec, |items|, |turns| * perPage))
  }

  lemma ObjectsWrapped<T>(page: seq<T>, staleAfter: int)
    ensures Objects(Wrapped(page), staleAfter) == Entries(page, staleAfter)
  {
  }

  lemma EntriesSplit<T>(items: seq<T>, low: nat, high: nat, staleAfter: int)
    requires low <= high <= |items|
    ensures Entries(items[..high], staleAfter) == Entries(items[..low], staleAfter) + Entries(items[low..high], staleAfter)
  {
  }

  lemma PageRows<T>(items: seq<T>, perPage: nat, start: nat, page: seq<T>, staleAfter: int)
    requires page == items[Least(start, |items|)..Least(start + perPage, |items|)]
    ensures Entries(items[..Least(start, |items|)], staleAfter) + Objects(Wrapped(page), staleAfter)
         == Entries(items[..Least(start + perPage, |items|)], staleAfter)
    ensures AllObjects(Wrapped(page))
  {
    ObjectsWrapped(page, staleAfter);
    EntriesSplit(items, Least(start, |items|), Least(start + perPage, |items|), staleAfter);
  }

  // The page served at an offset, and the way to the next.
  lemma PageServed<T>(codec: OffsetCodec, items: seq<T>, perPage: nat, turn: Turn<T>, start: nat, page: seq<T>, next: seq<byte>)
    requires perPage >= 1 && StartOffset(codec, CursorOf(turn)) == start
    requires (page, next) == Paginate(codec, items, perPage, CursorOf(turn))
    requires EncodeCursor(codec, start + perPage) != []
    ensures page == items[Least(start, |items|)..Least(start + perPage, |items|)]
    ensures (if next == [] then Ended else Cursor(next)) == NextOf(codec, |items|, start + perPage)
  {
  }

  // A turn that brought the items from one offset up to another, and the cursor of the latter.
  ghost predicate Turns<T>(codec: OffsetCodec, items: seq<T>, staleAfter: int, turn: Turn<T>, from: nat, upTo: nat) {
    && Readable(turn) && turn.reply.value.staleAfter == staleAfter
    && var body := turn.reply.value.body;
    && AllObjects(body.page) && body.next == NextOf(codec, |items|, upTo)
    && Entries(items[..Least(from, |items|)], staleAfter) + Objects(body.page, staleAfter)
       == Entries(items[..Least(upTo, |items|)], staleAfter)
  }

  // One page read at an offset: the items from there on, and the way to the next.
  lemma PageAt<T>(codec: OffsetCodec, items: seq<T>, perPage: nat, g: int, a: int, staleAfter: int, turn: Turn<T>, n: nat, start: nat)
    requires perPage >= 1
    requires turn.reply == Serving(codec, items, perPage, g, a, staleAfter)(n, turn.request)
    requires StartOffset(codec, CursorOf(turn)) == start
    requires EncodeCursor(codec, start + perPage) != []
    ensures Turns(codec, items, staleAfter, turn, start, start + perPage)
  {
    var (page, next) := Paginate(codec, items, perPage, CursorOf(turn));
    PageServed(codec, items, perPage, turn, start, page, next);
    PageRows(items, perPage, start, page, staleAfter);
  }

  lemma OneMore(n: nat, perPage: nat)
    ensures (n + 1) * perPage == n * perPage + perPage
  {
  }

  lemma EncodeNonEmpty(bytes: seq<byte>)
    requires bytes != []
    ensures Encode(bytes) != []
  {
  }

  // Each turn is asked where the one before it left off.
  lemma TurnStarts<T>(codec: OffsetCodec, items: seq<T>, perPage: nat, staleAfter: int, turns: seq<Turn<T>>)
    requires Sound(codec) && perPage >= 1 && |turns| > 0 && Chained(turns)
    requires Followed(codec, items, perPage, staleAfter, turns[..|turns| - 1])
    ensures StartOffset(codec, CursorOf(turns[|turns| - 1])) == (|turns| - 1) * perPage
  {
    var n: nat := |turns| - 1;
    if n > 0 {
      assert turns[n - 1] == turns[..n][n - 1];
      assert Linked(turns, n);
      CursorRoundTrip(codec, n * perPage);
    }
  }

  lemma TurnFollows<T>(codec: OffsetCodec, items: seq<T>, perPage: nat, g: int, a: int, staleAfter: int, turns: seq<Turn<T>>, from: nat)
    requires Sound(codec) && perPage >= 1 && |turns| > 0
    requires AnsweredBy(turns, Serving(codec, items, perPage, g, a, staleAfter))
    requires StartOffset(codec, CursorOf(turns[|turns| - 1])) == from
    ensures Turns(codec, items, staleAfter, turns[|turns| - 1], from, from + perPage)
  {
    EncodeNonEmpty(codec.marshal(from + perPage));
    PageAt(codec, items, perPage, g, a, staleAfter, turns[|turns| - 1], |turns| - 1, from);
  }

  lemma FollowedGrows<T>(codec: OffsetCodec, items: seq<T>, perPage: nat, staleAfter: int, before: seq<Turn<T>>, turn: Turn<T>, from: nat)
    requires Followed(codec, items, perPage, staleAfter, before)
    requires from == |before| * perPage && StartOffset(codec, CursorOf(turn)) == from
    requires Turns(codec, items, staleAfter, turn, from, from + perPage)
    ensures Followed(codec, items, perPage, staleAfter, before + [turn])
  {
    var turns := before + [turn];
    OneMore(|before|, perPage);
    assert |turns| == |before| + 1;
    assert |turns| * perPage == from + perPage;
    GatheredExtends(before, turn);
    forall i | 0 <= i < |turns| ensures Readable(turns[i]) && StartOffset(codec, CursorOf(turns[i])) == i * perPage {
      if i < |before| {
        assert turns[i] == before[i];
      }
    }
  }

  lemma LastApart<T>(turns: seq<Turn<T>>)
    requires |turns| > 0
    ensures turns[..|turns| - 1] + [turns[|turns| - 1]] == turns
  {
  }

  // One turn more, all that was said of those before it still to be said of them all.
  lemma NextTurn<T>(codec: OffsetCodec, items: seq<T>, perPage: nat, g: int, a: int, staleAfter: int, turns: seq<Turn<T>>)
    requires Sound(codec) && perPage >= 1 && |turns| > 0
    requires AnsweredBy(turns, Serving(codec, items, perPage, g, a, staleAfter)) && Chained(turns)
    requires Followed(codec, items, perPage, staleAfter, turns[..|turns| - 1])
    ensures Followed(codec, items, perPage, staleAfter, turns)
  {
    var before := turns[..|turns| - 1];
    assert |before| == |turns| - 1;
    var from := |before| * perPage;
    TurnStarts(codec, items, perPage, staleAfter, turns);
    TurnFollows(codec, items, perPage, g, a, staleAfter, turns, from);
    LastApart(turns);
    FollowedGrows(codec, items, perPage, staleAfter, before, turns[|turns| - 1], from);
  }

  lemma PrefixChained<T>(turns: seq<Turn<T>>)
    requires Chained(turns) && |turns| > 0
    ensures Chained(turns[..|turns| - 1])
  {
    var before := turns[..|turns| - 1];
    forall i: nat | 0 < i < |before| ensures Linked(before, i) {
      assert Linked(turns, i);
    }
  }

  lemma AnsweredBefore<T>(turns: seq<Turn<T>>, server: Server<T>)
    requires AnsweredBy(turns, server) && |turns| > 0
    ensures AnsweredBy(turns[..|turns| - 1], server)
  {
  }

  lemma {:induction false} FollowedThroughout<T>(codec: OffsetCodec, items: seq<T>, perPage: nat, g: int, a: int, staleAfter: int, turns: seq<Turn<T>>)
    requires Sound(codec) && perPage >= 1
    requires AnsweredBy(turns, Serving(codec, items, perPage, g, a, staleAfter)) && Chained(turns)
    ensures Followed(codec, items, perPage, staleAfter, turns)
  {
    if turns == [] {
    } else {
      PrefixChained(turns);
      AnsweredBefore(turns, Serving(codec, items, perPage, g, a, staleAfter));
      FollowedThroughout(codec, items, perPage, g, a, staleAfter, turns[..|turns| - 1]);
      NextTurn(codec, items, perPage, g, a, staleAfter, turns);
    }
  }

  lemma Scales(a: nat, b: nat, p: nat)
    requires a <= b
    ensures a * p <= b * p
  {
    assert (b - a) * p >= 0;
  }

  lemma Quotient(n: nat, p: nat)
    requires p >= 1
    ensures (n / p) * p <= n < (n / p) * p + p
  {
  }

  lemma CountedPages(n: nat, perPage: nat, pages: nat)
    requires perPage >= 1 && pages >= 1
    ensures pages < PageCount(n, perPage) <==> n > pages * perPage
  {
    if n > 0 {
      var q := (n + perPage - 1) / perPage;
      Quotient(n + perPage - 1, perPage);
      if pages < q {
        Scales(pages + 1, q, perPage);
        OneMore(pages, perPage);
      } else {
        Scales(q, pages, perPage);
      }
    }
  }

  predicate Dates<T>(turn: Turn<T>, g: int, a: int, staleAfter: int) {
    && turn.reply.Success?
    && turn.reply.value.generation == g && turn.reply.value.authorization == a && turn.reply.value.staleAfter == staleAfter
  }

  lemma AllDated<T>(codec: OffsetCodec, items: seq<T>, perPage: nat, g: int, a: int, staleAfter: int, turns: seq<Turn<T>>)
    requires AnsweredBy(turns, Serving(codec, items, perPage, g, a, staleAfter))
    ensures forall i :: 0 <= i < |turns| ==> Dates(turns[i], g, a, staleAfter)
  {
    forall i | 0 <= i < |turns| ensures Dates(turns[i], g, a, staleAfter) {
      assert turns[i].reply == Serving(codec, items, perPage, g, a, staleAfter)(i, turns[i].request);
    }
  }

  lemma MoreRemains<T>(codec: OffsetCodec, items: seq<T>, perPage: nat, staleAfter: int, turns: seq<Turn<T>>)
    requires |turns| > 0 && Followed(codec, items, perPage, staleAfter, turns) && Continues(turns[|turns| - 1])
    ensures |items| > |turns| * perPage
  {
  }

  // The pages asked for are the pages the items fill, up to and including this one.
  lemma PagesAsked<T>(codec: OffsetCodec, items: seq<T>, perPage: nat, g: int, a: int, staleAfter: int, turns: seq<Turn<T>>)
    requires Sound(codec) && perPage >= 1 && 0 < |turns|
    requires AnsweredBy(turns, Serving(codec, items, perPage, g, a, staleAfter)) && Chained(turns)
    ensures |turns| <= PageCount(|items|, perPage)
  {
    if |turns| > 1 {
      var before := turns[..|turns| - 1];
      PrefixChained(turns);
      FollowedThroughout(codec, items, perPage, g, a, staleAfter, before);
      assert Linked(turns, |turns| - 1) && before[|before| - 1] == turns[|turns| - 2];
      MoreRemains(codec, items, perPage, staleAfter, before);
      CountedPages(|items|, perPage, |turns| - 1);
    }
  }

  lemma Multiples(i: nat, n: nat, perPage: nat)
    requires i < n && perPage >= 1
    ensures i * perPage < n * perPage
  {
    assert (n - i) * perPage >= 1;
  }

  // The cursor after the last page read is one no page before it was asked with.
  lemma NeverRepeats<T>(codec: OffsetCodec, items: seq<T>, perPage: nat, g: int, a: int, staleAfter: int, turns: seq<Turn<T>>)
    requires Sound(codec) && perPage >= 1 && |turns| > 0
    requires AnsweredBy(turns, Serving(codec, items, perPage, g, a, staleAfter)) && Chained(turns)
    ensures Followed(codec, items, perPage, staleAfter, turns)
    ensures var next := turns[|turns| - 1].reply.value.body.next; next.Cursor? ==> !SentBefore(turns, next.raw)
  {
    FollowedThroughout(codec, items, perPage, g, a, staleAfter, turns);
    var next := turns[|turns| - 1].reply.value.body.next;
    if next.Cursor? {
      CursorRoundTrip(codec, |turns| * perPage);
      forall i | 0 <= i < |turns| ensures turns[i].request.cursor != Some(next.raw) {
        Multiples(i, |turns|, perPage);
      }
    }
  }

  // How a reading over the paginator ends.
  lemma Outcome<T>(codec: OffsetCodec, items: seq<T>, perPage: nat, g: int, a: int, staleAfter: int, r: Result<Listing<T>, Fault>, turns: seq<Turn<T>>)
    requires Sound(codec) && perPage >= 1 && 0 < |turns| <= MAX_LIST_PAGES
    requires AnsweredBy(turns, Serving(codec, items, perPage, g, a, staleAfter)) && Chained(turns)
    requires r.Success? ==> Completes(turns, r.value, 0, false)
    requires r.Failure? ==> Explains(turns, r.error)
    ensures PageCount(|items|, perPage) <= MAX_LIST_PAGES ==>
              r == Success(Listing(Entries(items, staleAfter), g, staleAfter, a)) && |turns| == PageCount(|items|, perPage)
    ensures PageCount(|items|, perPage) > MAX_LIST_PAGES ==> r == Failure(Unbounded(MAX_LIST_PAGES))
  {
    PagesAsked(codec, items, perPage, g, a, staleAfter, turns);
    CountedPages(|items|, perPage, |turns|);
    NeverRepeats(codec, items, perPage, g, a, staleAfter, turns);
    AllDated(codec, items, perPage, g, a, staleAfter, turns);
    assert items[..|items|] == items;
  }

  // A client following the paginator from no cursor at all reads exactly the server's
  // items, once each and in order, in as many pages as they fill; only a list of more
  // pages than a listing may run to is given up, and no cursor is ever a repeat.
  method FollowPaginator<T>(codec: OffsetCodec, items: seq<T>, perPage: nat, g: int, a: int, staleAfter: int)
    returns (r: Result<Listing<T>, Fault>, pages: nat)
    requires Sound(codec) && perPage >= 1
    ensures PageCount(|items|, perPage) <= MAX_LIST_PAGES ==>
              r == Success(Listing(Entries(items, staleAfter), g, staleAfter, a)) && pages == PageCount(|items|, perPage)
    ensures PageCount(|items|, perPage) > MAX_LIST_PAGES ==> r == Failure(Unbounded(MAX_LIST_PAGES))
  {
    var turns;
    r, turns := ReadPages(Serving(codec, items, perPage, g, a, staleAfter), 0, false);
    pages := |turns|;
    Outcome(codec, items, perPage, g, a, staleAfter, r, turns);
  }
}
