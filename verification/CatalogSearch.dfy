// server/tool_catalog.go: ranking the catalog, and as much of it as a reply has room for.
module CatalogSearch {
  import opened Wrappers
  import opened Wire
  import opened ToolReply
  import opened DocReader

  datatype Entry = Entry(
    payload: Doc, size: nat,
    name: string, title: string, description: string, schemaText: string,
    nameTerms: seq<string>)

  // An entry as it is prepared: its payload encodes, and its size is the one on the wire.
  predicate Prepared(e: Entry) {
    Encodable(e.payload) && e.size == Bytes(Encode(e.payload, true))
  }

  // ----- Terms -----

  // Each term once, where it first stands.
  function Distinct(terms: seq<string>): seq<string> {
    if terms == [] then []
    else
      var front, last := terms[..|terms| - 1], terms[|terms| - 1];
      if last in front then Distinct(front) else Distinct(front) + [last]
  }

  lemma {:induction false} DistinctOnce(terms: seq<string>)
    ensures forall t :: t in Distinct(terms) <==> t in terms
    ensures forall i, j :: 0 <= i < j < |Distinct(terms)| ==> Distinct(terms)[i] != Distinct(terms)[j]
    ensures |Distinct(terms)| <= |terms|
  {
    if terms == [] {
    } else {
      var front, last := terms[..|terms| - 1], terms[|terms| - 1];
      DistinctOnce(front);
      assert terms == front + [last];
    }
  }

  // The repeats are dropped in place: what is kept is moved up over them.
  method DropRepeats(terms: array<string>) returns (count: nat)
    modifies terms
    ensures count <= terms.Length && terms[..count] == Distinct(old(terms[..]))
  {
    ghost var was := terms[..];
    var seen: set<string> := {};
    count := 0;
    for i := 0 to terms.Length
      invariant count <= i && terms[i..] == was[i..]
      invariant terms[..count] == Distinct(was[..i])
      invariant forall t :: t in seen <==> t in was[..i]
    {
      var term := terms[i];
      assert term == terms[i..][0] == was[i];
      assert was[..i + 1][..i] == was[..i];
      if term !in seen {
        seen := seen + {term};
        terms[count] := term;
        count := count + 1;
        assert terms[..count] == Distinct(was[..i]) + [term];
      }
      assert terms[i + 1..] == was[i + 1..];
    }
    assert was[..terms.Length] == was;
  }

  // ----- Scores -----

  predicate StandsAt(text: string, term: string, i: nat) {
    i + |term| <= |text| && text[i..i + |term|] == term
  }

  predicate Contains(text: string, term: string) {
    exists i :: 0 <= i <= |text| && StandsAt(text, term, i)
  }

  function TermScore(e: Entry, term: string): nat {
    (if Contains(e.name, term) then 4 else 0) + (if Contains(e.title, term) then 3 else 0)
    + (if Contains(e.description, term) then 2 else 0) + (if Contains(e.schemaText, term) then 1 else 0)
  }

  function TermScores(e: Entry, terms: seq<string>): nat {
    if terms == [] then 0 else TermScores(e, terms[..|terms| - 1]) + TermScore(e, terms[|terms| - 1])
  }

  function Score(e: Entry, terms: seq<string>): nat {
    (if terms != [] && terms == e.nameTerms then 8 else 0) + TermScores(e, terms)
  }

  // With nothing asked for everything matches.
  predicate Matches(e: Entry, terms: seq<string>) {
    terms == [] || Score(e, terms) > 0
  }

  // A term stands in one of the texts of an entry.
  predicate Mentions(e: Entry, term: string) {
    Contains(e.name, term) || Contains(e.title, term) || Contains(e.description, term) || Contains(e.schemaText, term)
  }

  lemma {:induction false} ScoredByMention(e: Entry, terms: seq<string>)
    ensures TermScores(e, terms) > 0 <==> exists t :: t in terms && Mentions(e, t)
  {
    if terms == [] {
    } else {
      var front, last := terms[..|terms| - 1], terms[|terms| - 1];
      ScoredByMention(e, front);
      assert terms == front + [last] && last in terms;
      assert TermScore(e, last) > 0 <==> Mentions(e, last);
    }
  }

  // A tool matches exactly when nothing is asked for, when the query spells its name, or when a term
  // of the query stands in one of its texts.
  lemma MatchesSomewhere(e: Entry, terms: seq<string>)
    ensures Matches(e, terms) <==> terms == [] || terms == e.nameTerms || exists t :: t in terms && Mentions(e, t)
  {
    ScoredByMention(e, terms);
  }

  // The places a term may stand in, those that count for less first.
  predicate AlsoAt(e: Entry, term: string, place: nat) {
    match place
    case 0 => Contains(e.schemaText, term)
    case 1 => Contains(e.description, term)
    case 2 => Contains(e.title, term)
    case 3 => Contains(e.name, term)
    case _ => false
  }

  predicate OnlyAt(e: Entry, term: string, place: nat) {
    AlsoAt(e, term, place) && forall other: nat :: other < 4 && other != place ==> !AlsoAt(e, term, other)
  }

  lemma Places(e: Entry, term: string)
    ensures AlsoAt(e, term, 0) <==> Contains(e.schemaText, term)
    ensures AlsoAt(e, term, 1) <==> Contains(e.description, term)
    ensures AlsoAt(e, term, 2) <==> Contains(e.title, term)
    ensures AlsoAt(e, term, 3) <==> Contains(e.name, term)
  {
  }

  // A term counts for more in the name than in the title, there than in the description, and there than
  // in the schema; and a place more always counts for something.
  lemma PlacesWeigh(e: Entry, f: Entry, term: string, place: nat, lower: nat)
    ensures OnlyAt(e, term, place) && OnlyAt(f, term, lower) && lower < place ==> TermScore(e, term) > TermScore(f, term) > 0
    ensures (forall p: nat :: p < 4 && AlsoAt(f, term, p) ==> AlsoAt(e, term, p)) ==>
              TermScore(e, term) >= TermScore(f, term)
              && (AlsoAt(e, term, place) && !AlsoAt(f, term, place) ==> TermScore(e, term) > TermScore(f, term))
  {
    Places(e, term);
    Places(f, term);
  }

  // Asked for by one word that is its whole name, a tool comes before all that are not called so.
  lemma NameOutranks(e: Entry, f: Entry, term: string)
    requires e.nameTerms == [term] && Contains(e.name, term) && f.nameTerms != [term]
    ensures Score(e, [term]) > Score(f, [term])
  {
    assert [term][..0] == [];
    assert TermScores(e, [term]) == TermScores(e, [term][..0]) + TermScore(e, term);
    assert TermScores(f, [term]) == TermScores(f, [term][..0]) + TermScore(f, term);
  }

  predicate Before(entries: seq<Entry>, terms: seq<string>, i: nat, j: nat)
    requires i < |entries| && j < |entries|
  {
    Score(entries[i], terms) > Score(entries[j], terms)
    || (Score(entries[i], terms) == Score(entries[j], terms) && i < j)
  }

  predicate InRange(entries: seq<Entry>, ranked: seq<nat>) {
    forall k :: 0 <= k < |ranked| ==> ranked[k] < |entries|
  }

  // Best first, and in order of registration among equals.
  predicate Ordered(entries: seq<Entry>, terms: seq<string>, ranked: seq<nat>)
    requires InRange(entries, ranked)
  {
    forall j, k :: 0 <= j < k < |ranked| ==> Before(entries, terms, ranked[j], ranked[k])
  }

  // Every matching entry, once.
  predicate Ranks(entries: seq<Entry>, terms: seq<string>, ranked: seq<nat>) {
    && InRange(entries, ranked)
    && Ordered(entries, terms, ranked)
    && forall i :: 0 <= i < |entries| ==> (i in ranked <==> Matches(entries[i], terms))
  }

  lemma SomethingIn(a: seq<nat>, b: seq<nat>)
    requires a != [] && forall i :: i in a <==> i in b
    ensures b != []
  {
    assert a[0] in a;
  }

  lemma RestApart(entries: seq<Entry>, terms: seq<string>, a: seq<nat>)
    requires InRange(entries, a) && Ordered(entries, terms, a) && a != []
    ensures forall i :: i in a[1..] <==> i in a && i != a[0]
  {
    assert a == [a[0]] + a[1..];
    forall k | 1 <= k < |a| ensures a[k] != a[0] {
      assert Before(entries, terms, a[0], a[k]);
    }
  }

  lemma FirstIsBest(entries: seq<Entry>, terms: seq<string>, a: seq<nat>, i: nat)
    requires InRange(entries, a) && Ordered(entries, terms, a) && i in a
    ensures i < |entries| && (a[0] == i || Before(entries, terms, a[0], i))
  {
    var k :| 0 <= k < |a| && a[k] == i;
  }

  lemma FirstAlike(entries: seq<Entry>, terms: seq<string>, a: seq<nat>, b: seq<nat>)
    requires InRange(entries, a) && Ordered(entries, terms, a) && InRange(entries, b) && Ordered(entries, terms, b)
    requires a != [] && b != [] && forall i :: i in a <==> i in b
    ensures a[0] == b[0]
  {
    assert a[0] in a && b[0] in b;
    FirstIsBest(entries, terms, a, b[0]);
    FirstIsBest(entries, terms, b, a[0]);
  }

  // There is one ranking.
  lemma {:induction false} RanksOnce(entries: seq<Entry>, terms: seq<string>, a: seq<nat>, b: seq<nat>)
    requires InRange(entries, a) && Ordered(entries, terms, a) && InRange(entries, b) && Ordered(entries, terms, b)
    requires forall i :: i in a <==> i in b
    ensures a == b
  {
    if a != [] {
      SomethingIn(a, b);
    }
    if b != [] {
      SomethingIn(b, a);
      FirstAlike(entries, terms, a, b);
      forall i ensures i in a[1..] <==> i in b[1..] {
        RestApart(entries, terms, a);
        RestApart(entries, terms, b);
      }
      RanksOnce(entries, terms, a[1..], b[1..]);
      assert a == [a[0]] + a[1..] && b == [b[0]] + b[1..];
    }
  }

  // ----- Ranking -----

  method ScoreOf(e: Entry, terms: seq<string>) returns (score: nat)
    ensures score == Score(e, terms)
  {
    score := 0;
    if |terms| > 0 && terms == e.nameTerms {
      score := 8;
    }
    for i := 0 to |terms|
      invariant score == (if terms != [] && terms == e.nameTerms then 8 else 0) + TermScores(e, terms[..i])
    {
      var term := terms[i];
      assert terms[..i + 1][..i] == terms[..i];
      if Contains(e.name, term) {
        score := score + 4;
      }
      if Contains(e.title, term) {
        score := score + 3;
      }
      if Contains(e.description, term) {
        score := score + 2;
      }
      if Contains(e.schemaText, term) {
        score := score + 1;
      }
    }
    assert terms[..|terms|] == terms;
  }

  function Inserted(ranked: seq<nat>, k: nat, i: nat): seq<nat>
    requires k <= |ranked|
  {
    ranked[..k] + [i] + ranked[k..]
  }

  lemma InsertedOrdered(entries: seq<Entry>, terms: seq<string>, ranked: seq<nat>, k: nat, i: nat)
    requires i < |entries| && InRange(entries, ranked) && Ordered(entries, terms, ranked) && k <= |ranked|
    requires forall j :: 0 <= j < k ==> Before(entries, terms, ranked[j], i)
    requires forall j :: k <= j < |ranked| ==> Before(entries, terms, i, ranked[j])
    ensures InRange(entries, Inserted(ranked, k, i)) && Ordered(entries, terms, Inserted(ranked, k, i))
  {
    var r := Inserted(ranked, k, i);
    forall m | 0 <= m < |r| ensures r[m] == if m < k then ranked[m] else if m == k then i else ranked[m - 1] {
    }
  }

  lemma InsertedHolds(ranked: seq<nat>, k: nat, i: nat)
    requires k <= |ranked|
    ensures forall n :: n in Inserted(ranked, k, i) <==> n in ranked || n == i
  {
    assert ranked == ranked[..k] + ranked[k..];
  }

  // The next entry goes behind all of at least its score.
  method Placed(entries: seq<Entry>, terms: seq<string>, ranked: seq<nat>, i: nat) returns (r: seq<nat>)
    requires i < |entries| && InRange(entries, ranked) && Ordered(entries, terms, ranked)
    requires forall n :: n in ranked ==> n < i
    ensures InRange(entries, r) && Ordered(entries, terms, r)
    ensures forall n :: n in r <==> n in ranked || n == i
  {
    var k := |ranked|;
    while k > 0 && Score(entries[ranked[k - 1]], terms) < Score(entries[i], terms)
      invariant 0 <= k <= |ranked|
      invariant forall j :: k <= j < |ranked| ==> Before(entries, terms, i, ranked[j])
    {
      k := k - 1;
    }
    forall j | 0 <= j < k ensures Before(entries, terms, ranked[j], i) {
      assert ranked[j] in ranked;
      if j < k - 1 {
        assert Before(entries, terms, ranked[j], ranked[k - 1]);
      }
    }
    InsertedOrdered(entries, terms, ranked, k, i);
    InsertedHolds(ranked, k, i);
    r := ranked[..k] + [i] + ranked[k..];
  }

  method Rank(entries: seq<Entry>, terms: seq<string>) returns (ranked: seq<nat>)
    ensures Ranks(entries, terms, ranked)
  {
    ranked := [];
    for i := 0 to |entries|
      invariant InRange(entries, ranked) && Ordered(entries, terms, ranked)
      invariant forall n :: n in ranked ==> n < i
      invariant forall n :: 0 <= n < i ==> (n in ranked <==> Matches(entries[n], terms))
    {
      var score := ScoreOf(entries[i], terms);
      if |terms| > 0 && score == 0 {
        assert i !in ranked;
        continue;
      }
      ranked := Placed(entries, terms, ranked, i);
    }
  }

  // ----- What fits -----

  function Payloads(entries: seq<Entry>, ranked: seq<nat>): (ps: seq<Doc>)
    requires InRange(entries, ranked)
    ensures |ps| == |ranked|
  {
    seq(|ranked|, k requires 0 <= k < |ranked| => entries[ranked[k]].payload)
  }

  function Output(entries: seq<Entry>, ranked: seq<nat>, n: nat): Doc
    requires InRange(entries, ranked) && n <= |ranked|
  {
    Obj([Member("ok", Bool(true))]
        + [Member("tools", Arr(Payloads(entries, ranked)[..n]))]
        + [Member("hasMore", Bool(n < |ranked|))])
  }

  function SearchReply(entries: seq<Entry>, ranked: seq<nat>, n: nat): Doc
    requires InRange(entries, ranked) && n <= |ranked|
  {
    TextReply(Output(entries, ranked, n), false)
  }

  function LimitDoc(message: string): Doc {
    Obj([Member("ok", Bool(false))]
        + [Member("error", Obj([Member("kind", Str("OutputLimitExceeded"))] + [Member("message", Str(message))]))])
  }

  function LimitReport(message: string): Doc {
    TextReply(LimitDoc(message), true)
  }

  function Listed(entries: seq<Entry>, ranked: seq<nat>): seq<nat>
    requires InRange(entries, ranked)
  {
    seq(|ranked|, k requires 0 <= k < |ranked| => entries[ranked[k]].size)
  }

  lemma BurdenOfMember(lead: seq<Member>, m: Member, rest: seq<Member>)
    ensures Burden(Obj(lead + [m] + rest)) >= Burden(m.value)
  {
    ObjBurden(lead + [m] + rest);
    BurdensConcat(lead + [m], rest);
    BurdensConcat(lead, [m]);
    OneBurden(m);
  }

  lemma PayloadsBurden(entries: seq<Entry>, ranked: seq<nat>, n: nat)
    requires InRange(entries, ranked) && n <= |ranked|
    requires forall k :: 0 <= k < |entries| ==> Prepared(entries[k])
    ensures Burden(Arr(Payloads(entries, ranked)[..n])) >= Total(Listed(entries, ranked)[..n])
  {
    var ps := Payloads(entries, ranked)[..n];
    forall k | 0 <= k < n ensures Listed(entries, ranked)[k] <= Burden(ps[k]) {
      assert ps[k] == entries[ranked[k]].payload;
      assert Prepared(entries[ranked[k]]);
      SizeIsBytes(ps[k]);
      EmbeddedNoShorter(ps[k]);
    }
    ArrBurden(ps);
    TotalMonotone(Listed(entries, ranked)[..n], ElementBurdens(ps));
  }

  // A reply is never shorter than its entries are by themselves: pruning by their sizes loses nothing.
  lemma ReplyOutweighs(entries: seq<Entry>, ranked: seq<nat>, n: nat)
    requires InRange(entries, ranked) && n <= |ranked|
    requires forall k :: 0 <= k < |entries| ==> Prepared(entries[k])
    ensures Bytes(Encode(SearchReply(entries, ranked, n), true)) > Total(Listed(entries, ranked)[..n])
  {
    var output := Output(entries, ranked, n);
    SizeIsBytes(SearchReply(entries, ranked, n));
    assert [TextItem(Encode(output, false))] + [] == [TextItem(Encode(output, false))];
    LedSize(None, Encode(output, false), [], false);
    BurdenIsWeight(output);
    BurdenOfMember([Member("ok", Bool(true))], Member("tools", Arr(Payloads(entries, ranked)[..n])),
                   [Member("hasMore", Bool(n < |ranked|))]);
    PayloadsBurden(entries, ranked, n);
  }

  lemma PrefixTotal(ns: seq<nat>, m: nat, n: nat)
    requires m <= n <= |ns|
    ensures Total(ns[..m]) <= Total(ns[..n])
  {
    TotalConcat(ns[..m], ns[m..n]);
    assert ns[..n] == ns[..m] + ns[m..n];
  }

  predicate Fits(entries: seq<Entry>, ranked: seq<nat>, n: nat, most: nat)
    requires InRange(entries, ranked) && n <= |ranked|
  {
    Bytes(Encode(SearchReply(entries, ranked, n), true)) <= most
  }

  function Cap(limit: nat, ranked: seq<nat>): nat {
    if limit < |ranked| then limit else |ranked|
  }

  // No reply of at least so many entries fits, up to the limit.
  predicate NoneFits(entries: seq<Entry>, ranked: seq<nat>, least: nat, limit: nat, most: nat)
    requires InRange(entries, ranked)
  {
    forall m :: least <= m <= Cap(limit, ranked) ==> !Fits(entries, ranked, m, most)
  }

  lemma OneMore(ns: seq<nat>, i: nat)
    requires i < |ns|
    ensures Total(ns[..i + 1]) == Total(ns[..i]) + ns[i]
  {
    TotalConcat(ns[..i], [ns[i]]);
    OneTotal(ns[i]);
    assert ns[..i + 1] == ns[..i] + [ns[i]];
  }

  // How many entries could fit by their own sizes.
  method Prune(entries: seq<Entry>, ranked: seq<nat>, limit: nat, most: nat) returns (fitting: nat)
    requires InRange(entries, ranked) && forall k :: 0 <= k < |entries| ==> Prepared(entries[k])
    ensures fitting <= Cap(limit, ranked)
    ensures NoneFits(entries, ranked, fitting + 1, limit, most)
  {
    var lower := 0;
    fitting := 0;
    ghost var listed := Listed(entries, ranked);
    assert listed[..0] == [];
    while fitting < |ranked| && fitting < limit
      invariant fitting <= Cap(limit, ranked) && lower == Total(listed[..fitting])
    {
      lower := lower + entries[ranked[fitting]].size;
      OneMore(listed, fitting);
      if lower > most {
        forall m | fitting < m <= Cap(limit, ranked) ensures !Fits(entries, ranked, m, most) {
          PrefixTotal(listed, fitting + 1, m);
          ReplyOutweighs(entries, ranked, m);
        }
        return;
      }
      fitting := fitting + 1;
    }
  }

  // The largest number of entries that fits, none only where nothing matched.
  ghost predicate Largest(entries: seq<Entry>, ranked: seq<nat>, limit: nat, most: nat, n: Option<nat>)
    requires InRange(entries, ranked)
  {
    if n.Some? then
      && n.value <= Cap(limit, ranked) && (n.value == 0 ==> ranked == [])
      && Fits(entries, ranked, n.value, most) && NoneFits(entries, ranked, n.value + 1, limit, most)
    else
      NoneFits(entries, ranked, if ranked == [] then 0 else 1, limit, most)
  }

  lemma NorOneFewer(entries: seq<Entry>, ranked: seq<nat>, k: nat, limit: nat, most: nat)
    requires InRange(entries, ranked) && k <= |ranked| && !Fits(entries, ranked, k, most)
    requires NoneFits(entries, ranked, k + 1, limit, most)
    ensures NoneFits(entries, ranked, k, limit, most)
  {
  }

  method Shrink(entries: seq<Entry>, ranked: seq<nat>, limit: nat, most: nat, fitting: nat) returns (n: Option<nat>)
    requires InRange(entries, ranked)
    requires fitting <= Cap(limit, ranked) && NoneFits(entries, ranked, fitting + 1, limit, most)
    ensures Largest(entries, ranked, limit, most, n)
  {
    for k := fitting + 1 downto 0
      invariant k == 0 ==> ranked == []
      invariant NoneFits(entries, ranked, k, limit, most)
    {
      if k == 0 && |ranked| > 0 {
        return None;
      }
      if Fits(entries, ranked, k, most) {
        return Some(k);
      }
      NorOneFewer(entries, ranked, k, limit, most);
    }
    return None;
  }

  // ----- What a host reads -----

  // The best so many, in order, and whether more matched.
  predicate OutputRead(payload: Doc, entries: seq<Entry>, ranked: seq<nat>, n: nat)
    requires InRange(entries, ranked)
  {
    && HoldsFlag(payload, "ok", true) && HoldsFlag(payload, "hasMore", n < |ranked|)
    && |Values(payload.members, "tools")| == 1
    && var tools := Values(payload.members, "tools")[0];
    && tools.Arr? && |tools.elements| == n <= |ranked|
    && forall k :: 0 <= k < n ==> tools.elements[k] == entries[ranked[k]].payload
  }

  ghost predicate LimitRead(payload: Doc, message: string) {
    && HoldsFlag(payload, "ok", false)
    && exists d :: Holds(payload, "error", d) && HoldsText(d, "kind", "OutputLimitExceeded") && HoldsText(d, "message", message)
  }

  predicate TextRead(reply: Doc, payload: Doc, isError: bool) {
    && HoldsFlag(reply, "isError", isError) && reply.Obj? && |Values(reply.members, "content")| == 1
    && var content := Values(reply.members, "content")[0];
    && content.Arr? && |content.elements| == 1 && LeadRead(content.elements[0], payload)
  }

  ghost predicate SearchRead(reply: Doc, entries: seq<Entry>, ranked: seq<nat>, n: Option<nat>, message: string)
    requires InRange(entries, ranked)
  {
    exists payload :: TextRead(reply, payload, n.None?)
                      && if n.Some? then OutputRead(payload, entries, ranked, n.value) else LimitRead(payload, message)
  }

  lemma TextReads(payload: Doc, isError: bool)
    ensures TextRead(TextReply(payload, isError), payload, isError)
  {
    var items := [TextItem(Encode(payload, false))];
    ReplyValues(None, items, isError, "content");
    ReplyValues(None, items, isError, "isError");
    ReadsLead(payload);
  }

  lemma OutputValues(entries: seq<Entry>, ranked: seq<nat>, n: nat, key: string)
    requires InRange(entries, ranked) && n <= |ranked|
    ensures Values(Output(entries, ranked, n).members, key)
         == If(key == "ok", Bool(true)) + If(key == "tools", Arr(Payloads(entries, ranked)[..n]))
            + If(key == "hasMore", Bool(n < |ranked|))
  {
    var a, b, c := Member("ok", Bool(true)), Member("tools", Arr(Payloads(entries, ranked)[..n])), Member("hasMore", Bool(n < |ranked|));
    ValuesConcat([a] + [b], [c], key);
    TwoValues(a, b, key);
    OneValue(c, key);
  }

  lemma OutputReads(entries: seq<Entry>, ranked: seq<nat>, n: nat)
    requires InRange(entries, ranked) && n <= |ranked|
    ensures OutputRead(Output(entries, ranked, n), entries, ranked, n)
  {
    OutputValues(entries, ranked, n, "ok");
    OutputValues(entries, ranked, n, "tools");
    OutputValues(entries, ranked, n, "hasMore");
  }

  lemma LimitReads(message: string)
    ensures LimitRead(LimitDoc(message), message)
  {
    var kind, text := Member("kind", Str("OutputLimitExceeded")), Member("message", Str(message));
    var d := Obj([kind] + [text]);
    TwoValues(kind, text, "kind");
    TwoValues(kind, text, "message");
    TwoValues(Member("ok", Bool(false)), Member("error", d), "ok");
    TwoValues(Member("ok", Bool(false)), Member("error", d), "error");
    assert Holds(LimitDoc(message), "error", d);
  }

  lemma SearchReads(entries: seq<Entry>, ranked: seq<nat>, n: Option<nat>, message: string)
    requires InRange(entries, ranked) && (n.Some? ==> n.value <= |ranked|)
    ensures SearchRead(if n.Some? then SearchReply(entries, ranked, n.value) else LimitReport(message), entries, ranked, n, message)
  {
    if n.Some? {
      TextReads(Output(entries, ranked, n.value), false);
      OutputReads(entries, ranked, n.value);
    } else {
      TextReads(LimitDoc(message), true);
      LimitReads(message);
    }
  }

  // As many of the best as the reply has room for, up to the limit; and where entries matched but
  // not one fits, a report of that.
  method Search(entries: seq<Entry>, terms: seq<string>, limit: nat, most: nat, limitMessage: string)
    returns (reply: Doc, ranked: seq<nat>, n: Option<nat>)
    requires forall k :: 0 <= k < |entries| ==> Prepared(entries[k])
    ensures Ranks(entries, terms, ranked) && Largest(entries, ranked, limit, most, n)
    ensures reply == if n.Some? then SearchReply(entries, ranked, n.value) else LimitReport(limitMessage)
    ensures SearchRead(reply, entries, ranked, n, limitMessage)
  {
    ranked := Rank(entries, terms);
    var fitting := Prune(entries, ranked, limit, most);
    n := Shrink(entries, ranked, limit, most, fitting);
    reply := if n.Some? then SearchReply(entries, ranked, n.value) else LimitReport(limitMessage);
    SearchReads(entries, ranked, n, limitMessage);
  }
}
