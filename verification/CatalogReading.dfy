// What a host that reads a batch's reply finds in it, key by key (server/tool_catalog.go).
module CatalogReading {
  import opened Wrappers
  import opened Wire
  import opened ToolReply
  import opened DocReader
  import opened CatalogReport
  import D = Decimal

  // ----- The report -----

  predicate RecordRead(d: Doc, e: Entry) {
    && HoldsText(d, "name", e.name) && HoldsNumber(d, "index", e.index) && HoldsFlag(d, "isError", e.isError)
    && HoldsNumber(d, "contentItems", |e.content|)
    && if e.structured == [] then Lacks(d, "structuredContent") else Holds(d, "structuredContent", Obj(e.structured))
  }

  predicate RecordsRead(d: Doc, kept: seq<Entry>) {
    d.Arr? && |d.elements| == |kept| && forall i :: 0 <= i < |kept| ==> RecordRead(d.elements[i], kept[i])
  }

  ghost predicate ResultsRead(payload: Doc, kept: seq<Entry>) {
    exists results :: Holds(payload, "results", results) && RecordsRead(results, kept)
  }

  ghost predicate FailureRead(payload: Doc, failure: Option<Fault>) {
    if failure.None? then Lacks(payload, "error")
    else exists d :: Holds(payload, "error", d) && HoldsText(d, "kind", failure.value.kind) && HoldsText(d, "message", failure.value.message)
  }

  ghost predicate OmittedRead(payload: Doc, omitted: Option<Omitted>) {
    if omitted.None? then Lacks(payload, "omittedToolCall")
    else exists d :: Holds(payload, "omittedToolCall", d) && HoldsText(d, "name", omitted.value.name) && HoldsNumber(d, "index", omitted.value.index)
  }

  predicate CountersRead(payload: Doc, requested: nat, attempted: nat, reported: nat) {
    && HoldsNumber(payload, "requestedToolCalls", requested) && HoldsNumber(payload, "attemptedToolCalls", attempted)
    && HoldsNumber(payload, "reportedToolCalls", reported)
  }

  // All went well as far as it goes, and all that was asked for is there.
  predicate FlagsRead(payload: Doc, ok: bool, complete: bool) {
    HoldsFlag(payload, "ok", ok) && HoldsFlag(payload, "complete", complete)
  }

  // ----- The reply around it -----

  // The content of the calls, one after another, each as many items as its record counts.
  predicate ContentRead(items: seq<Doc>, kept: seq<Entry>) {
    if kept == [] then items == []
    else
      var n := |kept[0].content|;
      |items| >= n && items[..n] == kept[0].content && ContentRead(items[n..], kept[1..])
  }

  predicate MetaRead(d: Doc, e: Entry) {
    HoldsNumber(d, "index", e.index) && HoldsText(d, "name", e.name) && Holds(d, "meta", Obj(e.meta))
  }

  // The metadata of the calls that have any, one entry for each.
  predicate MetasRead(metas: seq<Doc>, kept: seq<Entry>) {
    if kept == [] then metas == []
    else if kept[0].meta == [] then MetasRead(metas, kept[1..])
    else metas != [] && MetaRead(metas[0], kept[0]) && MetasRead(metas[1..], kept[1..])
  }

  ghost predicate ChannelRead(reply: Doc, kept: seq<Entry>) {
    if forall i :: 0 <= i < |kept| ==> kept[i].meta == [] then Lacks(reply, "_meta")
    else
      exists meta, catalog, metas ::
        && Holds(reply, "_meta", meta) && Holds(meta, "com.velocitykode.mcp/toolCatalog", catalog)
        && Holds(catalog, "results", Arr(metas)) && MetasRead(metas, kept)
  }

  ghost predicate ItemsRead(reply: Doc, payload: Doc, kept: seq<Entry>) {
    exists items :: Holds(reply, "content", Arr(items)) && items != [] && LeadRead(items[0], payload) && ContentRead(items[1..], kept)
  }

  // All that can be read out of a reply: of the batch, from the payload its leading text item encodes, of
  // the calls, from their records, the content behind the payload and the metadata beside it.
  ghost predicate Reads(
    reply: Doc, payload: Doc, kept: seq<Entry>, requested: nat, attempted: nat, failure: Option<Fault>, omitted: Option<Omitted>)
  {
    var ok := omitted.None? && forall i :: 0 <= i < |kept| ==> !kept[i].isError;
    && HoldsFlag(reply, "isError", !ok) && ItemsRead(reply, payload, kept) && ChannelRead(reply, kept)
    && FlagsRead(payload, ok, |kept| == requested)
    && CountersRead(payload, requested, attempted, |kept|)
    && FailureRead(payload, failure) && OmittedRead(payload, omitted) && ResultsRead(payload, kept)
  }

  // ----- What the documents hold -----

  lemma CountIsNumeral(n: nat)
    ensures Numeral(Count(n), n)
  {
    if n == 0 {
      assert D.Itoa(0) == "0";
    }
  }

  // What the sections of a report hold under a key.
  lemma Sections(a: seq<Member>, b: seq<Member>, c: seq<Member>, d: seq<Member>, e: seq<Member>, key: string)
    ensures Values(a + (b + (c + (d + e))), key)
         == Values(a, key) + (Values(b, key) + (Values(c, key) + (Values(d, key) + Values(e, key))))
  {
    ValuesConcat(a, b + (c + (d + e)), key);
    ValuesConcat(b, c + (d + e), key);
    ValuesConcat(c, d + e, key);
    ValuesConcat(d, e, key);
  }

  lemma FlagValues(r: Report, key: string)
    ensures Values(Flags(r), key) == If(key == "ok", Bool(r.ok)) + If(key == "complete", Bool(r.complete))
  {
    TwoValues(Member("ok", Bool(r.ok)), Member("complete", Bool(r.complete)), key);
  }

  lemma FailureValues(f: Option<Fault>, key: string)
    ensures Values(FailureMembers(f), key) == if f.Some? then If(key == "error", FailureMember(f.value).value) else []
  {
    if f.Some? {
      OneValue(FailureMember(f.value), key);
    }
  }

  lemma ResultsValues(records: seq<Record>, key: string)
    ensures Values([ResultsMember(records)], key) == If(key == "results", Arr(RecordDocs(records)))
  {
    OneValue(ResultsMember(records), key);
  }

  lemma OmittedValues(o: Option<Omitted>, key: string)
    ensures Values(OmittedMembers(o), key) == if o.Some? then If(key == "omittedToolCall", OmittedMember(o.value).value) else []
  {
    if o.Some? {
      OneValue(OmittedMember(o.value), key);
    }
  }

  lemma CounterValues(r: Report, key: string)
    ensures Values(Counters(r), key)
         == If(key == "requestedToolCalls", Count(r.requested))
            + (If(key == "attemptedToolCalls", Count(r.attempted)) + If(key == "reportedToolCalls", Count(r.reported)))
  {
    var a, b, c := Member("requestedToolCalls", Count(r.requested)), Member("attemptedToolCalls", Count(r.attempted)),
                   Member("reportedToolCalls", Count(r.reported));
    LedValues(a, [b] + [c], key);
    TwoValues(b, c, key);
  }

  lemma ReportValues(r: Report, key: string)
    ensures Values(ReportDoc(r).members, key)
         == Values(Flags(r), key) + (Values(FailureMembers(r.failure), key)
            + (Values([ResultsMember(r.results)], key) + (Values(OmittedMembers(r.omitted), key) + Values(Counters(r), key))))
  {
    Sections(Flags(r), FailureMembers(r.failure), [ResultsMember(r.results)], OmittedMembers(r.omitted), Counters(r), key);
  }

  // Where each key stands.
  lemma InFlags(r: Report, key: string)
    requires key == "ok" || key == "complete"
    ensures Values(ReportDoc(r).members, key) == Values(Flags(r), key)
  {
    ReportValues(r, key);
    FailureValues(r.failure, key);
    ResultsValues(r.results, key);
    OmittedValues(r.omitted, key);
    CounterValues(r, key);
  }

  lemma InFailure(r: Report, key: string)
    requires key == "error"
    ensures Values(ReportDoc(r).members, key) == Values(FailureMembers(r.failure), key)
  {
    ReportValues(r, key);
    FlagValues(r, key);
    ResultsValues(r.results, key);
    OmittedValues(r.omitted, key);
    CounterValues(r, key);
  }

  lemma InResults(r: Report, key: string)
    requires key == "results"
    ensures Values(ReportDoc(r).members, key) == Values([ResultsMember(r.results)], key)
  {
    ReportValues(r, key);
    FlagValues(r, key);
    FailureValues(r.failure, key);
    OmittedValues(r.omitted, key);
    CounterValues(r, key);
  }

  lemma InOmitted(r: Report, key: string)
    requires key == "omittedToolCall"
    ensures Values(ReportDoc(r).members, key) == Values(OmittedMembers(r.omitted), key)
  {
    ReportValues(r, key);
    FlagValues(r, key);
    FailureValues(r.failure, key);
    ResultsValues(r.results, key);
    CounterValues(r, key);
  }

  lemma InCounters(r: Report, key: string)
    requires key == "requestedToolCalls" || key == "attemptedToolCalls" || key == "reportedToolCalls"
    ensures Values(ReportDoc(r).members, key) == Values(Counters(r), key)
  {
    ReportValues(r, key);
    FlagValues(r, key);
    FailureValues(r.failure, key);
    ResultsValues(r.results, key);
    OmittedValues(r.omitted, key);
  }

  // ----- Reading a report -----

  lemma ReadsFlags(r: Report)
    ensures FlagsRead(ReportDoc(r), r.ok, r.complete)
  {
    InFlags(r, "ok");
    InFlags(r, "complete");
    FlagValues(r, "ok");
    FlagValues(r, "complete");
  }

  lemma ReadsCounter(r: Report, key: string, n: nat)
    requires (key == "requestedToolCalls" && n == r.requested) || (key == "attemptedToolCalls" && n == r.attempted)
          || (key == "reportedToolCalls" && n == r.reported)
    ensures HoldsNumber(ReportDoc(r), key, n)
  {
    InCounters(r, key);
    CounterValues(r, key);
    CountIsNumeral(n);
  }

  lemma ReadsCounters(r: Report)
    ensures CountersRead(ReportDoc(r), r.requested, r.attempted, r.reported)
  {
    ReadsCounter(r, "requestedToolCalls", r.requested);
    ReadsCounter(r, "attemptedToolCalls", r.attempted);
    ReadsCounter(r, "reportedToolCalls", r.reported);
  }

  lemma FaultHolds(f: Fault)
    ensures HoldsText(FailureMember(f).value, "kind", f.kind) && HoldsText(FailureMember(f).value, "message", f.message)
  {
    TwoValues(Member("kind", Str(f.kind)), Member("message", Str(f.message)), "kind");
    TwoValues(Member("kind", Str(f.kind)), Member("message", Str(f.message)), "message");
  }

  lemma ReadsFailure(r: Report)
    ensures FailureRead(ReportDoc(r), r.failure)
  {
    InFailure(r, "error");
    FailureValues(r.failure, "error");
    if r.failure.Some? {
      FaultHolds(r.failure.value);
      assert Holds(ReportDoc(r), "error", FailureMember(r.failure.value).value);
    }
  }

  lemma OmittedHolds(o: Omitted)
    ensures HoldsText(OmittedMember(o).value, "name", o.name) && HoldsNumber(OmittedMember(o).value, "index", o.index)
  {
    TwoValues(Member("name", Str(o.name)), Member("index", Count(o.index)), "name");
    TwoValues(Member("name", Str(o.name)), Member("index", Count(o.index)), "index");
    CountIsNumeral(o.index);
  }

  lemma ReadsOmitted(r: Report)
    ensures OmittedRead(ReportDoc(r), r.omitted)
  {
    InOmitted(r, "omittedToolCall");
    OmittedValues(r.omitted, "omittedToolCall");
    if r.omitted.Some? {
      OmittedHolds(r.omitted.value);
      assert Holds(ReportDoc(r), "omittedToolCall", OmittedMember(r.omitted.value).value);
    }
  }

  lemma RecordValues(r: Record, key: string)
    ensures Values(RecordDoc(r).members, key)
         == If(key == "name", Str(r.name)) + If(key == "index", Count(r.index)) + If(key == "isError", Bool(r.isError))
            + If(key == "contentItems", Count(r.contentItems))
            + If(key == "structuredContent" && r.structured != [], Obj(r.structured))
  {
    var a, b, c, d := Member("name", Str(r.name)), Member("index", Count(r.index)), Member("isError", Bool(r.isError)),
                      Member("contentItems", Count(r.contentItems));
    var rest := if r.structured == [] then [] else [Member("structuredContent", Obj(r.structured))];
    ValuesConcat([a] + [b] + [c] + [d], rest, key);
    ValuesConcat([a] + [b] + [c], [d], key);
    ValuesConcat([a] + [b], [c], key);
    TwoValues(a, b, key);
    OneValue(c, key);
    OneValue(d, key);
    if r.structured != [] {
      OneValue(rest[0], key);
    }
  }

  lemma ReadsRecord(e: Entry)
    ensures RecordRead(RecordDoc(RecordOf(e)), e)
  {
    var r := RecordOf(e);
    RecordValues(r, "name");
    RecordValues(r, "index");
    RecordValues(r, "isError");
    RecordValues(r, "contentItems");
    RecordValues(r, "structuredContent");
    CountIsNumeral(e.index);
    CountIsNumeral(|e.content|);
  }

  lemma ReadsResults(r: Report, kept: seq<Entry>)
    requires r.results == Records(kept)
    ensures ResultsRead(ReportDoc(r), kept)
  {
    InResults(r, "results");
    ResultsValues(r.results, "results");
    var d := Arr(RecordDocs(r.results));
    forall i | 0 <= i < |kept| ensures RecordRead(d.elements[i], kept[i]) {
      ReadsRecord(kept[i]);
    }
    assert Holds(ReportDoc(r), "results", d);
  }

  // ----- Reading a reply -----

  // The middle, whichever end is taken off first.
  lemma Middle(kept: seq<Entry>)
    requires |kept| > 1
    ensures var rest := kept[1..];
            kept[..|kept| - 1][1..] == rest[..|rest| - 1] && rest[|rest| - 1] == kept[|kept| - 1] && kept[..|kept| - 1][0] == kept[0]
  {
  }

  lemma {:induction false} ContentLed(kept: seq<Entry>)
    requires kept != []
    ensures AllContent(kept) == kept[0].content + AllContent(kept[1..])
    decreases |kept|
  {
    var front, last := kept[..|kept| - 1], kept[|kept| - 1];
    if |kept| == 1 {
      assert front == [] && kept[1..] == [];
    } else {
      ContentLed(front);
      Middle(kept);
      DocsRegrouped(kept[0].content, AllContent(front[1..]), last.content);
    }
  }

  lemma {:induction false} ReadsContent(kept: seq<Entry>)
    ensures ContentRead(AllContent(kept), kept)
    decreases |kept|
  {
    if kept == [] {
    } else {
      ContentLed(kept);
      ReadsContent(kept[1..]);
      var n := |kept[0].content|;
      assert AllContent(kept)[..n] == kept[0].content && AllContent(kept)[n..] == AllContent(kept[1..]);
    }
  }

  lemma ReadsItems(report: Report, kept: seq<Entry>)
    ensures ItemsRead(Reply(report, kept), ReportDoc(report), kept)
  {
    var lead := TextItem(Encode(ReportDoc(report), false));
    var items := [lead] + AllContent(kept);
    ReplyValues(BatchMeta(Metas(kept, false)), items, !report.ok, "content");
    ReadsLead(ReportDoc(report));
    ReadsContent(kept);
    assert items[1..] == AllContent(kept);
    assert Holds(Reply(report, kept), "content", Arr(items));
  }

  function MetaOf(e: Entry): seq<Doc> {
    if e.meta == [] then [] else [MetaDoc(e, false)]
  }

  lemma MetasLast(kept: seq<Entry>)
    requires kept != []
    ensures Metas(kept, false) == Metas(kept[..|kept| - 1], false) + MetaOf(kept[|kept| - 1])
  {
  }

  lemma {:induction false} MetasLed(kept: seq<Entry>)
    requires kept != []
    ensures Metas(kept, false) == MetaOf(kept[0]) + Metas(kept[1..], false)
    decreases |kept|
  {
    var front, last := kept[..|kept| - 1], kept[|kept| - 1];
    MetasLast(kept);
    if |kept| == 1 {
      assert front == [] && kept[1..] == [];
    } else {
      MetasLed(front);
      Middle(kept);
      MetasLast(kept[1..]);
      DocsRegrouped(MetaOf(kept[0]), Metas(front[1..], false), MetaOf(last));
    }
  }

  lemma ReadsMeta(e: Entry)
    ensures MetaRead(MetaDoc(e, false), e)
  {
    var a, b, c := Member("index", Count(e.index)), Member("meta", Obj(e.meta)), Member("name", Str(e.name));
    LedValues(a, [b] + [c], "index");
    TwoValues(b, c, "index");
    LedValues(a, [b] + [c], "name");
    TwoValues(b, c, "name");
    LedValues(a, [b] + [c], "meta");
    TwoValues(b, c, "meta");
    CountIsNumeral(e.index);
  }

  lemma {:induction false} ReadsMetas(kept: seq<Entry>)
    ensures MetasRead(Metas(kept, false), kept)
    ensures Metas(kept, false) == [] <==> forall i :: 0 <= i < |kept| ==> kept[i].meta == []
    decreases |kept|
  {
    if kept == [] {
    } else {
      MetasLed(kept);
      ReadsMetas(kept[1..]);
      forall i | 0 < i < |kept| ensures kept[i] == kept[1..][i - 1] {
      }
      if kept[0].meta == [] {
        assert Metas(kept, false) == Metas(kept[1..], false);
      } else {
        ReadsMeta(kept[0]);
        assert Metas(kept, false)[1..] == Metas(kept[1..], false);
      }
    }
  }

  lemma ReadsChannel(report: Report, kept: seq<Entry>)
    ensures ChannelRead(Reply(report, kept), kept)
  {
    var metas := Metas(kept, false);
    var items := [TextItem(Encode(ReportDoc(report), false))] + AllContent(kept);
    ReplyValues(BatchMeta(metas), items, !report.ok, "_meta");
    ReadsMetas(kept);
    if metas != [] {
      var catalog := Obj([Member("results", Arr(metas))]);
      OneValue(Member("results", Arr(metas)), "results");
      OneValue(Member(META_KEY, catalog), META_KEY);
      assert Holds(catalog, "results", Arr(metas));
      assert Holds(Obj([Member(META_KEY, catalog)]), META_KEY, catalog);
      assert Holds(Reply(report, kept), "_meta", Obj([Member(META_KEY, catalog)]));
    }
  }

  lemma ReadsError(report: Report, kept: seq<Entry>)
    ensures HoldsFlag(Reply(report, kept), "isError", !report.ok)
  {
    ReplyValues(BatchMeta(Metas(kept, false)), [TextItem(Encode(ReportDoc(report), false))] + AllContent(kept), !report.ok, "isError");
  }

  // The reply reads as what it was made from.
  lemma ReplyReads(report: Report, kept: seq<Entry>)
    requires report.results == Records(kept) && report.reported == |kept|
    requires report.ok == (report.omitted.None? && forall i :: 0 <= i < |kept| ==> !kept[i].isError)
    requires report.complete == (|kept| == report.requested)
    ensures Reads(Reply(report, kept), ReportDoc(report), kept, report.requested, report.attempted, report.failure, report.omitted)
  {
    ReadsError(report, kept);
    ReadsItems(report, kept);
    ReadsChannel(report, kept);
    ReadsFlags(report);
    ReadsCounters(report);
    ReadsFailure(report);
    ReadsOmitted(report);
    ReadsResults(report, kept);
  }
}
