// server/tool_catalog.go: the report of a batch, the reply it is sent in, and what that reply measures.
module CatalogReport {
  import opened Wrappers
  import opened Wire
  import opened ToolReply
  import Decimal

  // ----- What a call came to -----

  datatype Outcome = Outcome(isError: bool, items: seq<Doc>, structured: seq<Member>, meta: seq<Member>)

  datatype Entry = Entry(
    index: nat, name: string, isError: bool, content: seq<Doc>, structured: seq<Member>, meta: seq<Member>,
    contentSizes: seq<nat>, metaSize: nat, unencodable: bool)

  // Only objects are content items.
  function Objects(items: seq<Doc>): seq<Doc> {
    if items == [] then []
    else Objects(items[..|items| - 1]) + if items[|items| - 1].Obj? then [items[|items| - 1]] else []
  }

  predicate AllEncodable(items: seq<Doc>) {
    forall i :: 0 <= i < |items| ==> Encodable(items[i])
  }

  lemma EncodableAppended(items: seq<Doc>, item: Doc)
    ensures AllEncodable(items + [item]) <==> AllEncodable(items) && Encodable(item)
  {
    assert (items + [item])[|items|] == item;
    assert (items + [item])[..|items|] == items;
  }

  // The sizes kept beside an entry are those its parts have on the wire.
  predicate Measured(e: Entry) {
    && |e.contentSizes| == |e.content|
    && (e.unencodable <==> !AllEncodable(e.content) || !Encodable(Obj(e.meta)))
    && (!e.unencodable ==>
          && (forall i :: 0 <= i < |e.content| ==> e.contentSizes[i] == Bytes(Encode(e.content[i], true)))
          && (e.meta != [] ==> e.metaSize == Bytes(Encode(Obj(e.meta), true))))
  }

  // The entry of an outcome carries every part of it.
  predicate Carries(e: Entry, index: nat, name: string, o: Outcome) {
    && e.index == index && e.name == name && e.isError == o.isError
    && e.content == Objects(o.items) && e.structured == o.structured && e.meta == o.meta
    && Measured(e)
  }

  function WireSize(d: Doc): Option<nat> {
    if Encodable(d) then Some(Bytes(Encode(d, true))) else None
  }

  method EntryFor(index: nat, name: string, o: Outcome) returns (e: Entry)
    ensures Carries(e, index, name, o)
  {
    var content: seq<Doc>, sizes: seq<nat>, bad := [], [], false;
    for i := 0 to |o.items|
      invariant content == Objects(o.items[..i]) && |sizes| == |content|
      invariant bad <==> !AllEncodable(content)
      invariant !bad ==> forall k :: 0 <= k < |content| ==> sizes[k] == Bytes(Encode(content[k], true))
    {
      assert o.items[..i + 1][..i] == o.items[..i];
      if !o.items[i].Obj? {
        continue;
      }
      var size := WireSize(o.items[i]);
      EncodableAppended(content, o.items[i]);
      content, sizes := content + [o.items[i]], sizes + [if size.Some? then size.value else 0];
      bad := bad || size.None?;
    }
    assert o.items[..|o.items|] == o.items;
    var metaSize := 0;
    if |o.meta| > 0 {
      var size := WireSize(Obj(o.meta));
      bad := bad || size.None?;
      metaSize := if size.Some? then size.value else 0;
    }
    e := Entry(index, name, o.isError, content, o.structured, o.meta, sizes, metaSize, bad);
  }

  // ----- The report -----

  datatype Record = Record(name: string, index: nat, isError: bool, contentItems: nat, structured: seq<Member>)

  datatype Fault = Fault(kind: string, message: string)

  datatype Omitted = Omitted(name: string, index: nat)

  datatype Report = Report(
    ok: bool, complete: bool, failure: Option<Fault>, results: seq<Record>, omitted: Option<Omitted>,
    requested: nat, attempted: nat, reported: nat)

  function RecordOf(e: Entry): Record {
    Record(e.name, e.index, e.isError, |e.content|, e.structured)
  }

  function Records(kept: seq<Entry>): seq<Record> {
    seq(|kept|, i requires 0 <= i < |kept| => RecordOf(kept[i]))
  }

  // The report as it is rendered: its counters say what it carries.
  function Filled(report: Report, kept: seq<Entry>): Report {
    report.(results := Records(kept), reported := |kept|,
            complete := report.attempted == report.requested && |kept| == report.attempted)
  }

  function Count(n: nat): Doc {
    Num(Decimal.DecimalText(n))
  }

  function RecordDoc(r: Record): Doc {
    Obj([Member("name", Str(r.name))] + [Member("index", Count(r.index))] + [Member("isError", Bool(r.isError))]
        + [Member("contentItems", Count(r.contentItems))]
        + if r.structured == [] then [] else [Member("structuredContent", Obj(r.structured))])
  }

  function RecordDocs(records: seq<Record>): seq<Doc> {
    seq(|records|, i requires 0 <= i < |records| => RecordDoc(records[i]))
  }

  function Flags(r: Report): seq<Member> {
    [Member("ok", Bool(r.ok))] + [Member("complete", Bool(r.complete))]
  }

  function FailureMember(f: Fault): Member {
    Member("error", Obj([Member("kind", Str(f.kind))] + [Member("message", Str(f.message))]))
  }

  function FailureMembers(f: Option<Fault>): seq<Member> {
    if f.Some? then [FailureMember(f.value)] else []
  }

  function OmittedMember(o: Omitted): Member {
    Member("omittedToolCall", Obj([Member("name", Str(o.name))] + [Member("index", Count(o.index))]))
  }

  function OmittedMembers(o: Option<Omitted>): seq<Member> {
    if o.Some? then [OmittedMember(o.value)] else []
  }

  function ResultsMember(records: seq<Record>): Member {
    Member("results", Arr(RecordDocs(records)))
  }

  function Counters(r: Report): seq<Member> {
    [Member("requestedToolCalls", Count(r.requested))]
    + ([Member("attemptedToolCalls", Count(r.attempted))] + [Member("reportedToolCalls", Count(r.reported))])
  }

  function ReportDoc(r: Report): Doc {
    Obj(Flags(r) + (FailureMembers(r.failure) + ([ResultsMember(r.results)] + (OmittedMembers(r.omitted) + Counters(r)))))
  }

  // ----- The reply -----

  function AllContent(kept: seq<Entry>): seq<Doc> {
    if kept == [] then [] else AllContent(kept[..|kept| - 1]) + kept[|kept| - 1].content
  }

  const NOTHING := Obj([])

  function MetaDoc(e: Entry, placeholder: bool): Doc {
    Obj([Member("index", Count(e.index))]
        + ([Member("meta", if placeholder then NOTHING else Obj(e.meta))] + [Member("name", Str(e.name))]))
  }

  function Metas(kept: seq<Entry>, placeholder: bool): seq<Doc> {
    if kept == [] then []
    else
      Metas(kept[..|kept| - 1], placeholder)
      + if kept[|kept| - 1].meta == [] then [] else [MetaDoc(kept[|kept| - 1], placeholder)]
  }

  const META_KEY := "com.velocitykode.mcp/toolCatalog"

  function BatchMeta(metas: seq<Doc>): Option<Doc> {
    if metas == [] then None else Some(Obj([Member(META_KEY, Obj([Member("results", Arr(metas))]))]))
  }

  // The report leads, the content of every kept call follows in order, and its metadata goes along.
  function Reply(report: Report, kept: seq<Entry>): Doc {
    ToolResult(BatchMeta(Metas(kept, false)), [TextItem(Encode(ReportDoc(report), false))] + AllContent(kept), !report.ok)
  }

  // ----- The stand-in -----

  function Placeholders(n: nat): (ds: seq<Doc>)
    ensures |ds| == n
  {
    if n == 0 then [] else Placeholders(n - 1) + [NOTHING]
  }

  // The reply with a placeholder for every forwarded part.
  function StandIn(report: Report, kept: seq<Entry>): Doc {
    ToolResult(BatchMeta(Metas(kept, true)),
               [TextItem(Encode(ReportDoc(report), false))] + Placeholders(|AllContent(kept)|), !report.ok)
  }

  function ContentHeld(sizes: seq<nat>): int {
    Total(sizes) - 2 * |sizes|
  }

  function EntryHeld(e: Entry): int {
    ContentHeld(e.contentSizes) + if e.meta == [] then 0 else e.metaSize - 2
  }

  function Held(kept: seq<Entry>): int {
    if kept == [] then 0 else Held(kept[..|kept| - 1]) + EntryHeld(kept[|kept| - 1])
  }

  predicate AllMeasured(kept: seq<Entry>) {
    forall i :: 0 <= i < |kept| ==> Measured(kept[i]) && !kept[i].unencodable
  }

  lemma NothingSize()
    ensures Size(NOTHING) == 2
  {
    ObjSize([]);
  }

  lemma OneElement(d: Doc)
    ensures Total(ElementSizes([d])) == Size(d)
  {
    assert ElementSizes([d]) == [Size(d)];
    OneTotal(Size(d));
  }

  lemma {:induction false} PlaceholdersTotal(n: nat)
    ensures Total(ElementSizes(Placeholders(n))) == 2 * n
  {
    if n == 0 {
    } else {
      PlaceholdersTotal(n - 1);
      ElementsConcat(Placeholders(n - 1), [NOTHING]);
      NothingSize();
      OneElement(NOTHING);
    }
  }

  function ContentTotal(kept: seq<Entry>): int {
    if kept == [] then 0 else ContentTotal(kept[..|kept| - 1]) + ContentHeld(kept[|kept| - 1].contentSizes)
  }

  function MetaTotal(kept: seq<Entry>): int {
    if kept == [] then 0
    else MetaTotal(kept[..|kept| - 1]) + if kept[|kept| - 1].meta == [] then 0 else kept[|kept| - 1].metaSize - 2
  }

  lemma {:induction false} HeldSplits(kept: seq<Entry>)
    ensures Held(kept) == ContentTotal(kept) + MetaTotal(kept)
  {
    if kept == [] {
    } else {
      HeldSplits(kept[..|kept| - 1]);
    }
  }

  lemma MeasuredSizes(e: Entry)
    requires Measured(e) && !e.unencodable
    ensures ElementSizes(e.content) == e.contentSizes
    ensures e.meta != [] ==> Size(Obj(e.meta)) == e.metaSize
  {
    forall i | 0 <= i < |e.content| ensures Size(e.content[i]) == e.contentSizes[i] {
      SizeIsBytes(e.content[i]);
    }
    SizeIsBytes(Obj(e.meta));
  }

  lemma {:induction false} ContentSubstituted(kept: seq<Entry>)
    requires AllMeasured(kept)
    ensures Total(ElementSizes(AllContent(kept))) == ContentTotal(kept) + 2 * |AllContent(kept)|
  {
    if kept == [] {
    } else {
      var front, last := kept[..|kept| - 1], kept[|kept| - 1];
      ContentSubstituted(front);
      ElementsConcat(AllContent(front), last.content);
      MeasuredSizes(last);
    }
  }

  lemma ThreeMembers(a: Member, b: Member, c: Member)
    ensures Size(Obj([a] + ([b] + [c]))) == 4 + MemberSize(a) + MemberSize(b) + MemberSize(c)
  {
    OneMember(a);
    PairObjSize([a], b, c);
  }

  lemma MetaDocSubstituted(e: Entry)
    requires Measured(e) && !e.unencodable && e.meta != []
    ensures Size(MetaDoc(e, false)) == Size(MetaDoc(e, true)) + e.metaSize - 2
  {
    MeasuredSizes(e);
    NothingSize();
    var a, c := Member("index", Count(e.index)), Member("name", Str(e.name));
    ThreeMembers(a, Member("meta", Obj(e.meta)), c);
    ThreeMembers(a, Member("meta", NOTHING), c);
  }

  lemma MetasGrow(front: seq<Doc>, e: Entry, placeholder: bool)
    ensures Total(ElementSizes(front + [MetaDoc(e, placeholder)])) == Total(ElementSizes(front)) + Size(MetaDoc(e, placeholder))
  {
    ElementsConcat(front, [MetaDoc(e, placeholder)]);
    OneElement(MetaDoc(e, placeholder));
  }

  lemma {:induction false} MetasSubstituted(kept: seq<Entry>)
    requires AllMeasured(kept)
    ensures |Metas(kept, false)| == |Metas(kept, true)|
    ensures Total(ElementSizes(Metas(kept, false))) == Total(ElementSizes(Metas(kept, true))) + MetaTotal(kept)
  {
    if kept == [] {
    } else {
      var front, last := kept[..|kept| - 1], kept[|kept| - 1];
      MetasSubstituted(front);
      if last.meta == [] {
        assert Metas(kept, false) == Metas(front, false) && Metas(kept, true) == Metas(front, true);
      } else {
        MetasGrow(Metas(front, false), last, false);
        MetasGrow(Metas(front, true), last, true);
        MetaDocSubstituted(last);
      }
    }
  }

  lemma OneMemberObj(m: Member)
    ensures Size(Obj([m])) == 2 + MemberSize(m)
  {
    ObjSize([m]);
    OneMember(m);
  }

  lemma BatchMetaSize(metas: seq<Doc>)
    ensures MetaSize(BatchMeta(metas)) == if metas == [] then 0 else 19 + Weight(META_KEY) + Weight("results") + Size(Arr(metas))
  {
    if metas != [] {
      OneMemberObj(Member("results", Arr(metas)));
      OneMemberObj(Member(META_KEY, Obj([Member("results", Arr(metas))])));
    }
  }

  // The stand-in with the real sizes added back measures what the real reply does, byte for byte.
  lemma Substitution(report: Report, kept: seq<Entry>)
    requires AllMeasured(kept)
    ensures Bytes(Encode(Reply(report, kept), true)) == Bytes(Encode(StandIn(report, kept), true)) + Held(kept)
  {
    var text := Encode(ReportDoc(report), false);
    SizeIsBytes(Reply(report, kept));
    SizeIsBytes(StandIn(report, kept));
    LedSize(BatchMeta(Metas(kept, false)), text, AllContent(kept), !report.ok);
    LedSize(BatchMeta(Metas(kept, true)), text, Placeholders(|AllContent(kept)|), !report.ok);
    ContentSubstituted(kept);
    PlaceholdersTotal(|AllContent(kept)|);
    MetasSubstituted(kept);
    BatchMetaSize(Metas(kept, false));
    BatchMetaSize(Metas(kept, true));
    ArrSize(Metas(kept, false));
    ArrSize(Metas(kept, true));
    HeldSplits(kept);
  }
}
