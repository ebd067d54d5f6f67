// server/tool_catalog.go: what a failure report weighs, and which of them can be rendered at all.
module CatalogFailure {
  import opened Wrappers
  import opened Wire
  import opened ToolReply
  import opened CatalogReport
  import opened Decimal

  // ----- Failure reports -----

  const KIND_LIMIT := "OutputLimitExceeded"
  const KIND_ENCODE := "OutputEncodingFailed"
  const ENCODE_MESSAGE := "The tool catalog " + "could not encode " + "the tool output."

  function LimitMessage(most: nat): string {
    "The tool output exceeded " + DecimalText(most) + " bytes."
  }

  const LIMIT := true
  const ENCODE := false

  function FailureOf(overLimit: bool, most: nat): Fault {
    if overLimit then Fault(KIND_LIMIT, LimitMessage(most)) else Fault(KIND_ENCODE, ENCODE_MESSAGE)
  }

  // What a host is told of the two failures.
  predicate Worded(f: Fault, overLimit: bool, most: nat) {
    if overLimit then f.kind == "OutputLimitExceeded" && f.message == "The tool output exceeded " + Itoa(most) + " bytes."
    else f.kind == "OutputEncodingFailed" && f.message == "The tool catalog could not encode the tool output."
  }

  lemma FailureWorded(overLimit: bool, most: nat)
    ensures Worded(FailureOf(overLimit, most), overLimit, most)
  {
  }

  // The failure that costs the most to report.
  function WorstFailure(most: nat): Fault {
    if |KIND_ENCODE| + |ENCODE_MESSAGE| >= |KIND_LIMIT| + |LimitMessage(most)| then FailureOf(ENCODE, most)
    else FailureOf(LIMIT, most)
  }

  function FailReport(requested: nat, index: nat, failure: Fault, called: string): Report {
    Report(false, false, Some(failure), [], Some(Omitted(called, index)), requested, index + 1, 0)
  }

  // What a text costs inside a report inside a reply.
  function Cost(text: string): nat {
    Weight(Escape(text, false))
  }

  function FailureCost(f: Fault): nat {
    Cost(f.kind) + Cost(f.message)
  }

  lemma PlainCost(text: string)
    requires PlainText(text)
    ensures Cost(text) == |text|
  {
    PlainWeight(text);
  }

  lemma DecimalPlain(n: nat)
    ensures PlainText(DecimalText(n))
  {
  }

  lemma PlainConcat(a: string, b: string)
    requires PlainText(a) && PlainText(b)
    ensures PlainText(a + b)
  {
  }

  lemma FailureTexts()
    ensures PlainText(KIND_LIMIT) && PlainText(KIND_ENCODE)
    ensures PlainText("The tool output exceeded ") && PlainText(" bytes.")
  {
  }

  lemma EncodeMessagePlain()
    ensures PlainText(ENCODE_MESSAGE)
  {
    var a, b, c := "The tool catalog ", "could not encode ", "the tool output.";
    assert PlainText(a) && PlainText(b) && PlainText(c);
    PlainConcat(a, b);
    PlainConcat(a + b, c);
  }

  lemma FailureCostIsLength(overLimit: bool, most: nat)
    ensures var f := FailureOf(overLimit, most); FailureCost(f) == |f.kind| + |f.message|
  {
    FailureTexts();
    EncodeMessagePlain();
    DecimalPlain(most);
    PlainConcat("The tool output exceeded ", DecimalText(most));
    PlainConcat("The tool output exceeded " + DecimalText(most), " bytes.");
    var f := FailureOf(overLimit, most);
    PlainCost(f.kind);
    PlainCost(f.message);
  }

  lemma WorstIsWorst(overLimit: bool, most: nat)
    ensures FailureCost(FailureOf(overLimit, most)) <= FailureCost(WorstFailure(most))
  {
    FailureCostIsLength(LIMIT, most);
    FailureCostIsLength(ENCODE, most);
  }

  // ----- What a report weighs -----

  lemma KeyBurden(key: string, value: Doc)
    requires PlainText(key)
    ensures MemberBurden(Member(key, value)) == |key| + 5 + Burden(value)
  {
    PlainCost(key);
  }

  lemma PairBurden(a: Member, b: Member)
    ensures Total(MemberBurdens([a] + [b])) == MemberBurden(a) + MemberBurden(b)
    ensures Burden(Obj([a] + [b])) == 3 + MemberBurden(a) + MemberBurden(b)
  {
    BurdensConcat([a], [b]);
    OneBurden(a);
    OneBurden(b);
    ObjBurden([a] + [b]);
  }

  lemma ReportKeys()
    ensures PlainText("error") && PlainText("kind") && PlainText("message")
    ensures PlainText("omittedToolCall") && PlainText("name") && PlainText("index")
  {
  }

  lemma FaultObjBurden(f: Fault)
    ensures Burden(Obj([Member("kind", Str(f.kind))] + [Member("message", Str(f.message))])) == 32 + FailureCost(f)
  {
    ReportKeys();
    KeyBurden("kind", Str(f.kind));
    KeyBurden("message", Str(f.message));
    PairBurden(Member("kind", Str(f.kind)), Member("message", Str(f.message)));
  }

  lemma FailureBurden(f: Fault)
    ensures MemberBurden(FailureMember(f)) == 42 + FailureCost(f)
  {
    ReportKeys();
    FaultObjBurden(f);
    KeyBurden("error", Obj([Member("kind", Str(f.kind))] + [Member("message", Str(f.message))]));
  }

  lemma OmittedBurden(o: Omitted)
    ensures MemberBurden(OmittedMember(o)) == 46 + Cost(o.name) + Burden(Count(o.index))
  {
    ReportKeys();
    KeyBurden("name", Str(o.name));
    KeyBurden("index", Count(o.index));
    PairBurden(Member("name", Str(o.name)), Member("index", Count(o.index)));
    KeyBurden("omittedToolCall", Obj([Member("name", Str(o.name))] + [Member("index", Count(o.index))]));
  }

  lemma SectionsBurden(a: seq<Member>, b: seq<Member>, c: seq<Member>, d: seq<Member>, e: seq<Member>)
    ensures Total(MemberBurdens(a + (b + (c + (d + e)))))
         == Total(MemberBurdens(a)) + Total(MemberBurdens(b)) + Total(MemberBurdens(c))
            + Total(MemberBurdens(d)) + Total(MemberBurdens(e))
  {
    BurdensConcat(a, b + (c + (d + e)));
    BurdensConcat(b, c + (d + e));
    BurdensConcat(c, d + e);
    BurdensConcat(d, e);
  }

  // What a failure report weighs apart from the texts that vary.
  function FailBase(r: Report): nat {
    9 + Total(MemberBurdens(Flags(r))) + MemberBurden(ResultsMember(r.results)) + Total(MemberBurdens(Counters(r)))
    + 88 + if r.omitted.Some? then Burden(Count(r.omitted.value.index)) else 0
  }

  lemma FailBurden(r: Report)
    requires r.failure.Some? && r.omitted.Some?
    ensures Burden(ReportDoc(r)) == FailBase(r) + FailureCost(r.failure.value) + Cost(r.omitted.value.name)
  {
    var f, results, o := FailureMember(r.failure.value), ResultsMember(r.results), OmittedMember(r.omitted.value);
    SectionsBurden(Flags(r), [f], [results], [o], Counters(r));
    OneBurden(f);
    OneBurden(results);
    OneBurden(o);
    FailureBurden(r.failure.value);
    OmittedBurden(r.omitted.value);
    ObjBurden(Flags(r) + ([f] + ([results] + ([o] + Counters(r)))));
  }

  lemma ReplyWeighs(r: Report, kept: seq<Entry>)
    ensures Bytes(Encode(Reply(r, kept), true)) == Burden(ReportDoc(r)) + MetaSize(BatchMeta(Metas(kept, false)))
              + Total(ElementSizes(AllContent(kept))) + |AllContent(kept)| + if r.ok then 55 else 54
  {
    SizeIsBytes(Reply(r, kept));
    BurdenIsWeight(ReportDoc(r));
    LedSize(BatchMeta(Metas(kept, false)), Encode(ReportDoc(r), false), AllContent(kept), !r.ok);
  }

  function FailSize(requested: nat, index: nat, failure: Fault, called: string, kept: seq<Entry>): nat {
    Bytes(Encode(Reply(Filled(FailReport(requested, index, failure, called), kept), kept), true))
  }

  // A failure's reply costs what its texts do over the same reply without them.
  lemma FailSizeByTexts(requested: nat, index: nat, f: Fault, called: string, g: Fault, other: string, kept: seq<Entry>)
    ensures FailSize(requested, index, f, called, kept) + FailureCost(g) + Cost(other)
         == FailSize(requested, index, g, other, kept) + FailureCost(f) + Cost(called)
  {
    var r, s := Filled(FailReport(requested, index, f, called), kept), Filled(FailReport(requested, index, g, other), kept);
    ReplyWeighs(r, kept);
    ReplyWeighs(s, kept);
    FailBurden(r);
    FailBurden(s);
    assert Flags(r) == Flags(s) && Counters(r) == Counters(s);
  }

  // ----- Clipping -----

  function Clip(name: string, n: nat): string {
    if n >= |name| then name else name[..n] + "..."
  }

  lemma CostConcat(s: string, t: string)
    ensures Cost(s + t) == Cost(s) + Cost(t)
  {
    EscapeConcat(s, t, false);
    WeightConcat(Escape(s, false), Escape(t, false));
  }

  lemma CutCost(name: string, m: nat, n: nat)
    requires m <= n <= |name|
    ensures Cost(name[..m]) <= Cost(name[..n])
  {
    assert name[..n] == name[..m] + name[m..n];
    CostConcat(name[..m], name[m..n]);
  }

  lemma ClipCost(name: string, m: nat, n: nat)
    requires m <= n < |name|
    ensures Cost(Clip(name, m)) <= Cost(Clip(name, n))
  {
    CutCost(name, m, n);
    CostConcat(name[..m], "...");
    CostConcat(name[..n], "...");
  }

  predicate FailFits(requested: nat, index: nat, failure: Fault, called: string, kept: seq<Entry>, most: nat) {
    FailSize(requested, index, failure, called, kept) <= most
  }

  // The bare name fits wherever any name does, and whichever failure it is wherever the worst fits.
  lemma BareFits(requested: nat, index: nat, f: Fault, called: string, g: Fault, kept: seq<Entry>, most: nat)
    requires FailFits(requested, index, f, called, kept, most) && FailureCost(g) <= FailureCost(f)
    ensures FailFits(requested, index, g, "", kept, most)
  {
    FailSizeByTexts(requested, index, f, called, g, "", kept);
  }

  lemma ShorterFits(requested: nat, index: nat, f: Fault, name: string, m: nat, n: nat, kept: seq<Entry>, most: nat)
    requires m <= n <= |name| && !FailFits(requested, index, f, name, kept, most)
    requires FailFits(requested, index, f, Clip(name, n), kept, most)
    ensures FailFits(requested, index, f, Clip(name, m), kept, most)
  {
    if n < |name| {
      ClipCost(name, m, n);
      FailSizeByTexts(requested, index, f, Clip(name, m), f, Clip(name, n), kept);
    }
  }

  // The largest count that fits, nought when none does.
  method LongestFit(length: nat, fits: int -> bool) returns (n: nat)
    requires forall i, j :: 0 <= i <= j <= length && fits(j) ==> fits(i)
    ensures n <= length && (n == 0 || fits(n))
    ensures forall k :: n < k <= length ==> !fits(k)
  {
    var lo, hi := 0, length;
    while lo < hi
      invariant 0 <= lo <= hi <= length
      invariant lo == 0 || fits(lo)
      invariant forall k :: hi < k <= length ==> !fits(k)
    {
      var mid := (lo + hi + 1) / 2;
      if fits(mid) {
        lo := mid;
      } else {
        hi := mid - 1;
      }
    }
    n := lo;
  }

  // ----- What can be rendered -----

  predicate Renderable(e: Entry) {
    Measured(e) && !e.unencodable && Encodable(Obj(e.structured))
  }

  predicate AllRenderable(kept: seq<Entry>) {
    forall i :: 0 <= i < |kept| ==> Renderable(kept[i])
  }

  predicate EncodableMembers(ms: seq<Member>) {
    forall i :: 0 <= i < |ms| ==> Encodable(ms[i].value)
  }

  lemma EncodableJoined(a: seq<Member>, b: seq<Member>)
    ensures EncodableMembers(a + b) <==> EncodableMembers(a) && EncodableMembers(b)
  {
    forall i | 0 <= i < |a| ensures (a + b)[i] == a[i] {
    }
    forall i | 0 <= i < |b| ensures (a + b)[|a| + i] == b[i] {
    }
  }

  lemma OneEncodable(m: Member)
    ensures EncodableMembers([m]) <==> Encodable(m.value)
  {
    assert [m][0] == m;
  }

  lemma PairEncodable(a: Member, b: Member)
    ensures EncodableMembers([a] + [b]) <==> Encodable(a.value) && Encodable(b.value)
  {
    EncodableJoined([a], [b]);
    OneEncodable(a);
    OneEncodable(b);
  }

  lemma RecordEncodable(r: Record)
    ensures Encodable(RecordDoc(r)) <==> Encodable(Obj(r.structured))
  {
    var lead := [Member("name", Str(r.name))] + [Member("index", Count(r.index))] + [Member("isError", Bool(r.isError))]
                + [Member("contentItems", Count(r.contentItems))];
    var rest := if r.structured == [] then [] else [Member("structuredContent", Obj(r.structured))];
    EncodableJoined(lead, rest);
    assert EncodableMembers(lead);
    if r.structured != [] {
      OneEncodable(rest[0]);
    }
    assert Encodable(RecordDoc(r)) == EncodableMembers(lead + rest);
  }

  lemma SectionsEncodable(a: seq<Member>, b: seq<Member>, c: seq<Member>, d: seq<Member>, e: seq<Member>)
    ensures EncodableMembers(a + (b + (c + (d + e))))
       <==> EncodableMembers(a) && EncodableMembers(b) && EncodableMembers(c) && EncodableMembers(d) && EncodableMembers(e)
  {
    EncodableJoined(a, b + (c + (d + e)));
    EncodableJoined(b, c + (d + e));
    EncodableJoined(c, d + e);
    EncodableJoined(d, e);
  }

  lemma FixedEncodable(r: Report)
    ensures EncodableMembers(Flags(r)) && EncodableMembers(Counters(r))
    ensures EncodableMembers(FailureMembers(r.failure)) && EncodableMembers(OmittedMembers(r.omitted))
  {
    if r.failure.Some? {
      var f := r.failure.value;
      PairEncodable(Member("kind", Str(f.kind)), Member("message", Str(f.message)));
    }
    if r.omitted.Some? {
      var o := r.omitted.value;
      PairEncodable(Member("name", Str(o.name)), Member("index", Count(o.index)));
    }
  }

  lemma RecordsEncodable(records: seq<Record>)
    ensures Encodable(Arr(RecordDocs(records))) <==> forall i :: 0 <= i < |records| ==> Encodable(Obj(records[i].structured))
  {
    forall i | 0 <= i < |records| ensures Encodable(RecordDocs(records)[i]) <==> Encodable(Obj(records[i].structured)) {
      RecordEncodable(records[i]);
    }
    var ds := RecordDocs(records);
    assert Encodable(Arr(ds)) <==> forall i :: 0 <= i < |ds| ==> Encodable(ds[i]);
  }

  lemma ReportEncodable(r: Report)
    ensures Encodable(ReportDoc(r)) <==> forall i :: 0 <= i < |r.results| ==> Encodable(Obj(r.results[i].structured))
  {
    var sections := Flags(r) + (FailureMembers(r.failure) + ([ResultsMember(r.results)] + (OmittedMembers(r.omitted) + Counters(r))));
    SectionsEncodable(Flags(r), FailureMembers(r.failure), [ResultsMember(r.results)], OmittedMembers(r.omitted), Counters(r));
    FixedEncodable(r);
    OneEncodable(ResultsMember(r.results));
    RecordsEncodable(r.results);
    assert Encodable(ReportDoc(r)) == EncodableMembers(sections);
  }
}
