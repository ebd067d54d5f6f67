// server/tool_catalog.go: the bounds on the limits leave every batch room for its first call and its reply.
module CatalogFloor {
  import opened Wrappers
  import opened Wire
  import opened ToolReply
  import opened CatalogReport
  import opened CatalogFailure
  import opened CatalogBatch
  import D = Decimal

  const LEAST_BYTES := 512
  const MOST_BYTES := 4194304
  const MOST_CALLS := 100

  lemma FewDigits(n: nat, k: nat)
    requires n < D.Pow10(k) && k > 0
    ensures |D.DecimalText(n)| <= k
  {
    var s := D.Itoa(n);
    if n > 0 && |s| > k {
      D.LeadingDigit(s);
      D.PowMonotone(k, |s| - 1);
    }
    if n == 0 {
      assert s == "0";
    }
  }

  lemma CountBurden(n: nat)
    requires n <= MOST_CALLS
    ensures Burden(Count(n)) <= 3
  {
    assert D.Pow10(3) == 1000;
    FewDigits(n, 3);
    DecimalPlain(n);
    PlainWeight(D.DecimalText(n));
  }

  lemma CounterKeys()
    ensures PlainText("requestedToolCalls") && PlainText("attemptedToolCalls") && PlainText("reportedToolCalls")
  {
  }

  lemma CountersBurden(r: Report)
    requires r.requested <= MOST_CALLS && r.attempted <= MOST_CALLS && r.reported <= MOST_CALLS
    ensures Total(MemberBurdens(Counters(r))) <= 77
  {
    var a, b, c := Member("requestedToolCalls", Count(r.requested)), Member("attemptedToolCalls", Count(r.attempted)),
                   Member("reportedToolCalls", Count(r.reported));
    CounterKeys();
    KeyBurden(a.key, a.value);
    KeyBurden(b.key, b.value);
    KeyBurden(c.key, c.value);
    CountBurden(r.requested);
    CountBurden(r.attempted);
    CountBurden(r.reported);
    PairBurden(b, c);
    BurdensConcat([a], [b] + [c]);
    OneBurden(a);
  }

  lemma FlagKeys()
    ensures PlainText("ok") && PlainText("complete") && PlainText("results")
  {
  }

  lemma FlagsBurden(r: Report)
    ensures Total(MemberBurdens(Flags(r))) <= 30
  {
    FlagKeys();
    KeyBurden("ok", Bool(r.ok));
    KeyBurden("complete", Bool(r.complete));
    PairBurden(Member("ok", Bool(r.ok)), Member("complete", Bool(r.complete)));
  }

  lemma NoResults(r: Report)
    requires r.results == []
    ensures MemberBurden(ResultsMember(r.results)) == 14
  {
    FlagKeys();
    KeyBurden("results", Arr(RecordDocs([])));
    ArrBurden([]);
    assert RecordDocs([]) == [];
  }

  lemma NothingCarried()
    ensures MetaSize(BatchMeta(Metas([], false))) == 0 && AllContent([]) == [] && Total(ElementSizes([])) == 0
  {
    assert ElementSizes([]) == [];
  }

  lemma FirstReport(requested: nat)
    requires requested <= MOST_CALLS
    ensures Bytes(Encode(Reply(Filled(OkReport(requested, 0, true), []), []), true)) <= LEAST_BYTES
  {
    var r := Filled(OkReport(requested, 0, true), []);
    ReplyWeighs(r, []);
    NothingCarried();
    CountersBurden(r);
    FlagsBurden(r);
    NoResults(r);
    SectionsBurden(Flags(r), [], [ResultsMember(r.results)], [], Counters(r));
    OneBurden(ResultsMember(r.results));
    assert MemberBurdens([]) == [];
    ObjBurden(Flags(r) + ([] + ([ResultsMember(r.results)] + ([] + Counters(r)))));
  }

  lemma LimitLength(most: nat)
    requires most <= MOST_BYTES
    ensures |KIND_LIMIT| + |LimitMessage(most)| <= 70
  {
    assert D.Pow10(5) == 100000;
    FewDigits(most, 7);
    assert |"The tool output exceeded "| == 25 && |" bytes."| == 7;
  }

  lemma EncodeLength()
    ensures |KIND_ENCODE| + |ENCODE_MESSAGE| == 70
  {
  }

  lemma WorstCost(most: nat)
    requires most <= MOST_BYTES
    ensures FailureCost(WorstFailure(most)) <= 70
  {
    FailureCostIsLength(LIMIT, most);
    FailureCostIsLength(ENCODE, most);
    LimitLength(most);
    EncodeLength();
  }

  lemma FirstFailure(requested: nat, most: nat)
    requires 0 < requested <= MOST_CALLS && LEAST_BYTES <= most <= MOST_BYTES
    ensures FailFits(requested, 0, WorstFailure(most), "", [], most)
  {
    var r := Filled(FailReport(requested, 0, WorstFailure(most), ""), []);
    ReplyWeighs(r, []);
    NothingCarried();
    FailBurden(r);
    CountersBurden(r);
    FlagsBurden(r);
    NoResults(r);
    CountBurden(0);
    WorstCost(most);
    assert Cost("") == 0;
  }

  // Under limits held to their bounds every reply is within its limit, and the first call always runs.
  lemma WithinBounds(reply: Doc, report: Report, kept: seq<Entry>, ran: seq<Call>, calls: seq<Call>,
                     outcomes: nat -> Outcome, abandoned: nat -> bool, most: nat)
    requires |calls| <= MOST_CALLS && LEAST_BYTES <= most <= MOST_BYTES
    requires Told(reply, report, kept, ran, calls, outcomes, most) && Stopped(report, kept, |ran|, abandoned, most)
    ensures Bytes(Encode(reply, true)) <= most
    ensures calls != [] ==> ran != []
  {
    FirstReport(|calls|);
    if calls != [] {
      FirstFailure(|calls|, most);
    }
  }
}
