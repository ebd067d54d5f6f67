// server/tool_catalog.go: running a batch under an output limit.
module CatalogBatch {
  import opened Wrappers
  import opened Wire
  import opened ToolReply
  import opened CatalogReport
  import opened CatalogReading
  import opened CatalogFailure

  datatype Call = Call(name: string, arguments: Doc)

  // The tools as the batch meets them: whatever the n-th call comes to, and whether the request was
  // abandoned while it ran.
  class Tools {
    var ran: seq<Call>
    const outcomes: nat -> Outcome
    const abandoned: nat -> bool

    constructor (outcomes: nat -> Outcome, abandoned: nat -> bool)
      ensures ran == [] && this.outcomes == outcomes && this.abandoned == abandoned
    {
      ran := [];
      this.outcomes, this.abandoned := outcomes, abandoned;
    }

    method Invoke(call: Call) returns (o: Outcome)
      modifies this`ran
      ensures ran == old(ran) + [call] && o == outcomes(|old(ran)|)
    {
      o := outcomes(|ran|);
      ran := ran + [call];
    }
  }

  datatype Rendered = Rendered(reply: Doc, size: nat)

  class Batch {
    const most: nat
    const requested: nat
    var entries: seq<Entry>

    constructor (most: nat, requested: nat)
      ensures entries == [] && this.most == most && this.requested == requested
    {
      this.most, this.requested, entries := most, requested, [];
    }

    // The reply and the bytes it takes, measured on its stand-in.
    method Render(report: Report, kept: seq<Entry>) returns (r: Option<Rendered>)
      requires forall i :: 0 <= i < |kept| ==> Measured(kept[i])
      ensures r.Some? <==> AllRenderable(kept)
      ensures r.Some? ==> r.value.reply == Reply(Filled(report, kept), kept)
                          && r.value.size == Bytes(Encode(r.value.reply, true))
    {
      for k := 0 to |kept|
        invariant forall i :: 0 <= i < k ==> !kept[i].unencodable
      {
        if kept[k].unencodable {
          return None;
        }
      }
      var rep := Filled(report, kept);
      if !Encodable(ReportDoc(rep)) {
        StructuredFails(rep, kept);
        return None;
      }
      StructuredHolds(rep, kept);
      var rendered := Weighed(rep, kept);
      r := Some(rendered);
    }

    method Build(failure: Fault, called: string, index: nat) returns (reply: Doc, ok: bool)
      requires AllRenderable(entries)
      ensures reply == FailDoc(requested, index, failure, called, entries)
      ensures ok <==> FailFits(requested, index, failure, called, entries, most)
    {
      var r := Render(FailReport(requested, index, failure, called), entries);
      reply, ok := r.value.reply, r.value.size <= most;
    }

    method LongestName(failure: Fault, name: string, index: nat) returns (n: nat)
      requires !FailFits(requested, index, failure, name, entries, most)
      ensures n <= |name|
      ensures n == 0 || FailFits(requested, index, failure, Clip(name, n), entries, most)
      ensures forall k :: n < k <= |name| ==> !FailFits(requested, index, failure, Clip(name, k), entries, most)
    {
      var count, kept, limit := requested, entries, most;
      var weighed := k => k >= 0 && FailFits(count, index, failure, Clip(name, k), kept, limit);
      forall i, j | 0 <= i <= j <= |name| && weighed(j) ensures weighed(i) {
        ShorterFits(count, index, failure, name, i, j, kept, limit);
      }
      n := LongestFit(|name|, weighed);
      forall k | n < k <= |name| ensures !FailFits(count, index, failure, Clip(name, k), kept, limit) {
        assert !weighed(k);
      }
    }

    // The reply for a call whose result cannot be carried. Only the name of that call gives way; the
    // reply fits exactly when it does without the name.
    method FailReply(failure: Fault, name: string, index: nat) returns (reply: Doc, fits: bool, ghost called: string)
      requires AllRenderable(entries)
      ensures reply == FailDoc(requested, index, failure, called, entries)
      ensures fits <==> FailFits(requested, index, failure, "", entries, most)
      ensures fits ==> FailFits(requested, index, failure, called, entries, most)
      ensures fits ==> Chosen(requested, index, failure, name, called, entries, most)
    {
      called := name;
      reply, fits := Build(failure, name, index);
      if fits {
        BareFits(requested, index, failure, name, failure, entries, most);
        return;
      }
      var kept := LongestName(failure, name, index);
      called := Clip(name, kept);
      reply, fits := Build(failure, Clip(name, kept), index);
      if fits {
        BareFits(requested, index, failure, called, failure, entries, most);
        assert LongestClip(requested, index, failure, name, kept, entries, most);
        return;
      }
      if |name| == 0 {
        return;
      }
      called := "";
      reply, fits := Build(failure, "", index);
    }

    // Whether either failure of the call could be reported beside every result already held.
    method CanReport(name: string, index: nat) returns (ok: bool)
      requires AllRenderable(entries)
      ensures ok <==> FailFits(requested, index, WorstFailure(most), "", entries, most)
    {
      var _, fits, _ := FailReply(WorstFailure(most), name, index);
      ok := fits;
    }
  }

  function FailDoc(requested: nat, index: nat, failure: Fault, called: string, kept: seq<Entry>): Doc {
    Reply(Filled(FailReport(requested, index, failure, called), kept), kept)
  }

  ghost predicate LongestClip(requested: nat, index: nat, f: Fault, name: string, n: nat, kept: seq<Entry>, most: nat) {
    && FailFits(requested, index, f, Clip(name, n), kept, most)
    && forall k :: n < k < |name| ==> !FailFits(requested, index, f, Clip(name, k), kept, most)
  }

  // The name a failure report gives: whole if that fits, else the longest clip that does, else none.
  ghost predicate Chosen(requested: nat, index: nat, f: Fault, name: string, called: string, kept: seq<Entry>, most: nat) {
    if FailFits(requested, index, f, name, kept, most) then called == name
    else
      || (exists n :: 0 <= n < |name| && called == Clip(name, n) && LongestClip(requested, index, f, name, n, kept, most))
      || (called == "" && forall k :: 0 <= k < |name| ==> !FailFits(requested, index, f, Clip(name, k), kept, most))
  }

  lemma HeldGrows(sizes: seq<nat>, i: nat)
    requires i < |sizes|
    ensures ContentHeld(sizes[..i + 1]) == ContentHeld(sizes[..i]) + sizes[i] - 2
  {
    assert sizes[..i + 1] == sizes[..i] + [sizes[i]];
    TotalConcat(sizes[..i], [sizes[i]]);
    OneTotal(sizes[i]);
  }

  method ForwardedOne(e: Entry, front: seq<Doc>, stood: seq<Doc>) returns (contents: seq<Doc>, measured: seq<Doc>, held: int)
    requires |e.contentSizes| == |e.content| && stood == Placeholders(|front|)
    ensures contents == front + e.content && measured == Placeholders(|contents|) && held == ContentHeld(e.contentSizes)
  {
    contents, measured, held := front, stood, 0;
    for i := 0 to |e.content|
      invariant contents == front + e.content[..i] && measured == Placeholders(|contents|)
      invariant held == ContentHeld(e.contentSizes[..i])
    {
      contents, measured := contents + [e.content[i]], measured + [NOTHING];
      HeldGrows(e.contentSizes, i);
      held := held + e.contentSizes[i] - 2;
    }
    assert e.content[..|e.content|] == e.content && e.contentSizes[..|e.content|] == e.contentSizes;
  }

  // The content of the kept calls, a placeholder for every item of it, and what the placeholders,
  // those of the metadata among them, leave out.
  method Forwarded(kept: seq<Entry>) returns (contents: seq<Doc>, measured: seq<Doc>, held: int)
    requires AllMeasured(kept)
    ensures contents == AllContent(kept) && measured == Placeholders(|contents|) && held == Held(kept)
  {
    contents, measured, held := [], [], 0;
    for k := 0 to |kept|
      invariant contents == AllContent(kept[..k]) && measured == Placeholders(|contents|) && held == Held(kept[..k])
    {
      var sum: int;
      contents, measured, sum := ForwardedOne(kept[k], contents, measured);
      held := held + sum;
      if |kept[k].meta| > 0 {
        held := held + kept[k].metaSize - 2;
      }
      assert kept[..k + 1][..k] == kept[..k];
    }
    assert kept[..|kept|] == kept;
  }

  // A report that encodes, in its reply, with what that weighs.
  method Weighed(rep: Report, kept: seq<Entry>) returns (r: Rendered)
    requires AllMeasured(kept)
    ensures r.reply == Reply(rep, kept) && r.size == Bytes(Encode(r.reply, true))
  {
    var contents, measured, held := Forwarded(kept);
    var lead := TextItem(Encode(ReportDoc(rep), false));
    var standIn := ToolResult(BatchMeta(Metas(kept, true)), [lead] + measured, !rep.ok);
    Substitution(rep, kept);
    r := Rendered(ToolResult(BatchMeta(Metas(kept, false)), [lead] + contents, !rep.ok), Bytes(Encode(standIn, true)) + held);
  }

  lemma StructuredHolds(rep: Report, kept: seq<Entry>)
    requires rep.results == Records(kept) && Encodable(ReportDoc(rep)) && AllMeasured(kept)
    ensures AllRenderable(kept)
  {
    ReportEncodable(rep);
    forall i | 0 <= i < |kept| ensures Renderable(kept[i]) {
      assert rep.results[i] == RecordOf(kept[i]);
    }
  }

  lemma StructuredFails(rep: Report, kept: seq<Entry>)
    requires rep.results == Records(kept) && !Encodable(ReportDoc(rep))
    ensures !AllRenderable(kept)
  {
    ReportEncodable(rep);
    var i :| 0 <= i < |rep.results| && !Encodable(Obj(rep.results[i].structured));
    assert !Renderable(kept[i]);
  }

  // ----- What a batch tells -----

  function OkReport(requested: nat, attempted: nat, ok: bool): Report {
    Report(ok, false, None, [], None, requested, attempted, 0)
  }

  // The entries kept are those of the first calls, each with all its call came to; only the last
  // of them may have failed.
  predicate Kept(kept: seq<Entry>, calls: seq<Call>, outcomes: nat -> Outcome) {
    && |kept| <= |calls| && AllRenderable(kept)
    && (forall k :: 0 <= k < |kept| ==> Carries(kept[k], k, calls[k].name, outcomes(k)))
    && (forall k :: 0 <= k < |kept| - 1 ==> !kept[k].isError)
  }

  predicate Failing(kept: seq<Entry>) {
    kept != [] && kept[|kept| - 1].isError
  }

  // What a report says of a batch in which the calls in ran were run.
  predicate Tells(report: Report, kept: seq<Entry>, ran: seq<Call>, calls: seq<Call>) {
    && |ran| <= |calls| && ran == calls[..|ran|]
    && report.requested == |calls| && report.attempted == |ran| && report.reported == |kept|
    && report.results == Records(kept)
    && |ran| == |kept| + (if report.omitted.Some? then 1 else 0)
    && (report.omitted.Some? ==> report.omitted.value.index == |kept|)
    && (report.omitted.Some? <==> report.failure.Some?)
    && (report.complete <==> report.reported == report.requested)
    && (report.ok <==> report.omitted.None? && !Failing(kept))
  }

  // Why a call's result was left out: it could not be encoded, or the reply with it was too long.
  predicate LeftOut(e: Entry, failure: Fault, requested: nat, kept: seq<Entry>, most: nat) {
    if Renderable(e) then
      && failure == FailureOf(LIMIT, most)
      && Bytes(Encode(Reply(Filled(OkReport(requested, |kept| + 1, !e.isError), kept + [e]), kept + [e]), true)) > most
    else
      failure == FailureOf(ENCODE, most)
  }

  // Why the batch ran no further call.
  predicate Stopped(report: Report, kept: seq<Entry>, count: nat, abandoned: nat -> bool, most: nat) {
    || count == report.requested || report.omitted.Some? || Failing(kept)
    || (count > 0 && abandoned(count - 1))
    || !FailFits(report.requested, count, WorstFailure(most), "", kept, most)
  }

  lemma KeptGrows(kept: seq<Entry>, e: Entry, calls: seq<Call>, outcomes: nat -> Outcome)
    requires Kept(kept, calls, outcomes) && !Failing(kept) && |kept| < |calls|
    requires Carries(e, |kept|, calls[|kept|].name, outcomes(|kept|)) && Renderable(e)
    ensures Kept(kept + [e], calls, outcomes)
  {
  }

  lemma MeasuredKept(kept: seq<Entry>, e: Entry)
    requires AllRenderable(kept) && Measured(e)
    ensures forall i :: 0 <= i < |kept + [e]| ==> Measured((kept + [e])[i])
    ensures AllRenderable(kept + [e]) <==> Renderable(e)
  {
    assert (kept + [e])[|kept|] == e;
    assert forall i :: 0 <= i < |kept| ==> (kept + [e])[i] == kept[i];
  }

  // Reserving room for the costlier failure leaves room for either.
  lemma RoomForEither(overLimit: bool, requested: nat, index: nat, kept: seq<Entry>, most: nat)
    requires FailFits(requested, index, WorstFailure(most), "", kept, most)
    ensures FailFits(requested, index, FailureOf(overLimit, most), "", kept, most)
  {
    WorstIsWorst(overLimit, most);
    BareFits(requested, index, WorstFailure(most), "", FailureOf(overLimit, most), kept, most);
  }

  lemma OkTells(kept: seq<Entry>, calls: seq<Call>)
    requires |kept| <= |calls|
    ensures Tells(Filled(OkReport(|calls|, |kept|, !Failing(kept)), kept), kept, calls[..|kept|], calls)
  {
  }

  lemma FailTells(kept: seq<Entry>, calls: seq<Call>, failure: Fault, called: string)
    requires |kept| < |calls|
    ensures Tells(Filled(FailReport(|calls|, |kept|, failure, called), kept), kept, calls[..|kept| + 1], calls)
  {
  }

  // All a batch's reply says, and why the batch ended where it did.
  ghost predicate Told(
    reply: Doc, report: Report, kept: seq<Entry>, ran: seq<Call>, calls: seq<Call>, outcomes: nat -> Outcome, most: nat)
  {
    && reply == Reply(report, kept) && Tells(report, kept, ran, calls) && Kept(kept, calls, outcomes)
    && (Bytes(Encode(reply, true)) <= most || (ran == [] && report == Filled(OkReport(|calls|, 0, true), [])))
  }

  // Whoever reads the reply is told of the calls asked for, those run, and those with a result kept, and
  // is given each of these results whole.
  lemma ToldReads(
    reply: Doc, report: Report, kept: seq<Entry>, ran: seq<Call>, calls: seq<Call>, outcomes: nat -> Outcome, most: nat)
    requires Told(reply, report, kept, ran, calls, outcomes, most)
    ensures Reads(reply, ReportDoc(report), kept, |calls|, |ran|, report.failure, report.omitted)
  {
    ReplyReads(report, kept);
  }

  datatype Ran = Carried(entry: Entry, reply: Doc) | Dropped(entry: Entry, overLimit: bool)

  function EntryReply(kept: seq<Entry>, e: Entry, requested: nat): Doc {
    Reply(Filled(OkReport(requested, |kept| + 1, !e.isError), kept + [e]), kept + [e])
  }

  // One call run, and its result put beside those already held, or found to be one the reply cannot carry.
  method RunNext(batch: Batch, tools: Tools, call: Call) returns (r: Ran)
    requires AllRenderable(batch.entries) && |tools.ran| == |batch.entries|
    modifies batch`entries, tools`ran
    ensures tools.ran == old(tools.ran) + [call]
    ensures Carries(r.entry, |old(batch.entries)|, call.name, tools.outcomes(|old(batch.entries)|))
    ensures batch.entries == if r.Carried? then old(batch.entries) + [r.entry] else old(batch.entries)
    ensures r.Carried? ==>
              && r.reply == EntryReply(old(batch.entries), r.entry, batch.requested)
              && Renderable(r.entry) && Bytes(Encode(r.reply, true)) <= batch.most
    ensures r.Dropped? ==>
              LeftOut(r.entry, FailureOf(r.overLimit, batch.most), batch.requested, old(batch.entries), batch.most)
  {
    var i := |batch.entries|;
    var outcome := tools.Invoke(call);
    var entry := EntryFor(i, call.name, outcome);
    MeasuredKept(batch.entries, entry);
    batch.entries := batch.entries + [entry];
    var next := batch.Render(OkReport(batch.requested, i + 1, !entry.isError), batch.entries);
    if next.None? || next.value.size > batch.most {
      batch.entries := batch.entries[..i];
      return Dropped(entry, next.Some?);
    }
    return Carried(entry, next.value.reply);
  }

  lemma StartTold(calls: seq<Call>, outcomes: nat -> Outcome, most: nat)
    ensures var report := Filled(OkReport(|calls|, 0, true), []);
            Told(Reply(report, []), report, [], [], calls, outcomes, most)
  {
    OkTells([], calls);
    assert calls[..0] == [];
  }

  lemma Prefix(calls: seq<Call>, i: nat)
    requires i < |calls|
    ensures calls[..i] + [calls[i]] == calls[..i + 1]
  {
  }

  // A call is named as omitted exactly when its result was dropped, and then the report says why and
  // names the call as fully as there is room for.
  ghost predicate Explained(
    dropped: Option<Entry>, report: Report, kept: seq<Entry>, calls: seq<Call>, outcomes: nat -> Outcome, most: nat)
  {
    if dropped.None? then report.omitted.None?
    else
      && report.omitted.Some? && report.failure.Some? && |kept| < |calls|
      && Carries(dropped.value, |kept|, calls[|kept|].name, outcomes(|kept|))
      && LeftOut(dropped.value, report.failure.value, |calls|, kept, most)
      && Worded(report.failure.value, Renderable(dropped.value), most)
      && Chosen(|calls|, |kept|, report.failure.value, calls[|kept|].name, report.omitted.value.name, kept, most)
  }

  // The reply to a batch whose next call was run and its result dropped.
  method DropReply(batch: Batch, calls: seq<Call>, overLimit: bool, ghost entry: Entry, ghost outcomes: nat -> Outcome)
    returns (reply: Doc, ghost report: Report)
    requires batch.requested == |calls| && |batch.entries| < |calls| && Kept(batch.entries, calls, outcomes)
    requires FailFits(|calls|, |batch.entries|, WorstFailure(batch.most), "", batch.entries, batch.most)
    requires Carries(entry, |batch.entries|, calls[|batch.entries|].name, outcomes(|batch.entries|))
    requires LeftOut(entry, FailureOf(overLimit, batch.most), |calls|, batch.entries, batch.most)
    ensures report.requested == |calls| && report.omitted.Some?
    ensures Told(reply, report, batch.entries, calls[..|batch.entries| + 1], calls, outcomes, batch.most)
    ensures Explained(Some(entry), report, batch.entries, calls, outcomes, batch.most)
  {
    var i := |batch.entries|;
    RoomForEither(overLimit, |calls|, i, batch.entries, batch.most);
    FailureWorded(overLimit, batch.most);
    assert overLimit == Renderable(entry);
    ghost var called;
    var fits;
    reply, fits, called := batch.FailReply(FailureOf(overLimit, batch.most), calls[i].name, i);
    report := Filled(FailReport(|calls|, i, FailureOf(overLimit, batch.most), called), batch.entries);
    FailTells(batch.entries, calls, FailureOf(overLimit, batch.most), called);
  }

  lemma CarriedTold(kept: seq<Entry>, e: Entry, reply: Doc, calls: seq<Call>, outcomes: nat -> Outcome, most: nat)
    requires Kept(kept, calls, outcomes) && !Failing(kept) && |kept| < |calls|
    requires Carries(e, |kept|, calls[|kept|].name, outcomes(|kept|)) && Renderable(e)
    requires reply == EntryReply(kept, e, |calls|) && Bytes(Encode(reply, true)) <= most
    ensures var report := Filled(OkReport(|calls|, |kept| + 1, !e.isError), kept + [e]);
            && report.omitted.None? && Explained(None, report, kept + [e], calls, outcomes, most)
            && Told(reply, report, kept + [e], calls[..|kept| + 1], calls, outcomes, most)
    ensures Failing(kept + [e]) <==> e.isError
  {
    KeptGrows(kept, e, calls, outcomes);
    OkTells(kept + [e], calls);
  }

  // The next call run, and the reply after it; done says whether the batch ends with it.
  method Advance(batch: Batch, tools: Tools, calls: seq<Call>)
    returns (reply: Doc, ghost report: Report, ghost dropped: Option<Entry>, done: bool)
    requires batch.requested == |calls| && |batch.entries| < |calls|
    requires Kept(batch.entries, calls, tools.outcomes) && !Failing(batch.entries)
    requires tools.ran == calls[..|batch.entries|]
    requires FailFits(|calls|, |batch.entries|, WorstFailure(batch.most), "", batch.entries, batch.most)
    modifies batch`entries, tools`ran
    ensures |tools.ran| == |old(batch.entries)| + 1
    ensures Told(reply, report, batch.entries, tools.ran, calls, tools.outcomes, batch.most)
    ensures Explained(dropped, report, batch.entries, calls, tools.outcomes, batch.most)
    ensures done ==> report.omitted.Some? || Failing(batch.entries) || tools.abandoned(|tools.ran| - 1)
    ensures !done ==> |batch.entries| == |tools.ran| && report.omitted.None? && !Failing(batch.entries)
  {
    ghost var kept := batch.entries;
    var i := |batch.entries|;
    var r := RunNext(batch, tools, calls[i]);
    Prefix(calls, i);
    assert tools.ran == calls[..i + 1];
    if r.Dropped? {
      dropped, done := Some(r.entry), true;
      reply, report := DropReply(batch, calls, r.overLimit, r.entry, tools.outcomes);
    } else {
      CarriedTold(kept, r.entry, r.reply, calls, tools.outcomes, batch.most);
      reply, report := r.reply, Filled(OkReport(|calls|, i + 1, !r.entry.isError), kept + [r.entry]);
      dropped, done := None, r.entry.isError || tools.abandoned(i);
    }
  }

  // Runs the calls in order, and replies with all that came of those it ran. The reply holds to the
  // limit wherever one call was run; no result is ever given up for the sake of a later one.
  method Handle(tools: Tools, calls: seq<Call>, most: nat)
    returns (reply: Doc, ghost report: Report, ghost kept: seq<Entry>, ghost dropped: Option<Entry>,
             ghost payload: Doc)
    requires tools.ran == []
    modifies tools
    ensures Reads(reply, payload, kept, |calls|, |tools.ran|, report.failure, report.omitted)
    ensures Told(reply, report, kept, tools.ran, calls, tools.outcomes, most)
    ensures Stopped(report, kept, |tools.ran|, tools.abandoned, most)
    ensures Explained(dropped, report, kept, calls, tools.outcomes, most)
  {
    var batch := new Batch(most, |calls|);
    dropped := None;
    var held := batch.Render(OkReport(|calls|, 0, true), []);
    reply, report := held.value.reply, Filled(OkReport(|calls|, 0, true), []);
    StartTold(calls, tools.outcomes, most);
    for i := 0 to |calls|
      invariant |batch.entries| == |tools.ran| == i && batch.most == most && batch.requested == |calls|
      invariant dropped.None? && report.omitted.None? && !Failing(batch.entries)
      invariant Told(reply, report, batch.entries, tools.ran, calls, tools.outcomes, most)
    {
      var room := batch.CanReport(calls[i].name, i);
      if !room {
        ToldReads(reply, report, batch.entries, tools.ran, calls, tools.outcomes, most);
        return reply, report, batch.entries, dropped, ReportDoc(report);
      }
      var done;
      reply, report, dropped, done := Advance(batch, tools, calls);
      if done {
        ToldReads(reply, report, batch.entries, tools.ran, calls, tools.outcomes, most);
        return reply, report, batch.entries, dropped, ReportDoc(report);
      }
    }
    kept, payload := batch.entries, ReportDoc(report);
    ToldReads(reply, report, kept, tools.ran, calls, tools.outcomes, most);
  }
}
