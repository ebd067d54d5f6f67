// Reading a reply back, one key at a time, by whoever it is sent to.
module DocReader {
  import opened Wrappers
  import opened Wire
  import opened ToolReply
  import D = Decimal

  function Values(ms: seq<Member>, key: string): seq<Doc> {
    if ms == [] then []
    else (if ms[0].key == key then [ms[0].value] else []) + Values(ms[1..], key)
  }

  // An object that has the key once, with that value, and one that has it nowhere.
  predicate Holds(d: Doc, key: string, value: Doc) {
    d.Obj? && Values(d.members, key) == [value]
  }

  predicate Lacks(d: Doc, key: string) {
    d.Obj? && Values(d.members, key) == []
  }

  // A number spelled in the digits of it and no others.
  predicate Numeral(d: Doc, n: nat) {
    d.Num? && D.IsDigits(d.literal) && D.Number(d.literal) == n && (|d.literal| > 1 ==> d.literal[0] != '0')
  }

  predicate HoldsNumber(d: Doc, key: string, n: nat) {
    d.Obj? && |Values(d.members, key)| == 1 && Numeral(Values(d.members, key)[0], n)
  }

  predicate HoldsText(d: Doc, key: string, text: string) {
    Holds(d, key, Str(text))
  }

  predicate HoldsFlag(d: Doc, key: string, flag: bool) {
    Holds(d, key, Bool(flag))
  }

  // A text item with a payload in it.
  predicate LeadRead(item: Doc, payload: Doc) {
    HoldsText(item, "type", "text") && HoldsText(item, "text", Encode(payload, false))
  }

  lemma DocsRegrouped(a: seq<Doc>, b: seq<Doc>, c: seq<Doc>)
    ensures (a + b) + c == a + (b + c)
  {
  }

  lemma {:induction false} ValuesConcat(a: seq<Member>, b: seq<Member>, key: string)
    ensures Values(a + b, key) == Values(a, key) + Values(b, key)
  {
    if a == [] {
      assert a + b == b;
    } else {
      assert (a + b)[1..] == a[1..] + b;
      ValuesConcat(a[1..], b, key);
      DocsRegrouped(if a[0].key == key then [a[0].value] else [], Values(a[1..], key), Values(b, key));
    }
  }

  function If(present: bool, value: Doc): seq<Doc> {
    if present then [value] else []
  }

  lemma OneValue(m: Member, key: string)
    ensures Values([m], key) == If(m.key == key, m.value)
  {
    assert [m][1..] == [];
  }

  lemma TwoValues(a: Member, b: Member, key: string)
    ensures Values([a] + [b], key) == If(a.key == key, a.value) + If(b.key == key, b.value)
  {
    ValuesConcat([a], [b], key);
    OneValue(a, key);
    OneValue(b, key);
  }

  lemma LedValues(a: Member, rest: seq<Member>, key: string)
    ensures Values([a] + rest, key) == If(a.key == key, a.value) + Values(rest, key)
  {
    ValuesConcat([a], rest, key);
    OneValue(a, key);
  }

  lemma ReplyValues(meta: Option<Doc>, items: seq<Doc>, isError: bool, key: string)
    ensures Values(ToolResult(meta, items, isError).members, key)
         == (if meta.Some? then If(key == "_meta", meta.value) else [])
            + (If(key == "content", Arr(items)) + If(key == "isError", Bool(isError)))
  {
    ValuesConcat(MetaMember(meta), [Member("content", Arr(items))] + [Member("isError", Bool(isError))], key);
    TwoValues(Member("content", Arr(items)), Member("isError", Bool(isError)), key);
    if meta.Some? {
      OneValue(Member("_meta", meta.value), key);
    }
  }

  lemma ReadsLead(payload: Doc)
    ensures LeadRead(TextItem(Encode(payload, false)), payload)
  {
    var text := Encode(payload, false);
    TwoValues(Member("text", Str(text)), Member("type", Str("text")), "text");
    TwoValues(Member("text", Str(text)), Member("type", Str("text")), "type");
  }
}
