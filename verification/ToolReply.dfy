// server/invoke.go and server/tool_catalog.go: the tool result a reply is sent as.
module ToolReply {
  import opened Wrappers
  import opened Wire

  function TextItem(text: string): Doc {
    Obj([Member("text", Str(text))] + [Member("type", Str("text"))])
  }

  function MetaMember(meta: Option<Doc>): seq<Member> {
    if meta.Some? then [Member("_meta", meta.value)] else []
  }

  // Members stand in the order of their keys, as the encoder writes those of a map.
  function ToolResult(meta: Option<Doc>, items: seq<Doc>, isError: bool): Doc {
    Obj(MetaMember(meta) + ([Member("content", Arr(items))] + [Member("isError", Bool(isError))]))
  }

  // A payload as the text of a reply of one item.
  function TextReply(payload: Doc, isError: bool): Doc {
    ToolResult(None, [TextItem(Encode(payload, false))], isError)
  }

  function MetaSize(meta: Option<Doc>): nat {
    if meta.Some? then 9 + Size(meta.value) else 0
  }

  lemma PairSize(a: Member, b: Member)
    ensures Total(MemberSizes([a] + [b])) == MemberSize(a) + MemberSize(b)
  {
    MembersConcat([a], [b]);
    OneMember(a);
    OneMember(b);
  }

  lemma MetaMemberSize(meta: Option<Doc>)
    ensures Total(MemberSizes(MetaMember(meta))) + |MetaMember(meta)| == MetaSize(meta)
  {
    if meta.Some? {
      PlainWeight("_meta");
      OneMember(Member("_meta", meta.value));
    }
  }

  lemma PairObjSize(lead: seq<Member>, a: Member, b: Member)
    ensures Size(Obj(lead + ([a] + [b]))) == 3 + |lead| + Total(MemberSizes(lead)) + MemberSize(a) + MemberSize(b)
  {
    PairSize(a, b);
    MembersConcat(lead, [a] + [b]);
    ObjSize(lead + ([a] + [b]));
  }

  predicate PlainText(s: string) {
    forall i :: 0 <= i < |s| ==> Plain(s[i])
  }

  lemma KeySize(key: string, value: Doc)
    requires PlainText(key)
    ensures MemberSize(Member(key, value)) == |key| + 3 + Size(value)
  {
    PlainWeight(key);
  }

  lemma PlainKeys()
    ensures PlainText("content") && PlainText("isError") && PlainText("text") && PlainText("type") && PlainText("_meta")
  {
  }

  lemma ResultSize(meta: Option<Doc>, items: seq<Doc>, isError: bool)
    ensures Size(ToolResult(meta, items, isError)) == MetaSize(meta) + Size(Arr(items)) + if isError then 27 else 28
  {
    PlainKeys();
    KeySize("content", Arr(items));
    KeySize("isError", Bool(isError));
    MetaMemberSize(meta);
    PairObjSize(MetaMember(meta), Member("content", Arr(items)), Member("isError", Bool(isError)));
  }

  lemma TextItemSize(text: string)
    ensures Size(TextItem(text)) == 25 + Weight(text)
  {
    PlainKeys();
    KeySize("text", Str(text));
    KeySize("type", Str("text"));
    PlainWeight("text");
    PairSize(Member("text", Str(text)), Member("type", Str("text")));
    ObjSize([Member("text", Str(text))] + [Member("type", Str("text"))]);
  }

  // A reply led by a text item pays for the text, for the items behind it, and a fixed rest.
  lemma LedSize(meta: Option<Doc>, text: string, items: seq<Doc>, isError: bool)
    ensures Size(ToolResult(meta, [TextItem(text)] + items, isError))
         == MetaSize(meta) + Weight(text) + Total(ElementSizes(items)) + |items| + if isError then 54 else 55
  {
    ResultSize(meta, [TextItem(text)] + items, isError);
    TextItemSize(text);
    ArrSize([TextItem(text)] + items);
    ElementsConcat([TextItem(text)], items);
    assert ElementSizes([TextItem(text)]) == [25 + Weight(text)];
    OneTotal(25 + Weight(text));
  }
}
