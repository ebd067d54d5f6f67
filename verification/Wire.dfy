// The encoder that puts a document on the wire, and what its bytes come to.
module Wire {
  // ----- Documents -----

  datatype Doc =
    | Null
    | Bool(flag: bool)
    | Num(literal: string)
    | Str(text: string)
    | Arr(elements: seq<Doc>)
    | Obj(members: seq<Member>)
    | Unencodable

  // Members stand in the order they are written in.
  datatype Member = Member(key: string, value: Doc)

  predicate Encodable(d: Doc) {
    match d
    case Unencodable => false
    case Arr(es) => forall i :: 0 <= i < |es| ==> Encodable(es[i])
    case Obj(ms) => forall i :: 0 <= i < |ms| ==> Encodable(ms[i].value)
    case _ => true
  }

  // ----- Bytes -----

  // The bytes a character takes in UTF-8.
  function Width(c: char): (w: nat)
    ensures w >= 1
  {
    if c as int < 0x80 then 1 else if c as int < 0x800 then 2 else if c as int < 0x1_0000 then 3 else 4
  }

  function Bytes(s: string): (n: nat)
    ensures n >= |s|
  {
    if s == "" then 0 else Width(s[0]) + Bytes(s[1..])
  }

  lemma {:induction false} BytesConcat(s: string, t: string)
    ensures Bytes(s + t) == Bytes(s) + Bytes(t)
  {
    if s == "" {
      assert s + t == t;
    } else {
      BytesConcat(s[1..], t);
      assert (s + t)[1..] == s[1..] + t;
    }
  }

  // ----- The encoder -----

  function HexDigit(n: nat): char
    requires n < 16
  {
    if n < 10 then ('0' as int + n) as char else ('a' as int + n - 10) as char
  }

  function HexEscape(c: char): (r: string)
    requires c as int < 0x1_0000
    ensures |r| == 6
  {
    var n := c as int;
    ['\\', 'u', HexDigit(n / 4096), HexDigit(n / 256 % 16), HexDigit(n / 16 % 16), HexDigit(n % 16)]
  }

  const BACKSPACE: char := 8 as char
  const FORM_FEED: char := 12 as char
  const LINE_SEPARATOR: char := 0x2028 as char
  const PARAGRAPH_SEPARATOR: char := 0x2029 as char

  // A character inside a string; markup is escaped only where html asks for it.
  function EscapeChar(c: char, html: bool): string {
    if c == '"' then "\\\""
    else if c == '\\' then "\\\\"
    else if c == '\n' then "\\n"
    else if c == '\r' then "\\r"
    else if c == '\t' then "\\t"
    else if c == BACKSPACE then "\\b"
    else if c == FORM_FEED then "\\f"
    else if c < ' ' then HexEscape(c)
    else if html && (c == '<' || c == '>' || c == '&') then HexEscape(c)
    else if c == LINE_SEPARATOR || c == PARAGRAPH_SEPARATOR then HexEscape(c)
    else [c]
  }

  function Escape(s: string, html: bool): string {
    if s == "" then "" else EscapeChar(s[0], html) + Escape(s[1..], html)
  }

  function Quoted(s: string, html: bool): string {
    "\"" + Escape(s, html) + "\""
  }

  function Join(parts: seq<string>): string {
    if parts == [] then "" else if |parts| == 1 then parts[0] else parts[0] + "," + Join(parts[1..])
  }

  function Encode(d: Doc, html: bool): string {
    match d
    case Null => "null"
    case Bool(flag) => if flag then "true" else "false"
    case Num(literal) => literal
    case Str(text) => Quoted(text, html)
    case Arr(es) => "[" + Join(seq(|es|, i requires 0 <= i < |es| => Encode(es[i], html))) + "]"
    case Obj(ms) =>
      "{" + Join(seq(|ms|, i requires 0 <= i < |ms| => Quoted(ms[i].key, html) + ":" + Encode(ms[i].value, html))) + "}"
    case Unencodable => ""
  }

  // ----- Sizes add up -----

  function Total(ns: seq<nat>): nat {
    if ns == [] then 0 else ns[0] + Total(ns[1..])
  }

  function Commas(n: nat): nat {
    if n == 0 then 0 else n - 1
  }

  lemma {:induction false} TotalConcat(a: seq<nat>, b: seq<nat>)
    ensures Total(a + b) == Total(a) + Total(b)
  {
    if a == [] {
      assert a + b == b;
    } else {
      TotalConcat(a[1..], b);
      assert (a + b)[1..] == a[1..] + b;
    }
  }

  // What a string comes to inside its quotes.
  function Weight(s: string): nat {
    Bytes(Escape(s, true))
  }

  // The bytes of a document, from the bytes of its parts alone.
  function Size(d: Doc): nat {
    match d
    case Null => 4
    case Bool(flag) => if flag then 4 else 5
    case Num(literal) => Bytes(literal)
    case Str(text) => Weight(text) + 2
    case Arr(es) => 2 + Commas(|es|) + Total(seq(|es|, i requires 0 <= i < |es| => Size(es[i])))
    case Obj(ms) =>
      2 + Commas(|ms|) + Total(seq(|ms|, i requires 0 <= i < |ms| => Weight(ms[i].key) + 3 + Size(ms[i].value)))
    case Unencodable => 0
  }

  lemma {:induction false} JoinBytes(parts: seq<string>, sizes: seq<nat>)
    requires |parts| == |sizes| && forall i :: 0 <= i < |parts| ==> Bytes(parts[i]) == sizes[i]
    ensures Bytes(Join(parts)) == Commas(|parts|) + Total(sizes)
  {
    if |parts| == 1 {
      assert sizes == [sizes[0]];
    } else if |parts| > 1 {
      JoinBytes(parts[1..], sizes[1..]);
      BytesConcat(parts[0] + ",", Join(parts[1..]));
      BytesConcat(parts[0], ",");
    }
  }

  lemma Enclosed(open: char, s: string, close: char)
    requires open as int < 0x80 && close as int < 0x80
    ensures Bytes([open] + s + [close]) == 2 + Bytes(s)
  {
    BytesConcat([open] + s, [close]);
    BytesConcat([open], s);
  }

  lemma PairBytes(key: string, text: string)
    ensures Bytes(Quoted(key, true) + ":" + text) == Weight(key) + 3 + Bytes(text)
  {
    BytesConcat(Quoted(key, true) + ":", text);
    BytesConcat(Quoted(key, true), ":");
    Enclosed('"', Escape(key, true), '"');
  }

  lemma {:induction false} Ascii(s: string)
    requires forall i :: 0 <= i < |s| ==> s[i] as int < 0x80
    ensures Bytes(s) == |s|
  {
    if s == "" {
    } else {
      Ascii(s[1..]);
    }
  }

  // The size is the length of what is written.
  lemma {:induction false} SizeIsBytes(d: Doc)
    ensures Bytes(Encode(d, true)) == Size(d)
  {
    match d
    case Null => Ascii("null");
    case Bool(flag) => Ascii("true"); Ascii("false");
    case Num(_) =>
    case Str(text) => Enclosed('"', Escape(text, true), '"');
    case Arr(es) =>
      var parts := seq(|es|, i requires 0 <= i < |es| => Encode(es[i], true));
      forall i | 0 <= i < |es| ensures Bytes(parts[i]) == Size(es[i]) {
        SizeIsBytes(es[i]);
      }
      JoinBytes(parts, seq(|es|, i requires 0 <= i < |es| => Size(es[i])));
      Enclosed('[', Join(parts), ']');
    case Obj(ms) =>
      var parts := seq(|ms|, i requires 0 <= i < |ms| => Quoted(ms[i].key, true) + ":" + Encode(ms[i].value, true));
      forall i | 0 <= i < |ms| ensures Bytes(parts[i]) == Weight(ms[i].key) + 3 + Size(ms[i].value) {
        PairBytes(ms[i].key, Encode(ms[i].value, true));
        SizeIsBytes(ms[i].value);
      }
      JoinBytes(parts, seq(|ms|, i requires 0 <= i < |ms| => Weight(ms[i].key) + 3 + Size(ms[i].value)));
      Enclosed('{', Join(parts), '}');
    case Unencodable =>
  }

  // ----- Escaping -----

  lemma Regrouped(a: string, b: string, c: string)
    ensures a + (b + c) == a + b + c
  {
  }

  lemma {:induction false} EscapeConcat(s: string, t: string, html: bool)
    ensures Escape(s + t, html) == Escape(s, html) + Escape(t, html)
  {
    if s == "" {
      assert s + t == t;
      assert "" + Escape(t, html) == Escape(t, html);
    } else {
      EscapeConcat(s[1..], t, html);
      assert (s + t)[1..] == s[1..] + t;
      Regrouped(EscapeChar(s[0], html), Escape(s[1..], html), Escape(t, html));
    }
  }

  lemma WeightConcat(s: string, t: string)
    ensures Weight(s + t) == Weight(s) + Weight(t)
  {
    EscapeConcat(s, t, true);
    BytesConcat(Escape(s, true), Escape(t, true));
  }

  lemma OneChar(c: char, html: bool)
    ensures Escape([c], html) == EscapeChar(c, html)
  {
    assert Escape([c][1..], html) == "";
    assert EscapeChar(c, html) + "" == EscapeChar(c, html);
  }

  // A character needing no escape, of one byte.
  predicate Plain(c: char) {
    ' ' <= c && c as int < 0x80 && c != '"' && c != '\\' && c != '<' && c != '>' && c != '&'
  }

  lemma {:induction false} PlainWeight(s: string)
    requires forall i :: 0 <= i < |s| ==> Plain(s[i])
    ensures Escape(s, true) == s && Escape(s, false) == s && Weight(s) == |s|
  {
    if s == "" {
    } else {
      PlainWeight(s[1..]);
      assert s == [s[0]] + s[1..];
    }
    Ascii(s);
  }

  // ----- Text within text -----

  lemma {:induction false} WeightAtLeast(s: string)
    ensures Weight(s) >= Bytes(s)
  {
    if s == "" {
    } else {
      WeightAtLeast(s[1..]);
      BytesConcat(EscapeChar(s[0], true), Escape(s[1..], true));
    }
  }

  lemma CharTwice(c: char)
    ensures Weight(EscapeChar(c, false)) >= Bytes(EscapeChar(c, true))
  {
    WeightAtLeast(EscapeChar(c, true));
    OneChar(c, true);
  }

  // Text escaped for the eye and then for the wire is no shorter than text escaped for the wire.
  lemma {:induction false} EscapedTwice(s: string)
    ensures Weight(Escape(s, false)) >= Weight(s)
  {
    if s == "" {
    } else {
      EscapedTwice(s[1..]);
      CharTwice(s[0]);
      WeightConcat(EscapeChar(s[0], false), Escape(s[1..], false));
      BytesConcat(EscapeChar(s[0], true), Escape(s[1..], true));
    }
  }

  // What a document comes to when its text is embedded in a string of another.
  function Burden(d: Doc): nat {
    match d
    case Null => 4
    case Bool(flag) => if flag then 4 else 5
    case Num(literal) => Weight(literal)
    case Str(text) => 4 + Weight(Escape(text, false))
    case Arr(es) => 2 + Commas(|es|) + Total(seq(|es|, i requires 0 <= i < |es| => Burden(es[i])))
    case Obj(ms) =>
      2 + Commas(|ms|)
      + Total(seq(|ms|, i requires 0 <= i < |ms| => Weight(Escape(ms[i].key, false)) + 5 + Burden(ms[i].value)))
    case Unencodable => 0
  }

  lemma {:induction false} JoinWeight(parts: seq<string>, sizes: seq<nat>)
    requires |parts| == |sizes| && forall i :: 0 <= i < |parts| ==> Weight(parts[i]) == sizes[i]
    ensures Weight(Join(parts)) == Commas(|parts|) + Total(sizes)
  {
    if |parts| == 1 {
      assert sizes == [sizes[0]];
    } else if |parts| > 1 {
      JoinWeight(parts[1..], sizes[1..]);
      WeightConcat(parts[0] + ",", Join(parts[1..]));
      WeightConcat(parts[0], ",");
      PlainWeight(",");
    }
  }

  lemma EnclosedWeight(open: char, s: string, close: char)
    ensures Weight([open] + s + [close]) == Weight([open]) + Weight(s) + Weight([close])
  {
    WeightConcat([open] + s, [close]);
    WeightConcat([open], s);
  }

  lemma QuotedWeight(s: string)
    ensures Weight(Quoted(s, false)) == 4 + Weight(Escape(s, false))
  {
    EnclosedWeight('"', Escape(s, false), '"');
    OneChar('"', true);
    Ascii("\\\"");
  }

  lemma PairWeight(key: string, text: string)
    ensures Weight(Quoted(key, false) + ":" + text) == Weight(Escape(key, false)) + 5 + Weight(text)
  {
    WeightConcat(Quoted(key, false) + ":", text);
    WeightConcat(Quoted(key, false), ":");
    QuotedWeight(key);
    PlainWeight(":");
  }

  lemma BracketWeight(open: char, s: string, close: char)
    requires Plain(open) && Plain(close)
    ensures Weight([open] + s + [close]) == 2 + Weight(s)
  {
    EnclosedWeight(open, s, close);
    PlainWeight([open]);
    PlainWeight([close]);
  }

  lemma ElementsWeight(es: seq<Doc>)
    requires forall i :: 0 <= i < |es| ==> Weight(Encode(es[i], false)) == Burden(es[i])
    ensures Weight(Encode(Arr(es), false)) == Burden(Arr(es))
  {
    var parts := seq(|es|, i requires 0 <= i < |es| => Encode(es[i], false));
    JoinWeight(parts, seq(|es|, i requires 0 <= i < |es| => Burden(es[i])));
    BracketWeight('[', Join(parts), ']');
  }

  lemma MembersWeight(ms: seq<Member>)
    requires forall i :: 0 <= i < |ms| ==> Weight(Encode(ms[i].value, false)) == Burden(ms[i].value)
    ensures Weight(Encode(Obj(ms), false)) == Burden(Obj(ms))
  {
    var parts := seq(|ms|, i requires 0 <= i < |ms| => Quoted(ms[i].key, false) + ":" + Encode(ms[i].value, false));
    forall i | 0 <= i < |ms| ensures Weight(parts[i]) == Weight(Escape(ms[i].key, false)) + 5 + Burden(ms[i].value) {
      PairWeight(ms[i].key, Encode(ms[i].value, false));
    }
    JoinWeight(parts, seq(|ms|, i requires 0 <= i < |ms| => Weight(Escape(ms[i].key, false)) + 5 + Burden(ms[i].value)));
    BracketWeight('{', Join(parts), '}');
  }

  // The burden is the weight of the document's own text.
  lemma {:induction false} BurdenIsWeight(d: Doc)
    ensures Weight(Encode(d, false)) == Burden(d)
  {
    match d
    case Null => PlainWeight("null");
    case Bool(flag) => PlainWeight("true"); PlainWeight("false");
    case Num(_) =>
    case Str(text) => QuotedWeight(text);
    case Arr(es) =>
      forall i | 0 <= i < |es| ensures Weight(Encode(es[i], false)) == Burden(es[i]) {
        BurdenIsWeight(es[i]);
      }
      ElementsWeight(es);
    case Obj(ms) =>
      forall i | 0 <= i < |ms| ensures Weight(Encode(ms[i].value, false)) == Burden(ms[i].value) {
        BurdenIsWeight(ms[i].value);
      }
      MembersWeight(ms);
    case Unencodable =>
  }

  lemma {:induction false} TotalMonotone(a: seq<nat>, b: seq<nat>)
    requires |a| == |b| && forall i :: 0 <= i < |a| ==> a[i] <= b[i]
    ensures Total(a) <= Total(b)
  {
    if a == [] {
    } else {
      TotalMonotone(a[1..], b[1..]);
    }
  }

  // Embedding a document's text never saves a byte over the document itself.
  lemma {:induction false} EmbeddedNoShorter(d: Doc)
    ensures Burden(d) >= Size(d)
  {
    match d
    case Num(literal) => WeightAtLeast(literal);
    case Str(text) => EscapedTwice(text);
    case Arr(es) =>
      forall i | 0 <= i < |es| ensures Size(es[i]) <= Burden(es[i]) {
        EmbeddedNoShorter(es[i]);
      }
      TotalMonotone(seq(|es|, i requires 0 <= i < |es| => Size(es[i])), seq(|es|, i requires 0 <= i < |es| => Burden(es[i])));
    case Obj(ms) =>
      forall i | 0 <= i < |ms|
        ensures Weight(ms[i].key) + 3 + Size(ms[i].value) <= Weight(Escape(ms[i].key, false)) + 5 + Burden(ms[i].value)
      {
        EmbeddedNoShorter(ms[i].value);
        EscapedTwice(ms[i].key);
      }
      TotalMonotone(seq(|ms|, i requires 0 <= i < |ms| => Weight(ms[i].key) + 3 + Size(ms[i].value)),
                    seq(|ms|, i requires 0 <= i < |ms| => Weight(Escape(ms[i].key, false)) + 5 + Burden(ms[i].value)));
    case _ =>
  }

  // ----- Members and elements, one by one -----

  function MemberSize(m: Member): nat {
    Weight(m.key) + 3 + Size(m.value)
  }

  function MemberSizes(ms: seq<Member>): seq<nat> {
    seq(|ms|, i requires 0 <= i < |ms| => MemberSize(ms[i]))
  }

  function ElementSizes(es: seq<Doc>): seq<nat> {
    seq(|es|, i requires 0 <= i < |es| => Size(es[i]))
  }

  function MemberBurden(m: Member): nat {
    Weight(Escape(m.key, false)) + 5 + Burden(m.value)
  }

  function MemberBurdens(ms: seq<Member>): seq<nat> {
    seq(|ms|, i requires 0 <= i < |ms| => MemberBurden(ms[i]))
  }

  function ElementBurdens(es: seq<Doc>): seq<nat> {
    seq(|es|, i requires 0 <= i < |es| => Burden(es[i]))
  }

  lemma ObjSize(ms: seq<Member>)
    ensures Size(Obj(ms)) == 2 + Commas(|ms|) + Total(MemberSizes(ms))
  {
    assert MemberSizes(ms) == seq(|ms|, i requires 0 <= i < |ms| => Weight(ms[i].key) + 3 + Size(ms[i].value));
  }

  lemma ArrSize(es: seq<Doc>)
    ensures Size(Arr(es)) == 2 + Commas(|es|) + Total(ElementSizes(es))
  {
  }

  lemma ObjBurden(ms: seq<Member>)
    ensures Burden(Obj(ms)) == 2 + Commas(|ms|) + Total(MemberBurdens(ms))
  {
    assert MemberBurdens(ms) == seq(|ms|, i requires 0 <= i < |ms| => Weight(Escape(ms[i].key, false)) + 5 + Burden(ms[i].value));
  }

  lemma ArrBurden(es: seq<Doc>)
    ensures Burden(Arr(es)) == 2 + Commas(|es|) + Total(ElementBurdens(es))
  {
  }

  lemma OneTotal(n: nat)
    ensures Total([n]) == n
  {
    assert [n][1..] == [];
  }

  lemma MembersConcat(a: seq<Member>, b: seq<Member>)
    ensures Total(MemberSizes(a + b)) == Total(MemberSizes(a)) + Total(MemberSizes(b))
  {
    forall i | 0 <= i < |a + b| ensures MemberSizes(a + b)[i] == (MemberSizes(a) + MemberSizes(b))[i] {
      assert (a + b)[i] == if i < |a| then a[i] else b[i - |a|];
    }
    assert MemberSizes(a + b) == MemberSizes(a) + MemberSizes(b);
    TotalConcat(MemberSizes(a), MemberSizes(b));
  }

  lemma OneMember(m: Member)
    ensures Total(MemberSizes([m])) == MemberSize(m)
  {
    assert MemberSizes([m]) == [MemberSize(m)];
    OneTotal(MemberSize(m));
  }

  lemma BurdensConcat(a: seq<Member>, b: seq<Member>)
    ensures Total(MemberBurdens(a + b)) == Total(MemberBurdens(a)) + Total(MemberBurdens(b))
  {
    forall i | 0 <= i < |a + b| ensures MemberBurdens(a + b)[i] == (MemberBurdens(a) + MemberBurdens(b))[i] {
      assert (a + b)[i] == if i < |a| then a[i] else b[i - |a|];
    }
    assert MemberBurdens(a + b) == MemberBurdens(a) + MemberBurdens(b);
    TotalConcat(MemberBurdens(a), MemberBurdens(b));
  }

  lemma OneBurden(m: Member)
    ensures Total(MemberBurdens([m])) == MemberBurden(m)
  {
    assert MemberBurdens([m]) == [MemberBurden(m)];
    OneTotal(MemberBurden(m));
  }

  lemma ElementsConcat(a: seq<Doc>, b: seq<Doc>)
    ensures Total(ElementSizes(a + b)) == Total(ElementSizes(a)) + Total(ElementSizes(b))
  {
    assert ElementSizes(a + b) == ElementSizes(a) + ElementSizes(b);
    TotalConcat(ElementSizes(a), ElementSizes(b));
  }
}
