// server/uritemplate.go: taking a template apart, and reading its variables out of a uri.
module UriTemplate {
  import opened Wrappers

  // ----- Searching -----

  predicate Occurs(s: string, t: string, i: int) {
    0 <= i && i + |t| <= |s| && s[i..i + |t|] == t
  }

  lemma OccursBehind(s: string, t: string, i: nat)
    requires s != "" && Occurs(s[1..], t, i)
    ensures Occurs(s, t, i + 1)
  {
    assert s[i + 1..i + 1 + |t|] == s[1..][i..i + |t|];
  }

  // Where t first stands in s, -1 where it does not.
  function Index(s: string, t: string): (i: int)
    ensures i >= 0 ==> Occurs(s, t, i)
  {
    if Occurs(s, t, 0) then 0
    else if s == "" then -1
    else
      var i := Index(s[1..], t);
      if i < 0 then -1
      else
        OccursBehind(s, t, i);
        i + 1
  }

  lemma {:induction false} IndexFirst(s: string, t: string, i: int)
    requires Occurs(s, t, i)
    ensures 0 <= Index(s, t) <= i
  {
    if i == 0 {
    } else {
      assert s[1..][i - 1..i - 1 + |t|] == s[i..i + |t|];
      IndexFirst(s[1..], t, i - 1);
    }
  }

  // Where t last stands in s up to i, -1 where it does not.
  function LastFrom(s: string, t: string, i: int): (r: int)
    ensures r < 0 || (r <= i && Occurs(s, t, r))
    ensures forall k :: r < k <= i ==> !Occurs(s, t, k)
    decreases i + 1
  {
    if i < 0 then -1 else if Occurs(s, t, i) then i else LastFrom(s, t, i - 1)
  }

  function LastIndex(s: string, t: string): int {
    LastFrom(s, t, |s|)
  }

  // ----- Templates -----

  datatype Template = Template(literals: seq<string>, names: seq<string>)

  predicate WellShaped(t: Template) {
    |t.literals| == |t.names| + 1
  }

  datatype Span = Span(open: nat, close: nat)

  // The first brace that opens, and the first behind it that closes.
  function Hole(template: string): (h: Option<Span>)
    ensures h.Some? ==> && h.value.open < h.value.close < |template|
                        && template[h.value.open] == '{' && template[h.value.close] == '}'
  {
    var open := Index(template, "{");
    if open < 0 then None
    else
      var close := Index(template[open..], "}");
      if close < 0 then None
      else
        assert template[open..open + 1][0] == '{';
        assert template[open..][close..close + 1][0] == '}';
        Some(Span(open, open + close))
  }

  predicate Braces(template: string, open: nat, close: nat) {
    open < close < |template| && template[open] == '{' && template[close] == '}'
  }

  lemma AloneOccurs(s: string, c: char, i: int)
    ensures Occurs(s, [c], i) <==> 0 <= i < |s| && s[i] == c
  {
    if 0 <= i < |s| && s[i] == c {
      assert s[i..i + 1] == [c];
    }
    if Occurs(s, [c], i) {
      assert s[i..i + 1][0] == c;
    }
  }

  lemma FirstBrace(s: string, c: char)
    ensures Index(s, [c]) >= 0 ==> Index(s, [c]) < |s| && s[Index(s, [c])] == c
    ensures forall k :: 0 <= k < |s| && (Index(s, [c]) < 0 || k < Index(s, [c])) ==> s[k] != c
  {
    if Index(s, [c]) >= 0 {
      AloneOccurs(s, c, Index(s, [c]));
    }
    forall k | 0 <= k < |s| && (Index(s, [c]) < 0 || k < Index(s, [c])) ensures s[k] != c {
      if s[k] == c {
        AloneOccurs(s, c, k);
        IndexFirst(s, [c], k);
      }
    }
  }

  // A placeholder is the first brace that opens with the first behind it that closes.
  lemma HoleIsFirst(template: string, open: nat, close: nat)
    ensures Hole(template) == Some(Span(open, close)) ==>
              && Braces(template, open, close)
              && (forall k :: 0 <= k < open ==> template[k] != '{') && (forall k :: open < k < close ==> template[k] != '}')
    ensures Braces(template, open, close) ==> Hole(template).Some? && Hole(template).value.open <= open
  {
    FirstBrace(template, '{');
    var first := Index(template, "{");
    if first >= 0 {
      FirstBrace(template[first..], '}');
      forall k | first <= k < |template| ensures template[k] == template[first..][k - first] {
      }
    }
  }

  // Text with no placeholder left in it is a literal, an unterminated one included.
  function Parse(template: string): (t: Template)
    ensures WellShaped(t)
    decreases |template|
  {
    var h := Hole(template);
    if h.None? then Template([template], [])
    else
      var rest := Parse(template[h.value.close + 1..]);
      Template([template[..h.value.open]] + rest.literals, [template[h.value.open + 1..h.value.close]] + rest.names)
  }

  function Assembled(t: Template): string
    requires WellShaped(t)
    decreases |t.names|
  {
    if t.names == [] then t.literals[0]
    else t.literals[0] + "{" + t.names[0] + "}" + Assembled(Template(t.literals[1..], t.names[1..]))
  }

  lemma AssembledLed(literal: string, name: string, rest: Template)
    requires WellShaped(rest)
    ensures Assembled(Template([literal] + rest.literals, [name] + rest.names))
         == literal + "{" + name + "}" + Assembled(rest)
  {
    assert ([literal] + rest.literals)[1..] == rest.literals && ([name] + rest.names)[1..] == rest.names;
  }

  lemma AroundBraces(template: string, open: int, close: int)
    requires 0 <= open < close < |template| && template[open] == '{' && template[close] == '}'
    ensures template[..open] + "{" + template[open + 1..close] + "}" + template[close + 1..] == template
  {
  }

  // Nothing of a template is lost or moved when it is taken apart.
  lemma {:induction false} ParseReassembles(template: string)
    ensures Assembled(Parse(template)) == template
    decreases |template|
  {
    var h := Hole(template);
    if h.None? {
    } else {
      var (open, close) := (h.value.open, h.value.close);
      ParseReassembles(template[close + 1..]);
      AssembledLed(template[..open], template[open + 1..close], Parse(template[close + 1..]));
      AroundBraces(template, open, close);
    }
  }

  // ----- Expansion -----

  // The values with the literals behind them.
  function Expanded(lits: seq<string>, values: seq<string>): string
    requires |lits| == |values|
  {
    if lits == [] then "" else values[0] + (lits[0] + Expanded(lits[1..], values[1..]))
  }

  function Expansion(t: Template, values: seq<string>): string
    requires WellShaped(t) && |values| == |t.names|
  {
    t.literals[0] + Expanded(t.literals[1..], values)
  }

  predicate NoneBefore(text: string, lit: string, n: nat) {
    forall i :: 0 <= i < n ==> !Occurs(text, lit, i)
  }

  lemma FirstThere(text: string, lit: string, n: nat)
    requires Occurs(text, lit, n) && NoneBefore(text, lit, n)
    ensures Index(text, lit) == n
  {
    IndexFirst(text, lit, n);
  }

  // Every value says something, all but the last keep to one segment, and none of them reaches past
  // a place where the literal behind it already stands.
  predicate Clear(lits: seq<string>, values: seq<string>)
    requires |lits| == |values|
  {
    lits == [] ||
    (&& values[0] != ""
     && (|lits| > 1 ==>
           && '/' !in values[0]
           && NoneBefore(Expanded(lits, values), lits[0], |values[0]|)
           && Clear(lits[1..], values[1..])))
  }

  // ----- Matching -----

  function Led(first: string, rest: Option<seq<string>>): Option<seq<string>> {
    if rest.Some? then Some([first] + rest.value) else None
  }

  // The values the literals leave in the text.
  function Bound(lits: seq<string>, text: string): Option<seq<string>>
    requires lits != []
  {
    if |lits| == 1 then
      var idx := if lits[0] == "" then |text| else LastIndex(text, lits[0]);
      if idx <= 0 || idx + |lits[0]| != |text| then None else Some([text[..idx]])
    else
      var idx := Index(text, lits[0]);
      if idx <= 0 || '/' in text[..idx] then None
      else Led(text[..idx], Bound(lits[1..], text[idx + |lits[0]|..]))
  }

  lemma SuffixLast(text: string, lit: string, value: string)
    requires text == value + lit
    ensures LastIndex(text, lit) == |value|
  {
    assert Occurs(text, lit, |value|);
  }

  lemma OneExpanded(lit: string, value: string)
    ensures Expanded([lit], [value]) == value + lit
  {
    assert Expanded([lit][1..], [value][1..]) == "";
    assert lit + "" == lit;
  }

  lemma BoundOneFits(lit: string, text: string)
    requires Bound([lit], text).Some?
    ensures var values := Bound([lit], text).value;
            |values| == 1 && text == Expanded([lit], values) && Clear([lit], values)
  {
    var value := Bound([lit], text).value[0];
    OneExpanded(lit, value);
    assert text == text[..|value|] + text[|value|..];
  }

  lemma Around(text: string, lit: string, idx: nat)
    requires Occurs(text, lit, idx)
    ensures text == text[..idx] + (lit + text[idx + |lit|..])
  {
    assert text[idx..] == text[idx..idx + |lit|] + text[idx + |lit|..];
  }

  // A value led by where the literal first stands reaches past no place of it.
  lemma FirstIsClear(text: string, lit: string)
    requires Index(text, lit) >= 0
    ensures var idx := Index(text, lit); text == text[..idx] + (lit + text[idx + |lit|..]) && NoneBefore(text, lit, idx)
  {
    var idx := Index(text, lit);
    Around(text, lit, idx);
    forall i | 0 <= i < idx ensures !Occurs(text, lit, i) {
      if Occurs(text, lit, i) {
        IndexFirst(text, lit, i);
      }
    }
  }

  lemma LedFits(lits: seq<string>, first: string, rest: string, values: seq<string>)
    requires |lits| > 1 && |values| == |lits| - 1 && rest == Expanded(lits[1..], values)
    ensures Expanded(lits, [first] + values) == first + (lits[0] + rest)
  {
    assert ([first] + values)[1..] == values;
  }

  lemma {:induction false} BoundFits(lits: seq<string>, text: string)
    requires lits != [] && Bound(lits, text).Some?
    ensures var values := Bound(lits, text).value;
            |values| == |lits| && text == Expanded(lits, values) && Clear(lits, values)
    decreases |lits|
  {
    if |lits| == 1 {
      assert lits == [lits[0]];
      BoundOneFits(lits[0], text);
    } else {
      var idx := Index(text, lits[0]);
      var rest := text[idx + |lits[0]|..];
      BoundFits(lits[1..], rest);
      var values := Bound(lits[1..], rest).value;
      FirstIsClear(text, lits[0]);
      LedFits(lits, text[..idx], rest, values);
      assert ([text[..idx]] + values)[1..] == values;
    }
  }

  lemma ClearOne(lit: string, value: string)
    requires value != ""
    ensures Bound([lit], Expanded([lit], [value])) == Some([value])
  {
    OneExpanded(lit, value);
    SuffixLast(value + lit, lit, value);
    assert (value + lit)[..|value|] == value;
  }

  lemma LedBound(lits: seq<string>, text: string, idx: nat, values: seq<string>)
    requires |lits| > 1 && Index(text, lits[0]) == idx > 0 && '/' !in text[..idx]
    requires Bound(lits[1..], text[idx + |lits[0]|..]) == Some(values)
    ensures Bound(lits, text) == Some([text[..idx]] + values)
  {
  }

  lemma Halves(v: string, lit: string, rest: string)
    ensures var text := v + (lit + rest);
            Occurs(text, lit, |v|) && text[..|v|] == v && text[|v| + |lit|..] == rest
  {
    var text := v + (lit + rest);
    assert text[|v|..|v| + |lit|] == lit;
  }

  lemma ClearStep(lits: seq<string>, v: string, values: seq<string>, rest: string)
    requires |lits| > 1 && v != "" && '/' !in v && Bound(lits[1..], rest) == Some(values)
    requires NoneBefore(v + (lits[0] + rest), lits[0], |v|)
    ensures Bound(lits, v + (lits[0] + rest)) == Some([v] + values)
  {
    Halves(v, lits[0], rest);
    FirstThere(v + (lits[0] + rest), lits[0], |v|);
    LedBound(lits, v + (lits[0] + rest), |v|, values);
  }

  lemma {:induction false} ClearBound(lits: seq<string>, values: seq<string>)
    requires lits != [] && |lits| == |values| && Clear(lits, values)
    ensures Bound(lits, Expanded(lits, values)) == Some(values)
    decreases |lits|
  {
    var v := values[0];
    assert values == [v] + values[1..];
    if |lits| == 1 {
      assert lits == [lits[0]] && values == [v];
      ClearOne(lits[0], v);
    } else {
      ClearBound(lits[1..], values[1..]);
      ClearStep(lits, v, values[1..], Expanded(lits[1..], values[1..]));
    }
  }

  // Matching inverts expansion: the values found are the ones whose expansion the text is, wherever
  // no literal stands earlier than its place; otherwise nothing is found.
  lemma BoundExactly(lits: seq<string>, values: seq<string>, text: string)
    requires lits != []
    ensures Bound(lits, text) == Some(values)
       <==> |values| == |lits| && text == Expanded(lits, values) && Clear(lits, values)
  {
    if Bound(lits, text) == Some(values) {
      BoundFits(lits, text);
    } else if |values| == |lits| && text == Expanded(lits, values) && Clear(lits, values) {
      ClearBound(lits, values);
    }
  }

  predicate StartsWith(s: string, t: string) {
    |t| <= |s| && s[..|t|] == t
  }

  function Values(t: Template, uri: string): Option<seq<string>>
    requires WellShaped(t) && t.names != []
  {
    if StartsWith(uri, t.literals[0]) then Bound(t.literals[1..], uri[|t.literals[0]|..]) else None
  }

  // A uri matches a template with exactly the values that expand to it clearly.
  lemma MatchInvertsExpansion(t: Template, uri: string, values: seq<string>)
    requires WellShaped(t) && t.names != []
    ensures Values(t, uri) == Some(values)
       <==> |values| == |t.names| && uri == Expansion(t, values) && Clear(t.literals[1..], values)
  {
    var first := t.literals[0];
    if StartsWith(uri, first) {
      BoundExactly(t.literals[1..], values, uri[|first|..]);
      assert uri == first + uri[|first|..];
      if |values| == |t.names| && uri == Expansion(t, values) {
        assert uri[|first|..] == Expanded(t.literals[1..], values);
      }
    } else if |values| == |t.names| && uri == Expansion(t, values) {
      assert uri[..|first|] == first;
    }
  }

  // Two placeholders with nothing between them match no uri.
  lemma {:induction false} AdjacentNeverMatch(lits: seq<string>, k: nat, text: string)
    requires k + 1 < |lits| && lits[k] == ""
    ensures Bound(lits, text) == None
    decreases k
  {
    if k == 0 {
      IndexFirst(text, "", 0);
    } else {
      var idx := Index(text, lits[0]);
      if idx > 0 {
        AdjacentNeverMatch(lits[1..], k - 1, text[idx + |lits[0]|..]);
      }
    }
  }

  // ----- Variables -----

  function Vars(names: seq<string>, values: seq<string>): map<string, string>
    requires |names| == |values|
  {
    if names == [] then map[]
    else Vars(names[..|names| - 1], values[..|names| - 1])[names[|names| - 1] := values[|names| - 1]]
  }

  predicate Distinct(names: seq<string>) {
    forall i, j :: 0 <= i < j < |names| ==> names[i] != names[j]
  }

  lemma {:induction false} VarsDistinct(names: seq<string>, values: seq<string>)
    requires |names| == |values| && Distinct(names)
    ensures forall i :: 0 <= i < |names| ==> names[i] in Vars(names, values) && Vars(names, values)[names[i]] == values[i]
  {
    if names == [] {
    } else {
      VarsDistinct(names[..|names| - 1], values[..|names| - 1]);
    }
  }

  // The template with every placeholder replaced by what is stated under its name.
  function Looked(names: seq<string>, vars: map<string, string>): seq<string>
    requires forall i :: 0 <= i < |names| ==> names[i] in vars
  {
    seq(|names|, i requires 0 <= i < |names| => vars[names[i]])
  }

  predicate Matches(template: string, uri: string, vars: map<string, string>) {
    var t := Parse(template);
    if t.names == [] then template == uri && vars == map[]
    else
      var values := Values(t, uri);
      values.Some? && |values.value| == |t.names| && vars == Vars(t.names, values.value)
  }

  // What a match states under distinct names puts the uri together again.
  lemma SubstitutesBack(template: string, uri: string, vars: map<string, string>)
    requires Matches(template, uri, vars) && Distinct(Parse(template).names)
    ensures var t := Parse(template);
            && (forall i :: 0 <= i < |t.names| ==> t.names[i] in vars)
            && uri == Expansion(t, Looked(t.names, vars))
  {
    var t := Parse(template);
    ParseReassembles(template);
    if t.names == [] {
      assert uri == t.literals[0];
    } else {
      var values := Values(t, uri).value;
      MatchInvertsExpansion(t, uri, values);
      VarsDistinct(t.names, values);
      assert Looked(t.names, vars) == values;
    }
  }

  function Behind(literals: seq<string>, names: seq<string>, rest: Template): Template {
    Template(literals + rest.literals, names + rest.names)
  }

  lemma BehindOne(literals: seq<string>, names: seq<string>, literal: string, name: string, rest: Template)
    ensures Behind(literals, names, Template([literal] + rest.literals, [name] + rest.names))
         == Behind(literals + [literal], names + [name], rest)
  {
    assert literals + ([literal] + rest.literals) == literals + [literal] + rest.literals;
    assert names + ([name] + rest.names) == names + [name] + rest.names;
  }

  lemma ParseAt(text: string, open: nat, close: nat)
    requires Hole(text) == Some(Span(open, close))
    ensures var rest := Parse(text[close + 1..]);
            Parse(text) == Template([text[..open]] + rest.literals, [text[open + 1..close]] + rest.names)
  {
  }

  lemma BehindStep(literals: seq<string>, names: seq<string>, text: string, open: nat, close: nat)
    requires Hole(text) == Some(Span(open, close))
    ensures Behind(literals, names, Parse(text))
         == Behind(literals + [text[..open]], names + [text[open + 1..close]], Parse(text[close + 1..]))
  {
    ParseAt(text, open, close);
    BehindOne(literals, names, text[..open], text[open + 1..close], Parse(text[close + 1..]));
  }

  lemma BehindLast(literals: seq<string>, names: seq<string>, rest: string)
    requires Hole(rest).None?
    ensures Behind(literals, names, Parse(rest)) == Template(literals + [rest], names)
  {
    assert names + [] == names;
  }

  method ParseTemplate(template: string) returns (literals: seq<string>, names: seq<string>)
    ensures Template(literals, names) == Parse(template)
  {
    literals, names := [], [];
    var rest := template;
    while true
      invariant |literals| == |names|
      invariant Parse(template) == Behind(literals, names, Parse(rest))
      decreases |rest|
    {
      var hole := Hole(rest);
      if hole.None? {
        BehindLast(literals, names, rest);
        return literals + [rest], names;
      }
      var open, close := hole.value.open, hole.value.close;
      BehindStep(literals, names, rest, open, close);
      literals, names := literals + [rest[..open]], names + [rest[open + 1..close]];
      rest := rest[close + 1..];
    }
  }

  function Prepended(front: seq<string>, rest: Option<seq<string>>): Option<seq<string>> {
    if rest.Some? then Some(front + rest.value) else None
  }

  lemma VarsAppend(names: seq<string>, i: nat, got: seq<string>, value: string)
    requires i < |names| && |got| == i
    ensures Vars(names[..i + 1], got + [value]) == Vars(names[..i], got)[names[i] := value]
  {
    assert names[..i + 1][..i] == names[..i];
    assert (got + [value])[..i] == got;
  }

  lemma AllNames(names: seq<string>)
    ensures names[..|names|] == names
  {
  }

  lemma PrependedNothing(o: Option<seq<string>>)
    ensures Prepended([], o) == o
  {
    if o.Some? {
      assert [] + o.value == o.value;
    }
  }

  // The values found so far, and those still to be found behind them.
  function Going(lits: seq<string>, k: nat, uri: string, pos: nat, got: seq<string>): Option<seq<string>>
    requires k < |lits| && pos <= |uri|
  {
    Prepended(got, Bound(lits[k..], uri[pos..]))
  }

  lemma BoundStops(lits: seq<string>, k: nat, text: string, got: seq<string>)
    requires k + 1 < |lits| && (Index(text, lits[k]) <= 0 || '/' in text[..Index(text, lits[k])])
    ensures Prepended(got, Bound(lits[k..], text)) == None
  {
    assert lits[k..][0] == lits[k];
  }

  lemma PrependedLed(got: seq<string>, first: string, o: Option<seq<string>>)
    ensures Prepended(got, Led(first, o)) == Prepended(got + [first], o)
  {
    if o.Some? {
      assert got + ([first] + o.value) == got + [first] + o.value;
    }
  }

  lemma BoundStep(lits: seq<string>, k: nat, uri: string, pos: nat, got: seq<string>, value: string, next: nat)
    requires k + 1 < |lits| && pos <= |uri|
    requires Index(uri[pos..], lits[k]) == |value| > 0 && value == uri[pos..][..|value|] && '/' !in value
    requires next == pos + |value| + |lits[k]| <= |uri|
    ensures Going(lits, k, uri, pos, got) == Going(lits, k + 1, uri, next, got + [value])
  {
    assert lits[k..][0] == lits[k] && lits[k..][1..] == lits[k + 1..];
    assert uri[next..] == uri[pos..][|value| + |lits[k]|..];
    PrependedLed(got, value, Bound(lits[k + 1..], uri[next..]));
  }

  lemma BoundLast(lits: seq<string>, text: string, got: seq<string>)
    requires lits != []
    ensures var lit := lits[|lits| - 1];
            var idx := if lit == "" then |text| else LastIndex(text, lit);
            var last := if idx <= 0 || idx + |lit| != |text| then None else Some(got + [text[..idx]]);
            Prepended(got, Bound(lits[|lits| - 1..], text)) == last
  {
    assert lits[|lits| - 1..] == [lits[|lits| - 1]];
  }

  ghost predicate Binds(values: Option<seq<string>>, names: seq<string>, vars: Option<map<string, string>>) {
    if vars.None? then values.None?
    else values.Some? && |values.value| == |names| && vars.value == Vars(names, values.value)
  }

  // One placeholder before the last takes what stands in front of the next literal.
  method BindOne(literals: seq<string>, k: nat, uri: string, pos: nat, ghost got: seq<string>)
    returns (value: Option<string>, next: nat)
    requires k + 1 < |literals| && pos <= |uri|
    ensures value.None? ==> Going(literals, k, uri, pos, got) == None
    ensures value.Some? ==>
              next <= |uri| && Going(literals, k, uri, pos, got) == Going(literals, k + 1, uri, next, got + [value.value])
  {
    var rest := uri[pos..];
    var idx := Index(rest, literals[k]);
    if idx <= 0 || '/' in rest[..idx] {
      BoundStops(literals, k, rest, got);
      return None, pos;
    }
    value, next := Some(rest[..idx]), pos + idx + |literals[k]|;
    BoundStep(literals, k, uri, pos, got, rest[..idx], next);
  }

  // The last placeholder takes what is left in front of the last literal.
  method BindLast(literals: seq<string>, names: seq<string>, rest: string, vars: map<string, string>, ghost got: seq<string>)
    returns (r: Option<map<string, string>>)
    requires |literals| == |names| + 1 && names != [] && |got| == |names| - 1
    requires vars == Vars(names[..|names| - 1], got)
    ensures Binds(Prepended(got, Bound(literals[|names|..], rest)), names, r)
  {
    var next := literals[|names|];
    BoundLast(literals, rest, got);
    var idx := if next != "" then LastIndex(rest, next) else |rest|;
    if idx < 0 || idx + |next| != |rest| || idx == 0 {
      return None;
    }
    VarsAppend(names, |names| - 1, got, rest[..idx]);
    AllNames(names);
    return Some(vars[names[|names| - 1] := rest[..idx]]);
  }

  // The placeholders filled one after another, each from where the one before left off.
  method Bind(literals: seq<string>, names: seq<string>, uri: string, start: nat) returns (r: Option<map<string, string>>)
    requires |literals| == |names| + 1 && names != [] && start <= |uri|
    ensures Binds(Bound(literals[1..], uri[start..]), names, r)
  {
    var vars: map<string, string> := map[];
    var pos: nat := start;
    ghost var got: seq<string> := [];
    ghost var spec := Bound(literals[1..], uri[start..]);
    PrependedNothing(spec);
    for i := 0 to |names| - 1
      invariant pos <= |uri| && |got| == i && vars == Vars(names[..i], got)
      invariant spec == Going(literals, i + 1, uri, pos, got)
    {
      var value, next := BindOne(literals, i + 1, uri, pos, got);
      if value.None? {
        return None;
      }
      VarsAppend(names, i, got, value.value);
      vars := vars[names[i] := value.value];
      got, pos := got + [value.value], next;
    }
    r := BindLast(literals, names, uri[pos..], vars, got);
  }

  method MatchURITemplate(template: string, uri: string) returns (r: Option<map<string, string>>)
    ensures r.Some? ==> Matches(template, uri, r.value)
    ensures r.None? ==> forall vars :: !Matches(template, uri, vars)
  {
    var literals, names := ParseTemplate(template);
    if |names| == 0 {
      return if template == uri then Some(map[]) else None;
    }
    if !StartsWith(uri, literals[0]) {
      return None;
    }
    r := Bind(literals, names, uri, |literals[0]|);
  }
}
