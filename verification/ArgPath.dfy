// server/argpath.go: reading an argument by its path, and what the rules read by the same one.
module ArgPath {
  import opened Wrappers
  import opened Json
  import D = Decimal

  // ----- Paths -----

  function Dot(path: string): (i: nat)
    ensures i <= |path| && (i < |path| ==> path[i] == '.')
  {
    if path == "" || path[0] == '.' then 0 else 1 + Dot(path[1..])
  }

  function Split(path: string): (segments: seq<string>)
    ensures segments != []
    decreases |path|
  {
    var i := Dot(path);
    if i == |path| then [path] else [path[..i]] + Split(path[i + 1..])
  }

  function Joined(segments: seq<string>): string
    requires segments != []
  {
    if |segments| == 1 then segments[0] else segments[0] + "." + Joined(segments[1..])
  }

  lemma DottedApart(path: string, i: nat)
    requires i < |path| && path[i] == '.'
    ensures path[..i] + "." + path[i + 1..] == path
  {
  }

  lemma JoinedLed(first: string, rest: seq<string>)
    requires rest != []
    ensures Joined([first] + rest) == first + "." + Joined(rest)
  {
    assert ([first] + rest)[1..] == rest;
  }

  // The segments of a path spell it, dots between them.
  lemma {:induction false} SplitJoins(path: string)
    ensures Joined(Split(path)) == path
    decreases |path|
  {
    var i := Dot(path);
    if i == |path| {
    } else {
      SplitJoins(path[i + 1..]);
      JoinedLed(path[..i], Split(path[i + 1..]));
      DottedApart(path, i);
    }
  }

  // ----- Members -----

  // A decimal number as it is written, below the length.
  function IndexOf(segment: string, length: nat): Option<nat> {
    if !D.IsDigits(segment) || (|segment| > 1 && segment[0] == '0') then None
    else
      var i := D.Number(segment);
      if 0 <= i < length then Some(i) else None
  }

  lemma Unpadded(segment: string)
    requires D.IsDigits(segment) && (|segment| > 1 ==> segment[0] != '0') && D.Number(segment) != 0
    ensures segment[0] != '0'
  {
    if |segment| == 1 {
      assert D.Number(segment) == 10 * D.Number("") + D.Digit(segment[0]);
    }
  }

  lemma ZeroAlone(segment: string)
    requires D.IsDigits(segment) && (|segment| > 1 ==> segment[0] != '0') && D.Number(segment) == 0
    ensures segment == D.Itoa(0)
  {
    if segment[0] != '0' {
      D.LeadingDigit(segment);
    }
    assert segment == "0" == D.Itoa(0);
  }

  lemma IndexIsCanonical(segment: string, length: nat, i: nat)
    ensures IndexOf(segment, length) == Some(i) <==> segment == D.Itoa(i) && i < length
  {
    if IndexOf(segment, length) == Some(i) {
      if i == 0 {
        ZeroAlone(segment);
      } else {
        Unpadded(segment);
        D.SpelledAlike(segment, D.Itoa(i));
      }
    }
    if segment == D.Itoa(i) && i == 0 {
      assert D.Itoa(0) == "0";
    }
  }

  function Member(target: Value, name: string): Option<Value> {
    match target
    case Object(ms) => if name in ms then Some(ms[name]) else None
    case Array(es) =>
      var i := IndexOf(name, |es|);
      if i.Some? then Some(es[i.value]) else None
    case _ => None
  }

  // What stands under a name: the member of an object so called, or the element of an array whose place
  // the name spells.
  lemma MemberReads(target: Value, name: string, v: Value)
    ensures Member(target, name) == Some(v) <==>
              || (target.Object? && name in target.members && target.members[name] == v)
              || (target.Array? && exists i :: 0 <= i < |target.elements| && name == D.Itoa(i) && target.elements[i] == v)
  {
    if target.Array? {
      var n := |target.elements|;
      if IndexOf(name, n).Some? {
        IndexIsCanonical(name, n, IndexOf(name, n).value);
      }
      forall i | 0 <= i < n && name == D.Itoa(i) ensures IndexOf(name, n) == Some(i) {
        IndexIsCanonical(name, n, i);
      }
    }
  }

  function Elements(target: Value): Option<seq<Value>> {
    match target
    case Array(es) => Some(es)
    case Object(ms) => Some(Members(ms))
    case _ => None
  }

  // ----- The walk -----

  const STAR := "*"

  function Collapsed(values: seq<Value>): seq<Value> {
    if values == [] then []
    else
      Collapsed(values[..|values| - 1])
      + if values[|values| - 1].Array? then values[|values| - 1].elements else []
  }

  function OrNull(o: Option<Value>): Value {
    if o.Some? then o.value else Null
  }

  function Walk(target: Value, segments: seq<string>): Option<Value>
    decreases |segments|
  {
    if segments == [] then Some(target)
    else if segments[0] == STAR then
      var es := Elements(target);
      if es.None? then None
      else
        var out := seq(|es.value|, i requires 0 <= i < |es.value| => OrNull(Walk(es.value[i], segments[1..])));
        Some(Array(if STAR in segments[1..] then Collapsed(out) else out))
    else
      var v := Member(target, segments[0]);
      if v.None? then None else Walk(v.value, segments[1..])
  }

  // ----- What a path reaches -----

  // One segment, from one value: every element at a star, the member where there is one otherwise.
  function Onward(target: Value, segment: string): seq<Value> {
    if segment == STAR then
      if Elements(target).Some? then Elements(target).value else []
    else
      if Member(target, segment).Some? then [Member(target, segment).value] else []
  }

  function Step(targets: seq<Value>, segment: string): seq<Value> {
    if targets == [] then [] else Step(targets[..|targets| - 1], segment) + Onward(targets[|targets| - 1], segment)
  }

  // Everything reached, in order, along every branch that goes on.
  function Spread(targets: seq<Value>, segments: seq<string>): seq<Value>
    decreases |segments|
  {
    if segments == [] then targets else Spread(Step(targets, segments[0]), segments[1..])
  }

  // How many segments lead up to the last star and take it.
  function ThroughLastStar(segments: seq<string>): (k: nat)
    ensures k <= |segments| && STAR !in segments[k..]
  {
    if segments == [] || STAR !in segments then 0
    else if STAR in segments[1..] then
      var k := ThroughLastStar(segments[1..]);
      assert segments[k + 1..] == segments[1..][k..];
      k + 1
    else
      1
  }

  function Ends(targets: seq<Value>, segments: seq<string>): seq<Value> {
    seq(|targets|, i requires 0 <= i < |targets| => OrNull(Walk(targets[i], segments)))
  }

  // All that stands at the last star, each with what the rest of the path finds from there, or a hole.
  function Flat(targets: seq<Value>, segments: seq<string>): seq<Value> {
    var k := ThroughLastStar(segments);
    Ends(Spread(targets, segments[..k]), segments[k..])
  }

  lemma StepLast(front: seq<Value>, last: Value, segment: string)
    ensures Step(front + [last], segment) == Step(front, segment) + Onward(last, segment)
  {
    assert (front + [last])[..|front|] == front;
  }

  lemma LastApart(a: seq<Value>, b: seq<Value>)
    requires b != []
    ensures a + b == a + b[..|b| - 1] + [b[|b| - 1]]
  {
  }

  lemma Regrouped(a: seq<Value>, b: seq<Value>, c: seq<Value>)
    ensures a + b + c == a + (b + c)
  {
  }

  lemma {:induction false} StepConcat(a: seq<Value>, b: seq<Value>, segment: string)
    ensures Step(a + b, segment) == Step(a, segment) + Step(b, segment)
  {
    if b == [] {
      assert a + b == a;
    } else {
      var front, last := b[..|b| - 1], b[|b| - 1];
      StepConcat(a, front, segment);
      LastApart(a, b);
      StepLast(a + front, last, segment);
      Regrouped(Step(a, segment), Step(front, segment), Onward(last, segment));
    }
  }

  lemma {:induction false} SpreadConcat(a: seq<Value>, b: seq<Value>, segments: seq<string>)
    ensures Spread(a + b, segments) == Spread(a, segments) + Spread(b, segments)
    decreases |segments|
  {
    if segments == [] {
    } else {
      StepConcat(a, b, segments[0]);
      SpreadConcat(Step(a, segments[0]), Step(b, segments[0]), segments[1..]);
    }
  }

  lemma {:induction false} SpreadNothing(segments: seq<string>)
    ensures Spread([], segments) == []
    decreases |segments|
  {
    if segments == [] {
    } else {
      SpreadNothing(segments[1..]);
    }
  }

  lemma StepOne(target: Value, segment: string)
    ensures Step([target], segment) == Onward(target, segment)
  {
    assert [target][..0] == [];
  }

  lemma SpreadLed(targets: seq<Value>, segments: seq<string>, k: nat)
    requires k < |segments|
    ensures Spread(targets, segments[..k + 1]) == Spread(Step(targets, segments[0]), segments[1..][..k])
    ensures segments[k + 1..] == segments[1..][k..]
  {
    assert segments[..k + 1][1..] == segments[1..][..k];
  }

  lemma InRest(segments: seq<string>)
    requires segments != [] && STAR in segments[1..]
    ensures STAR in segments
  {
    var i :| 0 <= i < |segments[1..]| && segments[1..][i] == STAR;
    assert segments[i + 1] == STAR;
  }

  lemma FlatOnward(target: Value, segments: seq<string>)
    requires segments != [] && STAR in segments[1..]
    ensures Flat([target], segments) == Flat(Onward(target, segments[0]), segments[1..])
  {
    InRest(segments);
    StepOne(target, segments[0]);
    SpreadLed([target], segments, ThroughLastStar(segments[1..]));
  }

  lemma EndsConcat(a: seq<Value>, b: seq<Value>, segments: seq<string>)
    ensures Ends(a + b, segments) == Ends(a, segments) + Ends(b, segments)
  {
  }

  lemma CollapsedLast(front: seq<Value>, v: Value)
    ensures Collapsed(front + [v]) == Collapsed(front) + if v.Array? then v.elements else []
  {
    assert (front + [v])[..|front|] == front;
  }

  // What the walk makes of a path with a star: everything the path spreads to, or nothing at all.
  predicate Flattens(target: Value, segments: seq<string>) {
    Walk(target, segments) == Some(Array(Flat([target], segments)))
    || (Walk(target, segments) == None && Flat([target], segments) == [])
  }

  lemma CollapsedStep(front: seq<Value>, last: Value, segments: seq<string>)
    requires Flattens(last, segments)
    ensures Collapsed(Ends(front + [last], segments)) == Collapsed(Ends(front, segments)) + Flat([last], segments)
  {
    EndsConcat(front, [last], segments);
    CollapsedLast(Ends(front, segments), OrNull(Walk(last, segments)));
    assert Ends([last], segments) == [OrNull(Walk(last, segments))];
  }

  lemma FlatStep(front: seq<Value>, last: Value, segments: seq<string>)
    ensures Flat(front + [last], segments) == Flat(front, segments) + Flat([last], segments)
  {
    var k := ThroughLastStar(segments);
    SpreadConcat(front, [last], segments[..k]);
    EndsConcat(Spread(front, segments[..k]), Spread([last], segments[..k]), segments[k..]);
  }

  lemma FlatNothing(segments: seq<string>)
    ensures Flat([], segments) == []
  {
    SpreadNothing(segments[..ThroughLastStar(segments)]);
  }

  lemma {:induction false} CollapsedFlat(es: seq<Value>, segments: seq<string>)
    requires forall i :: 0 <= i < |es| ==> Flattens(es[i], segments)
    ensures Collapsed(Ends(es, segments)) == Flat(es, segments)
  {
    if es == [] {
      FlatNothing(segments);
    } else {
      var front, last := es[..|es| - 1], es[|es| - 1];
      CollapsedFlat(front, segments);
      FlatStep(front, last, segments);
      CollapsedStep(front, last, segments);
      assert es == front + [last];
    }
  }

  lemma LastStarFlat(target: Value, segments: seq<string>)
    requires segments != [] && segments[0] == STAR && STAR !in segments[1..]
    ensures Flat([target], segments) == Ends(Onward(target, STAR), segments[1..])
  {
    StepOne(target, STAR);
    assert segments[..1] == [STAR] && [STAR][1..] == [];
    assert ThroughLastStar(segments) == 1;
    assert Spread([target], [STAR]) == Spread(Onward(target, STAR), []);
  }

  lemma {:induction false} WalkFlattens(target: Value, segments: seq<string>)
    requires STAR in segments
    ensures Flattens(target, segments)
    decreases |segments|
  {
    var rest := segments[1..];
    if STAR in rest {
      FlatOnward(target, segments);
      if segments[0] == STAR {
        var es := Onward(target, STAR);
        forall i | 0 <= i < |es| ensures Flattens(es[i], rest) {
          WalkFlattens(es[i], rest);
        }
        CollapsedFlat(es, rest);
      } else {
        FlatNothing(rest);
        var v := Member(target, segments[0]);
        if v.Some? {
          WalkFlattens(v.value, rest);
        }
      }
    } else {
      assert segments[0] == STAR;
      LastStarFlat(target, segments);
    }
  }

  // Where the first star stands.
  function FirstStar(segments: seq<string>): (k: nat)
    requires STAR in segments
    ensures k < |segments| && segments[k] == STAR && STAR !in segments[..k]
  {
    if segments[0] == STAR then 0
    else
      var k := FirstStar(segments[1..]);
      assert segments[..k + 1] == [segments[0]] + segments[1..][..k];
      k + 1
  }

  lemma {:induction false} WalkToContainer(target: Value, segments: seq<string>)
    requires STAR in segments
    ensures var c := Walk(target, segments[..FirstStar(segments)]);
            Walk(target, segments).Some? <==> c.Some? && Elements(c.value).Some?
    decreases |segments|
  {
    var k := FirstStar(segments);
    if k == 0 {
    } else {
      assert segments[..k][1..] == segments[1..][..k - 1];
      var v := Member(target, segments[0]);
      if v.Some? {
        WalkToContainer(v.value, segments[1..]);
      }
    }
  }

  // A path with stars reads, when its first star meets a container, one list: everything standing at
  // its last star, in order over all branches, each with what the rest of the path finds or a hole.
  lemma StarPathReads(target: Value, segments: seq<string>)
    requires STAR in segments
    ensures var c := Walk(target, segments[..FirstStar(segments)]);
            var found := c.Some? && Elements(c.value).Some?;
            Walk(target, segments) == if found then Some(Array(Flat([target], segments))) else None
  {
    WalkFlattens(target, segments);
    WalkToContainer(target, segments);
  }

  lemma {:induction false} PlainJoin(target: Value, a: seq<string>, b: seq<string>)
    requires STAR !in a
    ensures Walk(target, a + b) == if Walk(target, a).Some? then Walk(Walk(target, a).value, b) else None
    decreases |a|
  {
    if a == [] {
      assert a + b == b;
    } else {
      assert (a + b)[1..] == a[1..] + b;
      var v := Member(target, a[0]);
      if v.Some? {
        PlainJoin(v.value, a[1..], b);
      }
    }
  }

  // With one star the list keeps place with the container: its i-th entry is what the rest of the
  // path finds from the i-th element, or a hole.
  lemma OneStarKeepsPlace(target: Value, a: seq<string>, b: seq<string>)
    requires STAR !in a && STAR !in b
    ensures var c := Walk(target, a);
            var r := Walk(target, a + ([STAR] + b));
            if c.Some? && Elements(c.value).Some? then
              && r.Some? && r.value.Array? && |r.value.elements| == |Elements(c.value).value|
              && forall i :: 0 <= i < |r.value.elements| ==>
                   r.value.elements[i] == OrNull(Walk(Elements(c.value).value[i], b))
            else
              r == None
  {
    PlainJoin(target, a, [STAR] + b);
    assert ([STAR] + b)[1..] == b;
  }

  // ----- Resolving -----

  datatype Piece = Piece(segment: string, rest: string, more: bool)

  function Cut(path: string): Piece {
    var i := Dot(path);
    if i == |path| then Piece(path, "", false) else Piece(path[..i], path[i + 1..], true)
  }

  lemma CutSplits(path: string)
    ensures var p := Cut(path);
            Split(path) == if p.more then [p.segment] + Split(p.rest) else [p.segment]
  {
  }

  // Whether some segment is a star; an empty rest hides none.
  method HasWildcardSegment(path: string) returns (r: bool)
    ensures r <==> STAR in Split(path)
  {
    var rest := path;
    while rest != ""
      invariant STAR in Split(path) <==> STAR in Split(rest)
      decreases |rest|
    {
      var p := Cut(rest);
      CutSplits(rest);
      if p.segment == STAR {
        return true;
      }
      if !p.more {
        return false;
      }
      rest := p.rest;
    }
    return false;
  }

  method Collapse(values: seq<Value>) returns (out: seq<Value>)
    ensures out == Collapsed(values)
  {
    out := [];
    for i := 0 to |values|
      invariant out == Collapsed(values[..i])
    {
      assert values[..i + 1][..i] == values[..i];
      if values[i].Array? {
        out := out + values[i].elements;
      }
    }
    assert values[..|values|] == values;
  }

  method ResolvePath(from: Value, whole: string) returns (r: Option<Value>)
    ensures r == Walk(from, Split(whole))
    decreases |whole|, 0
  {
    var target, path := from, whole;
    while true
      invariant Walk(from, Split(whole)) == Walk(target, Split(path)) && |path| <= |whole|
      decreases |path|
    {
      var p := Cut(path);
      CutSplits(path);
      if p.segment == STAR {
        r := Collect(target, p.rest, p.more);
        return;
      }
      var v := Member(target, p.segment);
      if v.None? {
        return None;
      }
      if !p.more {
        return v;
      }
      target, path := v.value, p.rest;
    }
  }

  // The segments behind a star, none where no dot follows it.
  function Behind(rest: string, more: bool): seq<string> {
    if more then Split(rest) else []
  }

  method Collect(target: Value, rest: string, more: bool) returns (r: Option<Value>)
    requires !more ==> rest == ""
    ensures r == Walk(target, [STAR] + Behind(rest, more))
    decreases |rest|, 2
  {
    assert ([STAR] + Behind(rest, more))[1..] == Behind(rest, more);
    var es := Elements(target);
    if es.None? {
      return None;
    }
    var out := CollectEach(es.value, rest, more);
    var wild := HasWildcardSegment(rest);
    if wild {
      out := Collapse(out);
    }
    return Some(Array(out));
  }

  method CollectEach(es: seq<Value>, rest: string, more: bool) returns (out: seq<Value>)
    ensures out == Ends(es, Behind(rest, more))
    decreases |rest|, 1
  {
    out := [];
    for i := 0 to |es|
      invariant out == Ends(es[..i], Behind(rest, more))
    {
      var e := es[i];
      if !more {
        out := out + [e];
      } else {
        var v := ResolvePath(e, rest);
        out := out + [OrNull(v)];
      }
    }
    assert es[..|es|] == es;
  }

  // ----- The rules' own reading -----

  // Objects alone are walked, each segment a plain name.
  function Engine(args: map<string, Value>, segments: seq<string>): Option<Value>
    requires segments != []
    decreases |segments|
  {
    if segments[0] !in args then None
    else if |segments| == 1 then Some(args[segments[0]])
    else if args[segments[0]].Object? then Engine(args[segments[0]].members, segments[1..])
    else None
  }

  method EngineValue(args: map<string, Value>, field: string) returns (r: Option<Value>)
    ensures r == Engine(args, Split(field))
  {
    var current, parts := args, Split(field);
    for i := 0 to |parts|
      invariant i < |parts| && Engine(args, parts) == Engine(current, parts[i..])
    {
      var part := parts[i];
      assert parts[i..][1..] == parts[i + 1..];
      if i == |parts| - 1 {
        return if part in current then Some(current[part]) else None;
      }
      if part !in current || !current[part].Object? {
        return None;
      }
      current := current[part].members;
    }
    return None;
  }

  // What the rules find under a path without stars, the accessors find there too.
  lemma {:induction false} EngineFindsNoMore(args: map<string, Value>, segments: seq<string>)
    requires segments != [] && STAR !in segments && Engine(args, segments).Some?
    ensures Walk(Object(args), segments) == Engine(args, segments)
    decreases |segments|
  {
    if |segments| > 1 {
      EngineFindsNoMore(args[segments[0]].members, segments[1..]);
    } else {
      assert segments[1..] == [];
    }
  }

  datatype Request = Request(args: Option<map<string, Value>>, uriVars: set<string>)

  function Plain(args: map<string, Value>, key: string): Option<Value> {
    if key in args then Some(args[key]) else None
  }

  // A name the uri bound is read as it stands; any other is a path first, and a plain name after.
  function Looked(r: Request, key: string): Option<Value> {
    if r.args.None? then None
    else if key in r.uriVars then Plain(r.args.value, key)
    else
      var v := Walk(Object(r.args.value), Split(key));
      if v.Some? then v else Plain(r.args.value, key)
  }

  method Lookup(r: Request, key: string) returns (v: Option<Value>)
    ensures v == Looked(r, key)
  {
    if r.args.None? {
      return None;
    }
    if key in r.uriVars {
      return Plain(r.args.value, key);
    }
    v := ResolvePath(Object(r.args.value), key);
    if v.None? {
      v := Plain(r.args.value, key);
    }
  }

  function RulesFind(r: Request, field: string): Option<Value> {
    if r.args.None? then None else Engine(r.args.value, Split(field))
  }

  // A field is refused exactly when it has a star or the rules would see another value, or none,
  // where the accessors read one.
  method RuleFieldFault(r: Request, field: string) returns (fault: bool)
    ensures fault <==> STAR in Split(field) || RulesFind(r, field) != Looked(r, field)
  {
    var wild := HasWildcardSegment(field);
    if wild {
      return true;
    }
    var ev := EngineValue(if r.args.None? then map[] else r.args.value, field);
    var av := Lookup(r, field);
    if ev.Some? != av.Some? || (ev.Some? && ev.value != av.value) {
      return true;
    }
    return false;
  }

  // Without a bound name in play, a field without stars is refused only because the rules find
  // nothing where the accessors find something.
  lemma FaultOnlyWhereNothingFound(r: Request, field: string)
    requires STAR !in Split(field) && field !in r.uriVars
    ensures RulesFind(r, field) != Looked(r, field) <==> RulesFind(r, field).None? && Looked(r, field).Some?
  {
    if RulesFind(r, field).Some? {
      EngineFindsNoMore(r.args.value, Split(field));
    }
  }
}
