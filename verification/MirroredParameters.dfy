// client/mirrored.go: reading the annotated properties down the property chains.
module MirroredParameters {
  import opened Wrappers
  import opened Json
  import opened MirroredSchema
  import opened MirroredPlaces

  // ----- The annotated properties -----

  datatype Param = Param(path: seq<string>, name: string, kind: string)

  datatype Mark = Mark(path: seq<string>, member: Value)

  predicate Annotated(member: Value) {
    member.Object? && ANNOTATION in member.members
  }

  // Every annotated property below a schema, in the order they are reached.
  function Marks(schema: Value, path: seq<string>): seq<Mark>
    decreases schema, 1
  {
    if schema.Object? && PROPERTIES in schema.members && schema.members[PROPERTIES].Object? then
      MarksOf(schema.members[PROPERTIES], SortedKeys(schema.members[PROPERTIES].members.Keys), path)
    else
      []
  }

  function MarksOf(properties: Value, keys: seq<string>, path: seq<string>): seq<Mark>
    requires properties.Object?
    decreases properties, |keys|
  {
    if keys == [] then []
    else
      var last := keys[|keys| - 1];
      MarksOf(properties, keys[..|keys| - 1], path)
      + if last in properties.members then MarksUnder(properties.members[last], path + [last]) else []
  }

  function MarksUnder(member: Value, path: seq<string>): seq<Mark>
    decreases member, 2
  {
    (if Annotated(member) then [Mark(path, member)] else []) + Marks(member, path)
  }

  // ----- They are what property chains reach -----

  function PropertyAt(schema: Value, path: seq<string>): Option<Value>
    decreases |path|
  {
    if path == [] then Some(schema)
    else if schema.Object? && PROPERTIES in schema.members && schema.members[PROPERTIES].Object?
            && path[0] in schema.members[PROPERTIES].members then
      PropertyAt(schema.members[PROPERTIES].members[path[0]], path[1..])
    else None
  }

  // A mark stands below the base, at the property its path names.
  predicate Stands(schema: Value, base: seq<string>, m: Mark) {
    |base| < |m.path| && base == m.path[..|base|]
    && Annotated(m.member) && PropertyAt(schema, m.path[|base|..]) == Some(m.member)
  }

  lemma {:induction false} MarksStand(schema: Value, base: seq<string>, m: Mark)
    requires m in Marks(schema, base)
    ensures Stands(schema, base, m)
    decreases schema, 1
  {
    var properties := schema.members[PROPERTIES];
    MarksOfStand(schema, properties, SortedKeys(properties.members.Keys), base, m);
  }

  lemma StandsDeeper(schema: Value, properties: Value, base: seq<string>, key: string, m: Mark)
    requires schema.Object? && PROPERTIES in schema.members && schema.members[PROPERTIES] == properties
    requires properties.Object? && key in properties.members
    requires Stands(properties.members[key], base + [key], m)
    ensures Stands(schema, base, m) && m.path[|base|] == key
  {
    assert m.path[..|base + [key]|] == base + [key];
    assert m.path[..|base|] == (base + [key])[..|base|] == base;
    assert m.path[|base|] == (base + [key])[|base|];
    assert m.path[|base|..][1..] == m.path[|base + [key]|..];
  }

  lemma {:induction false} MarksOfStand(schema: Value, properties: Value, keys: seq<string>, base: seq<string>, m: Mark)
    requires schema.Object? && PROPERTIES in schema.members && schema.members[PROPERTIES] == properties
    requires properties.Object? && m in MarksOf(properties, keys, base)
    ensures Stands(schema, base, m) && m.path[|base|] in keys
    decreases properties, |keys|
  {
    var front, last := keys[..|keys| - 1], keys[|keys| - 1];
    if m in MarksOf(properties, front, base) {
      MarksOfStand(schema, properties, front, base, m);
    } else {
      var member := properties.members[last];
      if m !in Marks(member, base + [last]) {
        assert m == Mark(base + [last], member);
        assert m.path[|base|..] == [last];
        assert PropertyAt(member, [last][1..]) == Some(member);
      } else {
        MarksStand(member, base + [last], m);
        StandsDeeper(schema, properties, base, last, m);
      }
    }
  }

  lemma {:induction false} MarksOfHolds(properties: Value, keys: seq<string>, base: seq<string>, key: string, m: Mark)
    requires properties.Object? && key in keys && key in properties.members
    requires m in MarksUnder(properties.members[key], base + [key])
    ensures m in MarksOf(properties, keys, base)
    decreases |keys|
  {
    var front, last := keys[..|keys| - 1], keys[|keys| - 1];
    if key != last {
      assert keys == front + [last];
      MarksOfHolds(properties, front, base, key, m);
    }
  }

  lemma {:induction false} MarksComplete(schema: Value, base: seq<string>, rel: seq<string>)
    requires rel != [] && PropertyAt(schema, rel).Some? && Annotated(PropertyAt(schema, rel).value)
    ensures Mark(base + rel, PropertyAt(schema, rel).value) in Marks(schema, base)
    decreases |rel|
  {
    var properties := schema.members[PROPERTIES];
    var key := rel[0];
    var member := properties.members[key];
    var m := Mark(base + rel, PropertyAt(schema, rel).value);
    if |rel| == 1 {
      assert rel == [key] && rel[1..] == [];
      assert m == Mark(base + [key], member);
    } else {
      MarksComplete(member, base + [key], rel[1..]);
      assert base + [key] + rel[1..] == base + rel;
    }
    assert m in MarksUnder(member, base + [key]);
    assert key in SortedKeys(properties.members.Keys);
    MarksOfHolds(properties, SortedKeys(properties.members.Keys), base, key, m);
  }

  predicate PathsApart(marks: seq<Mark>) {
    forall i, j :: 0 <= i < j < |marks| ==> marks[i].path != marks[j].path
  }

  predicate Unrepeated(keys: seq<string>) {
    forall i, j :: 0 <= i < j < |keys| ==> keys[i] != keys[j]
  }

  lemma {:induction false} MarksApart(schema: Value, base: seq<string>)
    ensures PathsApart(Marks(schema, base))
    decreases schema, 1
  {
    if schema.Object? && PROPERTIES in schema.members && schema.members[PROPERTIES].Object? {
      var properties := schema.members[PROPERTIES];
      var keys := SortedKeys(properties.members.Keys);
      KeysAscend(properties.members.Keys);
      MarksOfApart(schema, properties, keys, base);
    }
  }

  lemma UnderKey(member: Value, base: seq<string>, key: string, m: Mark)
    requires m in MarksUnder(member, base + [key])
    ensures |m.path| > |base| && m.path[|base|] == key
  {
    if m in Marks(member, base + [key]) {
      MarksStand(member, base + [key], m);
      assert m.path[|base|] == m.path[..|base + [key]|][|base|];
    }
  }

  lemma ApartJoined(a: seq<Mark>, b: seq<Mark>)
    requires PathsApart(a) && PathsApart(b)
    requires forall i, j :: 0 <= i < |a| && 0 <= j < |b| ==> a[i].path != b[j].path
    ensures PathsApart(a + b)
  {
  }

  lemma MarksUnderApart(member: Value, path: seq<string>)
    requires PathsApart(Marks(member, path))
    ensures PathsApart(MarksUnder(member, path))
  {
    var b := Marks(member, path);
    if Annotated(member) {
      forall j | 0 <= j < |b| ensures path != b[j].path {
        MarksStand(member, path, b[j]);
      }
      ApartJoined([Mark(path, member)], b);
    } else {
      assert MarksUnder(member, path) == b;
    }
  }

  lemma {:induction false} MarksOfApart(schema: Value, properties: Value, keys: seq<string>, base: seq<string>)
    requires schema.Object? && PROPERTIES in schema.members && schema.members[PROPERTIES] == properties
    requires properties.Object? && Unrepeated(keys)
    ensures PathsApart(MarksOf(properties, keys, base))
    decreases properties, |keys|
  {
    if keys == [] {
    } else {
      var front, last := keys[..|keys| - 1], keys[|keys| - 1];
      MarksOfApart(schema, properties, front, base);
      if last in properties.members {
        var member := properties.members[last];
        MarksApart(member, base + [last]);
        MarksUnderApart(member, base + [last]);
        var a, b := MarksOf(properties, front, base), MarksUnder(member, base + [last]);
        forall i, j | 0 <= i < |a| && 0 <= j < |b| ensures a[i].path != b[j].path {
          MarksOfStand(schema, properties, front, base, a[i]);
          UnderKey(member, base, last, b[j]);
        }
        ApartJoined(a, b);
      }
    }
  }

  // The marks are the annotated properties a chain of properties reaches, each once, and nothing else.
  lemma MarksExactly(schema: Value, m: Mark)
    ensures m in Marks(schema, []) <==> m.path != [] && Annotated(m.member) && PropertyAt(schema, m.path) == Some(m.member)
    ensures PathsApart(Marks(schema, []))
  {
    MarksApart(schema, []);
    if m in Marks(schema, []) {
      MarksStand(schema, [], m);
      assert m.path[0..] == m.path;
    }
    if m.path != [] && Annotated(m.member) && PropertyAt(schema, m.path) == Some(m.member) {
      MarksComplete(schema, [], m.path);
      assert [] + m.path == m.path;
    }
  }

  // ----- What a mark states -----

  const TOKEN_CHARS := "!#$%&'*+-.^_`|~"

  predicate TokenChar(c: char) {
    'a' <= c <= 'z' || 'A' <= c <= 'Z' || '0' <= c <= '9' || c in TOKEN_CHARS
  }

  predicate HeaderToken(s: string) {
    s != "" && forall i :: 0 <= i < |s| ==> TokenChar(s[i])
  }

  function TextOf(member: Value, key: string): string {
    if member.Object? && key in member.members && member.members[key].Text? then member.members[key].text else ""
  }

  predicate ValidMark(member: Value) {
    && HeaderToken(TextOf(member, ANNOTATION))
    && TextOf(member, "type") in {"string", "integer", "boolean"}
  }

  predicate AllValid(marks: seq<Mark>) {
    forall i :: 0 <= i < |marks| ==> ValidMark(marks[i].member)
  }

  function ParamOf(m: Mark): Param {
    Param(m.path, TextOf(m.member, ANNOTATION), TextOf(m.member, "type"))
  }

  function ParamsOf(marks: seq<Mark>): seq<Param> {
    seq(|marks|, i requires 0 <= i < |marks| => ParamOf(marks[i]))
  }

  lemma Joined(a: seq<Mark>, b: seq<Mark>)
    ensures AllValid(a + b) <==> AllValid(a) && AllValid(b)
    ensures ParamsOf(a + b) == ParamsOf(a) + ParamsOf(b)
  {
    forall i | 0 <= i < |b| ensures (a + b)[|a| + i] == b[i] {
    }
    forall i | 0 <= i < |a| ensures (a + b)[i] == a[i] {
    }
  }

  // ----- The reader -----

  // The last of the keys taken up by what is read of the properties.
  lemma MarksOfNext(properties: Value, keys: seq<string>, i: nat, path: seq<string>)
    requires properties.Object? && i < |keys| && keys[i] in properties.members
    ensures MarksOf(properties, keys[..i + 1], path)
         == MarksOf(properties, keys[..i], path) + MarksUnder(properties.members[keys[i]], path + [keys[i]])
  {
    assert keys[..i + 1][..i] == keys[..i];
  }

  lemma {:induction false} InvalidStays(properties: Value, keys: seq<string>, i: nat, path: seq<string>)
    requires properties.Object? && i <= |keys| && !AllValid(MarksOf(properties, keys[..i], path))
    ensures !AllValid(MarksOf(properties, keys, path))
    decreases |keys| - i
  {
    if i < |keys| {
      assert keys[..i + 1][..i] == keys[..i];
      var last := keys[i];
      var more := if last in properties.members then MarksUnder(properties.members[last], path + [last]) else [];
      Joined(MarksOf(properties, keys[..i], path), more);
      InvalidStays(properties, keys, i + 1, path);
    } else {
      assert keys[..|keys|] == keys;
    }
  }

  // What one schema node of the chain has to offer, and what it must not.
  ghost predicate ChainFine(kinds: Kinds, schema: Value, consumed: bool, depth: nat, path: seq<string>) {
    Fine(kinds, schema, Chain(consumed), depth) && AllValid(Marks(schema, path))
  }

  ghost predicate PropertiesFine(kinds: Kinds, properties: Value, depth: nat, path: seq<string>)
    requires properties.Object?
  {
    && Fine(kinds, properties, Properties, depth)
    && AllValid(MarksOf(properties, SortedKeys(properties.members.Keys), path))
  }

  ghost predicate FineKey(kinds: Kinds, schema: Value, mode: Mode, depth: nat, key: string)
    requires schema.Object? && key in schema.members
  {
    FineMember(kinds, schema, mode, depth, key) && !(key == ANNOTATION && Reads(mode))
  }

  predicate Gathered(schema: Value, path: seq<string>, out: seq<Param>) {
    AllValid(Marks(schema, path)) && out == ParamsOf(Marks(schema, path))
  }

  // The keywords read so far, each fine, and what the properties among them made.
  ghost predicate KeysRead(kinds: Kinds, schema: Value, mode: Mode, depth: nat, keys: seq<string>, i: nat, path: seq<string>, out: seq<Param>)
    requires schema.Object? && i <= |keys| && forall j :: 0 <= j < |keys| ==> keys[j] in schema.members
  {
    && FineUpTo(kinds, schema, mode, depth, keys, i)
    && if PROPERTIES in keys[..i] then Gathered(schema, path, out) else out == []
  }

  lemma KeyRead(kinds: Kinds, schema: Value, mode: Mode, depth: nat, keys: seq<string>, i: nat, path: seq<string>,
                out: seq<Param>, found: seq<Param>)
    requires schema.Object? && i < |keys| && forall j :: 0 <= j < |keys| ==> keys[j] in schema.members
    requires KeysRead(kinds, schema, mode, depth, keys, i, path, out) && FineKey(kinds, schema, mode, depth, keys[i])
    requires keys[i] == PROPERTIES ==> Gathered(schema, path, found)
    ensures KeysRead(kinds, schema, mode, depth, keys, i + 1, path, if keys[i] == PROPERTIES then found else out)
  {
    OneMoreFine(kinds, schema, mode, depth, keys, i);
    assert keys[..i + 1] == keys[..i] + [keys[i]];
  }

  lemma KeyFails(kinds: Kinds, schema: Value, mode: Mode, depth: nat, key: string)
    requires schema.Object? && key in schema.members && !mode.Data?
    ensures !FineKey(kinds, schema, mode, depth, key) ==> !Fine(kinds, schema, mode, depth)
  {
    if !FineKey(kinds, schema, mode, depth, key) {
      NotFineFor(kinds, schema, mode, depth, key);
    }
  }

  lemma AllGathered(schema: Value, keys: seq<string>, path: seq<string>, out: seq<Param>)
    requires schema.Object? && keys == SortedKeys(schema.members.Keys)
    requires if PROPERTIES in keys[..|keys|] then Gathered(schema, path, out) else out == []
    ensures Gathered(schema, path, out)
  {
    assert keys[..|keys|] == keys;
  }

  ghost predicate PropertyFine(kinds: Kinds, member: Value, depth: nat, path: seq<string>) {
    Fine(kinds, member, if member.Object? then Chain(true) else Sub, depth) && AllValid(MarksUnder(member, path))
  }

  lemma PropertyFails(kinds: Kinds, properties: Value, depth: nat, keys: seq<string>, i: nat, path: seq<string>)
    requires properties.Object? && keys == SortedKeys(properties.members.Keys) && i < |keys|
    requires keys[i] in properties.members
    requires !PropertyFine(kinds, properties.members[keys[i]], depth + 1, path + [keys[i]])
    ensures !PropertiesFine(kinds, properties, depth, path)
  {
    var member := properties.members[keys[i]];
    if AllValid(MarksUnder(member, path + [keys[i]])) {
      NotFineFor(kinds, properties, Properties, depth, keys[i]);
    } else {
      MarksOfNext(properties, keys, i, path);
      Joined(MarksOf(properties, keys[..i], path), MarksUnder(member, path + [keys[i]]));
      InvalidStays(properties, keys, i + 1, path);
    }
  }

  predicate GatheredOf(properties: Value, keys: seq<string>, i: nat, path: seq<string>, out: seq<Param>)
    requires properties.Object? && i <= |keys|
  {
    var marks := MarksOf(properties, keys[..i], path);
    AllValid(marks) && out == ParamsOf(marks)
  }

  lemma GatherNext(properties: Value, keys: seq<string>, i: nat, path: seq<string>, out: seq<Param>, more: seq<Param>)
    requires properties.Object? && i < |keys| && keys[i] in properties.members && GatheredOf(properties, keys, i, path, out)
    requires var under := MarksUnder(properties.members[keys[i]], path + [keys[i]]);
             AllValid(under) && more == ParamsOf(under)
    ensures GatheredOf(properties, keys, i + 1, path, out + more)
  {
    MarksOfNext(properties, keys, i, path);
    Joined(MarksOf(properties, keys[..i], path), MarksUnder(properties.members[keys[i]], path + [keys[i]]));
  }

  // The properties under the first keys, each fine, and the parameters they make.
  ghost predicate ReadUpTo(kinds: Kinds, properties: Value, depth: nat, keys: seq<string>, i: nat, path: seq<string>, out: seq<Param>)
    requires properties.Object? && i <= |keys| && forall j :: 0 <= j < |keys| ==> keys[j] in properties.members
  {
    FineUpTo(kinds, properties, Properties, depth, keys, i) && GatheredOf(properties, keys, i, path, out)
  }

  lemma PropertyRead(kinds: Kinds, properties: Value, depth: nat, keys: seq<string>, i: nat, path: seq<string>,
                     out: seq<Param>, more: seq<Param>)
    requires properties.Object? && i < |keys| && forall j :: 0 <= j < |keys| ==> keys[j] in properties.members
    requires ReadUpTo(kinds, properties, depth, keys, i, path, out)
    requires var member := properties.members[keys[i]];
             PropertyFine(kinds, member, depth + 1, path + [keys[i]]) && more == ParamsOf(MarksUnder(member, path + [keys[i]]))
    ensures ReadUpTo(kinds, properties, depth, keys, i + 1, path, out + more)
  {
    OneMoreFine(kinds, properties, Properties, depth, keys, i);
    GatherNext(properties, keys, i, path, out, more);
  }

  lemma GatheredAll(properties: Value, keys: seq<string>, path: seq<string>, out: seq<Param>)
    requires properties.Object? && GatheredOf(properties, keys, |keys|, path, out)
    ensures AllValid(MarksOf(properties, keys, path)) && out == ParamsOf(MarksOf(properties, keys, path))
  {
    assert keys[..|keys|] == keys;
  }

  lemma AllRead(kinds: Kinds, properties: Value, depth: nat, keys: seq<string>, path: seq<string>, out: seq<Param>)
    requires properties.Object? && keys == SortedKeys(properties.members.Keys)
    requires forall j :: 0 <= j < |keys| ==> keys[j] in properties.members
    requires ReadUpTo(kinds, properties, depth, keys, |keys|, path, out)
    ensures PropertiesFine(kinds, properties, depth, path) && out == ParamsOf(MarksOf(properties, keys, path))
  {
    FineThroughout(kinds, properties, Properties, depth, keys);
    GatheredAll(properties, keys, path, out);
  }

  // One keyword of a chain node, fine with all that is annotated below it.
  ghost predicate KeyFine(kinds: Kinds, schema: Value, consumed: bool, depth: nat, key: string, path: seq<string>)
    requires schema.Object? && key in schema.members
  {
    FineKey(kinds, schema, Chain(consumed), depth, key) && (key == PROPERTIES ==> AllValid(Marks(schema, path)))
  }

  lemma KeySplits(kinds: Kinds, schema: Value, consumed: bool, depth: nat, key: string, path: seq<string>)
    requires schema.Object? && key in schema.members && kinds(PROPERTIES) != InstanceData
    ensures key == PROPERTIES && schema.members[key].Object? ==>
              && (KeyFine(kinds, schema, consumed, depth, key, path) <==> PropertiesFine(kinds, schema.members[key], depth, path))
              && Marks(schema, path) == MarksOf(schema.members[key], SortedKeys(schema.members[key].members.Keys), path)
    ensures !(key == PROPERTIES && schema.members[key].Object?) ==>
              && (KeyFine(kinds, schema, consumed, depth, key, path) <==> FineKey(kinds, schema, Chain(consumed), depth, key))
              && (key == PROPERTIES ==> Marks(schema, path) == [])
  {
  }

  class Reader {
    const kinds: Kinds
    // The property chain to the node being read, grown on the way in and cut back on the way out.
    var path: seq<string>

    constructor (kinds: Kinds)
      ensures this.kinds == kinds && path == []
    {
      this.kinds, path := kinds, [];
    }

    method MirroredIn(schema: Value, consumed: bool, depth: nat) returns (r: Option<seq<Param>>)
      requires schema.Object? && kinds(PROPERTIES) != InstanceData && kinds(ANNOTATION) != InstanceData
      modifies this`path
      ensures r.Some? <==> ChainFine(kinds, schema, consumed, depth, old(path))
      ensures r.Some? ==> path == old(path) && r.value == ParamsOf(Marks(schema, path))
      decreases schema, 1
    {
      if depth > MAX_DEPTH {
        NotFineHere(kinds, schema, Chain(consumed), depth);
        return None;
      }
      var out := [];
      var keys := SortedKeys(schema.members.Keys);
      KeysAreMembers(schema);
      for i := 0 to |keys|
        invariant path == old(path)
        invariant KeysRead(kinds, schema, Chain(consumed), depth, keys, i, path, out)
      {
        var found := KeyIn(schema, keys[i], consumed, depth);
        if found.None? {
          KeyFails(kinds, schema, Chain(consumed), depth, keys[i]);
          return None;
        }
        KeyRead(kinds, schema, Chain(consumed), depth, keys, i, path, out, found.value);
        if keys[i] == PROPERTIES {
          out := found.value;
        }
      }
      FineThroughout(kinds, schema, Chain(consumed), depth, keys);
      AllGathered(schema, keys, path, out);
      return Some(out);
    }

    // One keyword of a chain node.
    method KeyIn(schema: Value, key: string, consumed: bool, depth: nat) returns (r: Option<seq<Param>>)
      requires schema.Object? && key in schema.members
      requires kinds(PROPERTIES) != InstanceData && kinds(ANNOTATION) != InstanceData
      modifies this`path
      ensures r.Some? ==> KeyFine(kinds, schema, consumed, depth, key, old(path))
      ensures r.None? ==> !KeyFine(kinds, schema, consumed, depth, key, old(path))
      ensures r.Some? ==> path == old(path) && (key == PROPERTIES ==> r.value == ParamsOf(Marks(schema, path)))
      decreases schema, 0
    {
      KeySplits(kinds, schema, consumed, depth, key, path);
      if key == PROPERTIES && schema.members[key].Object? {
        r := PropertiesIn(schema.members[key], depth);
      } else {
        var fine := AwayFromChain(schema, key, consumed, depth);
        r := if fine then Some([]) else None;
      }
    }

    // A keyword that leads away from the chain, the node's own annotation among them.
    method AwayFromChain(schema: Value, key: string, consumed: bool, depth: nat) returns (fine: bool)
      requires schema.Object? && key in schema.members && !(key == PROPERTIES && schema.members[key].Object?)
      ensures fine <==> FineKey(kinds, schema, Chain(consumed), depth, key)
    {
      if key == ANNOTATION {
        DataIsFine(kinds, schema.members[key], depth + 1);
        return consumed;
      }
      fine := KeywordViolation(kinds, key, schema.members[key], depth + 1);
    }

    method PropertiesIn(properties: Value, depth: nat) returns (r: Option<seq<Param>>)
      requires properties.Object? && kinds(PROPERTIES) != InstanceData && kinds(ANNOTATION) != InstanceData
      modifies this`path
      ensures r.Some? <==> PropertiesFine(kinds, properties, depth, old(path))
      ensures r.Some? ==>
                path == old(path) && r.value == ParamsOf(MarksOf(properties, SortedKeys(properties.members.Keys), path))
      decreases properties, 1
    {
      var out := [];
      var keys := SortedKeys(properties.members.Keys);
      KeysAreMembers(properties);
      for i := 0 to |keys|
        invariant path == old(path)
        invariant ReadUpTo(kinds, properties, depth, keys, i, path, out)
      {
        var under := NextProperty(properties, depth, keys, i, out);
        if under.None? {
          return None;
        }
        out := under.value;
      }
      AllRead(kinds, properties, depth, keys, path, out);
      return Some(out);
    }

    // The property under the next key, read with the path grown by that key.
    method NextProperty(properties: Value, depth: nat, keys: seq<string>, i: nat, out: seq<Param>)
      returns (r: Option<seq<Param>>)
      requires kinds(PROPERTIES) != InstanceData && kinds(ANNOTATION) != InstanceData
      requires properties.Object? && keys == SortedKeys(properties.members.Keys) && i < |keys|
      requires forall j :: 0 <= j < |keys| ==> keys[j] in properties.members
      requires ReadUpTo(kinds, properties, depth, keys, i, path, out)
      modifies this`path
      ensures r.Some? ==> path == old(path) && ReadUpTo(kinds, properties, depth, keys, i + 1, path, r.value)
      ensures r.None? ==> !PropertiesFine(kinds, properties, depth, old(path))
      decreases properties, 0
    {
      path := path + [keys[i]];
      var under := PropertyIn(properties.members[keys[i]], depth + 1);
      if under.None? {
        PropertyFails(kinds, properties, depth, keys, i, old(path));
        return None;
      }
      PropertyRead(kinds, properties, depth, keys, i, old(path), out, under.value);
      path := path[..|path| - 1];
      return Some(out + under.value);
    }

    // One property, its own annotation first and those below it after.
    method PropertyIn(member: Value, depth: nat) returns (r: Option<seq<Param>>)
      requires kinds(PROPERTIES) != InstanceData && kinds(ANNOTATION) != InstanceData
      modifies this`path
      ensures r.Some? <==> PropertyFine(kinds, member, depth, old(path))
      ensures r.Some? ==> path == old(path) && r.value == ParamsOf(MarksUnder(member, path))
      decreases member, 2
    {
      if !member.Object? {
        var fine := SubschemaViolation(kinds, member, depth);
        assert MarksUnder(member, path) == [];
        return if fine then Some([]) else None;
      }
      var own := [];
      ghost var mark: seq<Mark> := if Annotated(member) then [Mark(path, member)] else [];
      Joined(mark, Marks(member, path));
      if ANNOTATION in member.members {
        if !ValidMark(member) {
          assert !ValidMark(mark[0].member);
          return None;
        }
        own := [ParamOf(Mark(path, member))];
      }
      var nested := MirroredIn(member, true, depth);
      if nested.None? {
        return None;
      }
      return Some(own + nested.value);
    }
  }

  // ----- A whole definition -----

  function LowerChar(c: char): char {
    if 'A' <= c <= 'Z' then (c as int - 'A' as int + 'a' as int) as char else c
  }

  function Lower(s: string): (r: string)
    ensures |r| == |s|
  {
    seq(|s|, i requires 0 <= i < |s| => LowerChar(s[i]))
  }

  // No two names alike when case is set aside.
  predicate NamesApart(params: seq<Param>) {
    forall i, j :: 0 <= i < j < |params| ==> Lower(params[i].name) != Lower(params[j].name)
  }

  // Every annotation in its place, none of it too deep, each well made, and no two named alike.
  ghost predicate Acceptable(schema: Value) {
    && WellPlaced(KEYWORDS, schema)
    && AllValid(Marks(schema, []))
    && NamesApart(ParamsOf(Marks(schema, [])))
  }

  // The names a chain goes by.
  function NamesOn(hops: seq<Hop>): seq<string>
    requires Chained(hops)
  {
    if hops == [] then []
    else
      assert OnChain(Above(hops));
      NamesOn(Above(Above(hops))) + [Last(hops).key]
  }

  lemma {:induction false} OneNameMore(schema: Value, path: seq<string>, key: string)
    requires PropertyAt(schema, path).Some?
    requires var node := PropertyAt(schema, path).value;
             node.Object? && PROPERTIES in node.members && node.members[PROPERTIES].Object? && key in node.members[PROPERTIES].members
    ensures PropertyAt(schema, path + [key]) == Some(PropertyAt(schema, path).value.members[PROPERTIES].members[key])
    decreases |path|
  {
    if path == [] {
      assert [] + [key] == [key] && [key][1..] == [];
    } else {
      assert (path + [key])[1..] == path[1..] + [key];
      OneNameMore(schema.members[PROPERTIES].members[path[0]], path[1..], key);
    }
  }

  lemma {:induction false} ChainReaches(schema: Value, hops: seq<Hop>)
    requires Chained(hops) && At(schema, hops).Some?
    ensures PropertyAt(schema, NamesOn(hops)) == At(schema, hops)
    ensures hops != [] ==> NamesOn(hops) != []
    decreases |hops|
  {
    if hops == [] {
    } else {
      var node := Above(Above(hops));
      assert At(schema, Above(hops)).Some? && At(schema, node).Some?;
      ChainReaches(schema, node);
      OneNameMore(schema, NamesOn(node), Last(hops).key);
    }
  }

  // What a chain carries as its annotation is the text of a mark.
  lemma ValidMarksPlain(schema: Value)
    requires AllValid(Marks(schema, []))
    ensures PlainMarks(schema)
  {
    forall hops: seq<Hop> | HeaderName(hops) && At(schema, hops).Some? ensures At(schema, hops).value.Text? {
      var path := NamesOn(Above(hops));
      ChainReaches(schema, Above(hops));
      MarksComplete(schema, [], path);
      var m := Mark([] + path, At(schema, Above(hops)).value);
      var i :| 0 <= i < |Marks(schema, [])| && Marks(schema, [])[i] == m;
      assert ValidMark(m.member);
    }
  }

  lemma FineWhereAcceptable(schema: Value)
    requires schema.Object?
    ensures AllValid(Marks(schema, [])) ==> (Fine(KindOf, schema, Chain(false), 0) <==> WellPlaced(KEYWORDS, schema))
  {
    if AllValid(Marks(schema, [])) {
      ValidMarksPlain(schema);
      KindOfSpells(KEYWORDS);
      FineWherePlaced(KindOf, KEYWORDS, schema);
    }
  }

  lemma Vocabulary()
    ensures KindOf(PROPERTIES) != InstanceData && KindOf(ANNOTATION) != InstanceData
  {
    AnnotationIsNone();
    PropertiesIsMap();
  }

  method NamesDiffer(params: seq<Param>) returns (r: bool)
    ensures r <==> NamesApart(params)
  {
    var seen: set<string> := {};
    for i := 0 to |params|
      invariant NamesApart(params[..i])
      invariant forall name :: name in seen <==> exists j :: 0 <= j < i && Lower(params[j].name) == name
    {
      var key := Lower(params[i].name);
      if key in seen {
        return false;
      }
      seen := seen + {key};
    }
    assert params[..|params|] == params;
    return true;
  }

  // The parameters of a definition are all its annotated properties, or nothing where one annotation
  // is out of place, badly made, or named like another, or the schema is too deep.
  method ParseMirroredParameters(schema: Value) returns (r: Option<seq<Param>>)
    requires schema.Object?
    ensures r.Some? <==> Acceptable(schema)
    ensures r.Some? ==> r.value == ParamsOf(Marks(schema, []))
  {
    Vocabulary();
    FineWhereAcceptable(schema);
    var reader := new Reader(KindOf);
    var params := reader.MirroredIn(schema, false, 0);
    if params.None? {
      return None;
    }
    var apart := NamesDiffer(params.value);
    return if apart then params else None;
  }
}
