// client/mirrored.go: the annotated properties of a tool's schema, and the annotations that make it invalid.
module MirroredSchema {
  import opened Wrappers
  import opened Json

  const ANNOTATION := "x-mcp-header"
  const PROPERTIES := "properties"
  const MAX_DEPTH := 256

  // ----- How each position of a schema is read -----

  // What a keyword's value is: a value of the arguments, a schema or an array of them, a map of
  // names to schemas, a map of names to names, or something this reader cannot place.
  datatype Kind = InstanceData | Subschema | SubschemaMap | NameList | Unknown

  const INSTANCE_DATA := {"const", "default", "enum", "examples"}
  const SUBSCHEMA := {
    "additionalItems", "additionalProperties", "allOf", "anyOf", "contains", "contentSchema", "else", "if",
    "items", "not", "oneOf", "prefixItems", "propertyNames", "then", "unevaluatedItems", "unevaluatedProperties"}
  const SUBSCHEMA_MAP := {"$defs", "definitions", "dependencies", "dependentSchemas", "patternProperties", "properties"}
  const NAME_LIST := {"dependentRequired"}

  function KindOf(key: string): Kind {
    if key in INSTANCE_DATA then InstanceData
    else if key in SUBSCHEMA then Subschema
    else if key in SUBSCHEMA_MAP then SubschemaMap
    else if key in NAME_LIST then NameList
    else Unknown
  }

  // The readers hold for any vocabulary of keywords; KindOf is the one they are used with.
  type Kinds = string -> Kind

  // Data is not read at all, and neither are the names of a map; Plain is read for annotations
  // anywhere, Sub as a schema no property chain reaches, Chain as one that is reached.
  datatype Mode =
    | Data
    | Plain
    | Sub
    | Names(schemas: bool)
    | Chain(consumed: bool)
    | Properties

  function KeywordMode(kinds: Kinds, key: string, value: Value): Mode {
    match kinds(key)
    case InstanceData => Data
    case Subschema => Sub
    case SubschemaMap => if value.Object? then Names(true) else Plain
    case NameList => if value.Object? then Names(false) else Plain
    case Unknown => Plain
  }

  function MemberMode(kinds: Kinds, mode: Mode, key: string, value: Value): Mode {
    match mode
    case Data => Data
    case Plain => Plain
    case Sub => KeywordMode(kinds, key, value)
    case Names(schemas) => if schemas then Sub else Plain
    case Chain(_) =>
      if key == ANNOTATION then Data
      else if key == PROPERTIES && value.Object? && kinds(key) != InstanceData then Properties
      else KeywordMode(kinds, key, value)
    case Properties => if value.Object? then Chain(true) else Sub
  }

  // A step down counts as one, but the step into the properties of a chain.
  function Cost(mode: Mode, key: string, value: Value): nat {
    if mode.Chain? && key == PROPERTIES && value.Object? then 0 else 1
  }

  predicate Measured(mode: Mode) {
    mode.Plain? || mode.Sub? || mode.Chain?
  }

  predicate Reads(mode: Mode) {
    mode.Plain? || mode.Sub? || mode == Chain(false)
  }

  // An annotation here names a property no chain reaches.
  predicate Unreachable(value: Value, mode: Mode) {
    value.Object? && ANNOTATION in value.members && Reads(mode)
  }

  predicate Permitted(value: Value, mode: Mode, depth: nat) {
    !Unreachable(value, mode) && (Measured(mode) ==> depth <= MAX_DEPTH)
  }

  // ----- Position by position -----

  datatype Hop = Key(key: string) | Item(index: nat)

  function Child(value: Value, hop: Hop): Option<Value> {
    if hop.Key? then
      if value.Object? && hop.key in value.members then Some(value.members[hop.key]) else None
    else
      if value.Array? && hop.index < |value.elements| then Some(value.elements[hop.index]) else None
  }

  function HopMode(kinds: Kinds, mode: Mode, hop: Hop, child: Value): Mode {
    if hop.Key? then MemberMode(kinds, mode, hop.key, child) else mode
  }

  function HopCost(mode: Mode, hop: Hop, child: Value): nat {
    if hop.Key? then Cost(mode, hop.key, child) else 1
  }

  // Whether what stands at the end of the hops is permitted there; data is read no further.
  predicate PermittedAt(kinds: Kinds, value: Value, mode: Mode, depth: nat, hops: seq<Hop>)
    decreases |hops|
  {
    if hops == [] then Permitted(value, mode, depth)
    else
      var child := Child(value, hops[0]);
      mode.Data? || child.None?
      || PermittedAt(kinds, child.value, HopMode(kinds, mode, hops[0], child.value), depth + HopCost(mode, hops[0], child.value), hops[1..])
  }

  // Every position at or below this one is permitted where it stands: no annotation out of reach, no
  // schema too deep.
  ghost predicate Fine(kinds: Kinds, value: Value, mode: Mode, depth: nat) {
    forall hops :: PermittedAt(kinds, value, mode, depth, hops)
  }

  lemma FineHere(kinds: Kinds, value: Value, mode: Mode, depth: nat)
    requires Fine(kinds, value, mode, depth)
    ensures Permitted(value, mode, depth)
  {
    assert PermittedAt(kinds, value, mode, depth, []);
  }

  lemma FineBelow(kinds: Kinds, value: Value, mode: Mode, depth: nat, hop: Hop)
    requires !mode.Data? && Child(value, hop).Some? && Fine(kinds, value, mode, depth)
    ensures var child := Child(value, hop).value;
            Fine(kinds, child, HopMode(kinds, mode, hop, child), depth + HopCost(mode, hop, child))
  {
    var child := Child(value, hop).value;
    var m, d := HopMode(kinds, mode, hop, child), depth + HopCost(mode, hop, child);
    forall hops: seq<Hop> ensures PermittedAt(kinds, child, m, d, hops) {
      assert PermittedAt(kinds, value, mode, depth, [hop] + hops);
      assert ([hop] + hops)[1..] == hops;
    }
  }

  lemma DataIsFine(kinds: Kinds, value: Value, depth: nat)
    ensures Fine(kinds, value, Data, depth)
  {
  }

  lemma LeafIsFine(kinds: Kinds, value: Value, mode: Mode, depth: nat)
    requires !value.Object? && !value.Array? && Permitted(value, mode, depth)
    ensures Fine(kinds, value, mode, depth)
  {
    forall hops: seq<Hop> ensures PermittedAt(kinds, value, mode, depth, hops) {
    }
  }

  // One member of an object, found fine where its place has it read.
  ghost predicate FineMember(kinds: Kinds, value: Value, mode: Mode, depth: nat, key: string)
    requires value.Object? && key in value.members
  {
    var child := value.members[key];
    Fine(kinds, child, MemberMode(kinds, mode, key, child), depth + Cost(mode, key, child))
  }

  // The members under the first keys, each fine, and none an annotation out of reach.
  ghost predicate FineUpTo(kinds: Kinds, value: Value, mode: Mode, depth: nat, keys: seq<string>, n: nat)
    requires value.Object? && n <= |keys| && forall j :: 0 <= j < |keys| ==> keys[j] in value.members
  {
    forall j :: 0 <= j < n ==>
      FineMember(kinds, value, mode, depth, keys[j]) && !(keys[j] == ANNOTATION && Reads(mode))
  }

  lemma OneMoreFine(kinds: Kinds, value: Value, mode: Mode, depth: nat, keys: seq<string>, n: nat)
    requires value.Object? && n < |keys| && forall j :: 0 <= j < |keys| ==> keys[j] in value.members
    requires FineUpTo(kinds, value, mode, depth, keys, n)
    ensures FineUpTo(kinds, value, mode, depth, keys, n + 1)
       <==> FineMember(kinds, value, mode, depth, keys[n]) && !(keys[n] == ANNOTATION && Reads(mode))
  {
  }

  lemma KeysAreMembers(value: Value)
    requires value.Object?
    ensures forall j :: 0 <= j < |SortedKeys(value.members.Keys)| ==> SortedKeys(value.members.Keys)[j] in value.members
  {
    var keys := SortedKeys(value.members.Keys);
    forall j | 0 <= j < |keys| ensures keys[j] in value.members {
      assert keys[j] in keys;
    }
  }

  lemma FineByMembers(kinds: Kinds, value: Value, mode: Mode, depth: nat)
    requires value.Object? && Permitted(value, mode, depth)
    requires forall k :: k in value.members ==> FineMember(kinds, value, mode, depth, k)
    ensures Fine(kinds, value, mode, depth)
  {
    forall hops: seq<Hop> ensures PermittedAt(kinds, value, mode, depth, hops) {
      if hops != [] && Child(value, hops[0]).Some? {
        assert FineMember(kinds, value, mode, depth, hops[0].key);
      }
    }
  }

  lemma FineThroughout(kinds: Kinds, value: Value, mode: Mode, depth: nat, keys: seq<string>)
    requires value.Object? && keys == SortedKeys(value.members.Keys)
    requires forall j :: 0 <= j < |keys| ==> keys[j] in value.members
    requires Measured(mode) ==> depth <= MAX_DEPTH
    requires FineUpTo(kinds, value, mode, depth, keys, |keys|)
    ensures Fine(kinds, value, mode, depth)
  {
    forall k | k in value.members ensures FineMember(kinds, value, mode, depth, k) && !(k == ANNOTATION && Reads(mode)) {
      assert k in keys;
    }
    FineByMembers(kinds, value, mode, depth);
  }

  lemma NotFineFor(kinds: Kinds, value: Value, mode: Mode, depth: nat, key: string)
    requires value.Object? && key in value.members && !mode.Data?
    requires !FineMember(kinds, value, mode, depth, key) || (key == ANNOTATION && Reads(mode))
    ensures !Fine(kinds, value, mode, depth)
  {
    if Fine(kinds, value, mode, depth) {
      FineHere(kinds, value, mode, depth);
      FineBelow(kinds, value, mode, depth, Key(key));
    }
  }

  lemma NotFineHere(kinds: Kinds, value: Value, mode: Mode, depth: nat)
    requires !Permitted(value, mode, depth)
    ensures !Fine(kinds, value, mode, depth)
  {
    if Fine(kinds, value, mode, depth) {
      FineHere(kinds, value, mode, depth);
    }
  }

  ghost predicate FineItems(kinds: Kinds, value: Value, mode: Mode, depth: nat, n: nat)
    requires value.Array? && n <= |value.elements|
  {
    forall j :: 0 <= j < n ==> Fine(kinds, value.elements[j], mode, depth + 1)
  }

  lemma FineItemsThroughout(kinds: Kinds, value: Value, mode: Mode, depth: nat)
    requires value.Array? && Permitted(value, mode, depth) && FineItems(kinds, value, mode, depth, |value.elements|)
    ensures Fine(kinds, value, mode, depth)
  {
    forall hops: seq<Hop> ensures PermittedAt(kinds, value, mode, depth, hops) {
      if hops != [] && Child(value, hops[0]).Some? {
        assert Fine(kinds, value.elements[hops[0].index], mode, depth + 1);
      }
    }
  }

  lemma NotFineItem(kinds: Kinds, value: Value, mode: Mode, depth: nat, i: nat)
    requires value.Array? && !mode.Data? && i < |value.elements| && !Fine(kinds, value.elements[i], mode, depth + 1)
    ensures !Fine(kinds, value, mode, depth)
  {
    if Fine(kinds, value, mode, depth) {
      FineBelow(kinds, value, mode, depth, Item(i));
    }
  }

  // ----- Violations below the chain -----

  method ValueViolation(kinds: Kinds, value: Value, depth: nat) returns (ok: bool)
    ensures ok <==> Fine(kinds, value, Plain, depth)
    decreases value, 1
  {
    if depth > MAX_DEPTH {
      NotFineHere(kinds, value, Plain, depth);
      return false;
    }
    match value
    case Object(_) => ok := MembersViolation(kinds, value, depth);
    case Array(_) => ok := ElementsViolation(kinds, value, depth);
    case _ => LeafIsFine(kinds, value, Plain, depth); ok := true;
  }

  method MembersViolation(kinds: Kinds, value: Value, depth: nat) returns (ok: bool)
    requires value.Object? && depth <= MAX_DEPTH
    ensures ok <==> Fine(kinds, value, Plain, depth)
    decreases value, 0
  {
    var ms := value.members;
    var keys := SortedKeys(ms.Keys);
    KeysAreMembers(value);
    for i := 0 to |keys|
      invariant FineUpTo(kinds, value, Plain, depth, keys, i)
    {
      OneMoreFine(kinds, value, Plain, depth, keys, i);
      if keys[i] == ANNOTATION {
        NotFineFor(kinds, value, Plain, depth, keys[i]);
        return false;
      }
      var fine := ValueViolation(kinds, ms[keys[i]], depth + 1);
      if !fine {
        NotFineFor(kinds, value, Plain, depth, keys[i]);
        return false;
      }
    }
    FineThroughout(kinds, value, Plain, depth, keys);
    return true;
  }

  method ElementsViolation(kinds: Kinds, value: Value, depth: nat) returns (ok: bool)
    requires value.Array? && depth <= MAX_DEPTH
    ensures ok <==> Fine(kinds, value, Plain, depth)
    decreases value, 0
  {
    for i := 0 to |value.elements|
      invariant FineItems(kinds, value, Plain, depth, i)
    {
      var fine := ValueViolation(kinds, value.elements[i], depth + 1);
      if !fine {
        NotFineItem(kinds, value, Plain, depth, i);
        return false;
      }
    }
    FineItemsThroughout(kinds, value, Plain, depth);
    return true;
  }

  method KeywordViolation(kinds: Kinds, key: string, value: Value, depth: nat) returns (ok: bool)
    ensures ok <==> Fine(kinds, value, KeywordMode(kinds, key, value), depth)
    decreases value, 2
  {
    if kinds(key) == InstanceData {
      DataIsFine(kinds, value, depth);
      return true;
    }
    if kinds(key) == Subschema {
      ok := SubschemaViolation(kinds, value, depth);
      return;
    }
    if kinds(key) == SubschemaMap && value.Object? {
      ok := NamedMembersViolation(kinds, value, depth, true);
      return;
    }
    if kinds(key) == NameList && value.Object? {
      ok := NamedMembersViolation(kinds, value, depth, false);
      return;
    }
    ok := ValueViolation(kinds, value, depth);
  }

  // A member under a name of the author's, as the map it stands in is read.
  method NamedViolation(kinds: Kinds, value: Value, depth: nat, schemas: bool) returns (ok: bool)
    ensures ok <==> Fine(kinds, value, if schemas then Sub else Plain, depth)
    decreases value, 2
  {
    if schemas {
      ok := SubschemaViolation(kinds, value, depth);
    } else {
      ok := ValueViolation(kinds, value, depth);
    }
  }

  lemma NamedMember(kinds: Kinds, value: Value, depth: nat, schemas: bool, key: string)
    requires value.Object? && key in value.members
    ensures FineMember(kinds, value, Names(schemas), depth, key)
       <==> Fine(kinds, value.members[key], if schemas then Sub else Plain, depth + 1)
  {
  }

  method NamedMembersViolation(kinds: Kinds, value: Value, depth: nat, schemas: bool) returns (ok: bool)
    requires value.Object?
    ensures ok ==> Fine(kinds, value, Names(schemas), depth)
    ensures !ok ==> !Fine(kinds, value, Names(schemas), depth)
    decreases value, 0
  {
    var ms := value.members;
    var keys := SortedKeys(ms.Keys);
    KeysAreMembers(value);
    for i := 0 to |keys|
      invariant FineUpTo(kinds, value, Names(schemas), depth, keys, i)
    {
      OneMoreFine(kinds, value, Names(schemas), depth, keys, i);
      NamedMember(kinds, value, depth, schemas, keys[i]);
      ok := NamedViolation(kinds, ms[keys[i]], depth + 1, schemas);
      if !ok {
        NotFineFor(kinds, value, Names(schemas), depth, keys[i]);
        return;
      }
    }
    FineThroughout(kinds, value, Names(schemas), depth, keys);
    return true;
  }

  method SubschemaViolation(kinds: Kinds, value: Value, depth: nat) returns (ok: bool)
    ensures ok <==> Fine(kinds, value, Sub, depth)
    decreases value, 1
  {
    if depth > MAX_DEPTH {
      NotFineHere(kinds, value, Sub, depth);
      return false;
    }
    match value
    case Object(_) => ok := SchemaViolation(kinds, value, depth);
    case Array(_) => ok := SubschemasViolation(kinds, value, depth);
    case _ => LeafIsFine(kinds, value, Sub, depth); ok := true;
  }

  method SchemaViolation(kinds: Kinds, value: Value, depth: nat) returns (ok: bool)
    requires value.Object? && depth <= MAX_DEPTH
    ensures ok <==> Fine(kinds, value, Sub, depth)
    decreases value, 0
  {
    var ms := value.members;
    var keys := SortedKeys(ms.Keys);
    KeysAreMembers(value);
    for i := 0 to |keys|
      invariant FineUpTo(kinds, value, Sub, depth, keys, i)
    {
      OneMoreFine(kinds, value, Sub, depth, keys, i);
      if keys[i] == ANNOTATION {
        NotFineFor(kinds, value, Sub, depth, keys[i]);
        return false;
      }
      var fine := KeywordViolation(kinds, keys[i], ms[keys[i]], depth + 1);
      if !fine {
        NotFineFor(kinds, value, Sub, depth, keys[i]);
        return false;
      }
    }
    FineThroughout(kinds, value, Sub, depth, keys);
    return true;
  }

  method SubschemasViolation(kinds: Kinds, value: Value, depth: nat) returns (ok: bool)
    requires value.Array? && depth <= MAX_DEPTH
    ensures ok <==> Fine(kinds, value, Sub, depth)
    decreases value, 0
  {
    for i := 0 to |value.elements|
      invariant FineItems(kinds, value, Sub, depth, i)
    {
      var fine := SubschemaViolation(kinds, value.elements[i], depth + 1);
      if !fine {
        NotFineItem(kinds, value, Sub, depth, i);
        return false;
      }
    }
    FineItemsThroughout(kinds, value, Sub, depth);
    return true;
  }
}
