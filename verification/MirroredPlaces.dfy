// client/mirrored.go: where a schema may carry an annotation, told of its positions and of the names of
// the keywords alone.
module MirroredPlaces {
  import opened Wrappers
  import opened Json
  import opened MirroredSchema

  // The keywords whose value is a value of the arguments, a schema or an array of them, a map of the
  // author's names to schemas, or a map of the author's names to names.
  datatype Words = Words(data: set<string>, schemas: set<string>, maps: set<string>, lists: set<string>)

  const KEYWORDS := Words(
    {"const", "default", "enum", "examples"},
    {"additionalItems", "additionalProperties", "allOf", "anyOf", "contains", "contentSchema", "else", "if", "items", "not",
     "oneOf", "prefixItems", "propertyNames", "then", "unevaluatedItems", "unevaluatedProperties"},
    {"$defs", "definitions", "dependencies", "dependentSchemas", "patternProperties", "properties"},
    {"dependentRequired"})

  // ----- Positions -----

  function Last(hops: seq<Hop>): Hop
    requires hops != []
  {
    hops[|hops| - 1]
  }

  function Above(hops: seq<Hop>): seq<Hop>
    requires hops != []
  {
    hops[..|hops| - 1]
  }

  function At(value: Value, hops: seq<Hop>): Option<Value> {
    if hops == [] then Some(value)
    else
      var above := At(value, Above(hops));
      if above.None? then None else Child(above.value, Last(hops))
  }

  predicate ObjectAt(value: Value, hops: seq<Hop>) {
    At(value, hops).Some? && At(value, hops).value.Object?
  }

  // A schema, or an array of them: the whole, what a keyword that takes schemas has for a value, an
  // element of an array of them, and what a map to schemas holds under any name.
  predicate SchemaAt(words: Words, value: Value, hops: seq<Hop>)
    decreases |hops|, 0
  {
    hops == []
    || (SchemaAt(words, value, Above(hops)) && (Last(hops).Key? ==> Last(hops).key in words.schemas))
    || (MapAt(words, value, Above(hops)) && Last(hops).Key?)
  }

  predicate MapAt(words: Words, value: Value, hops: seq<Hop>)
    decreases |hops|, 1
  {
    && hops != [] && SchemaAt(words, value, Above(hops)) && Last(hops).Key? && Last(hops).key in words.maps
    && ObjectAt(value, hops)
  }

  predicate NameListAt(words: Words, value: Value, hops: seq<Hop>) {
    && hops != [] && SchemaAt(words, value, Above(hops)) && Last(hops).Key? && Last(hops).key in words.lists
    && ObjectAt(value, hops)
  }

  predicate InData(words: Words, value: Value, hops: seq<Hop>) {
    hops != [] &&
    (InData(words, value, Above(hops))
     || (SchemaAt(words, value, Above(hops)) && Last(hops).Key? && Last(hops).key in words.data))
  }

  // From the whole by "properties" and a name, again and again.
  predicate Chained(hops: seq<Hop>) {
    hops == [] || (|hops| >= 2 && Last(hops).Key? && OnChain(Above(hops)))
  }

  predicate OnChain(hops: seq<Hop>) {
    hops != [] && Last(hops) == Key("properties") && Chained(Above(hops))
  }

  // The annotation of a property a chain reaches.
  predicate HeaderName(hops: seq<Hop>) {
    |hops| > 1 && Last(hops) == Key("x-mcp-header") && Chained(Above(hops))
  }

  // How deep a position lies. On the chain "properties" and a name go one deeper together.
  function Depth(value: Value, hops: seq<Hop>): nat {
    if hops == [] then 0
    else Depth(value, Above(hops)) + if OnChain(hops) && ObjectAt(value, hops) then 0 else 1
  }

  predicate CarriesAnnotation(value: Value) {
    value.Object? && "x-mcp-header" in value.members
  }

  // An annotation stands on a property the chain reaches, or is none: it stands in a value of the
  // arguments, or is a name of the author's.
  predicate Placed(words: Words, value: Value, hops: seq<Hop>) {
    At(value, hops).Some? && CarriesAnnotation(At(value, hops).value) ==>
      (hops != [] && Chained(hops)) || InData(words, value, hops) || MapAt(words, value, hops) || NameListAt(words, value, hops)
  }

  predicate Shallow(words: Words, value: Value, hops: seq<Hop>) {
    At(value, hops).Some? ==>
      || Depth(value, hops) <= 256 || HeaderName(hops)
      || InData(words, value, hops) || MapAt(words, value, hops) || NameListAt(words, value, hops)
  }

  ghost predicate WellPlaced(words: Words, value: Value) {
    forall hops :: Placed(words, value, hops) && Shallow(words, value, hops)
  }

  // What a chain's own annotations are is read no further.
  ghost predicate PlainMarks(value: Value) {
    forall hops: seq<Hop> :: HeaderName(hops) && At(value, hops).Some? ==> At(value, hops).value.Text?
  }

  // ----- How the reader comes to a position -----

  datatype Place = Place(value: Value, mode: Mode, depth: nat)

  function Step(kinds: Kinds, p: Place, hop: Hop): Option<Place> {
    var child := Child(p.value, hop);
    if child.None? then None
    else Some(Place(child.value, HopMode(kinds, p.mode, hop, child.value), p.depth + HopCost(p.mode, hop, child.value)))
  }

  function Walk(kinds: Kinds, p: Place, hops: seq<Hop>): Option<Place> {
    if hops == [] then Some(p)
    else
      var above := Walk(kinds, p, Above(hops));
      if above.None? then None else Step(kinds, above.value, Last(hops))
  }

  // The same walk, its first step taken first.
  lemma {:induction false} FirstStep(kinds: Kinds, p: Place, hops: seq<Hop>)
    requires hops != []
    ensures Walk(kinds, p, hops) == if Step(kinds, p, hops[0]).None? then None else Walk(kinds, Step(kinds, p, hops[0]).value, hops[1..])
    decreases |hops|
  {
    if |hops| == 1 {
      assert Above(hops) == [] && hops[1..] == [];
    } else {
      FirstStep(kinds, p, Above(hops));
      assert Above(hops)[1..] == Above(hops[1..]);
    }
  }

  lemma {:induction false} DataStays(kinds: Kinds, p: Place, hops: seq<Hop>)
    requires p.mode.Data? && Walk(kinds, p, hops).Some?
    ensures Walk(kinds, p, hops).value.mode.Data?
    decreases |hops|
  {
    if hops == [] {
    } else {
      DataStays(kinds, p, Above(hops));
    }
  }

  predicate PermittedThere(kinds: Kinds, p: Place, hops: seq<Hop>) {
    Walk(kinds, p, hops).Some? ==> var q := Walk(kinds, p, hops).value; Permitted(q.value, q.mode, q.depth)
  }

  lemma {:induction false} PermittedByWalk(kinds: Kinds, p: Place, hops: seq<Hop>)
    ensures PermittedAt(kinds, p.value, p.mode, p.depth, hops) <==> PermittedThere(kinds, p, hops)
    decreases |hops|
  {
    if hops == [] {
    } else if p.mode.Data? {
      if Walk(kinds, p, hops).Some? {
        DataStays(kinds, p, hops);
      }
    } else {
      FirstStep(kinds, p, hops);
      if Step(kinds, p, hops[0]).Some? {
        PermittedByWalk(kinds, Step(kinds, p, hops[0]).value, hops[1..]);
      }
    }
  }

  lemma {:induction false} WalkAt(kinds: Kinds, p: Place, hops: seq<Hop>)
    ensures Walk(kinds, p, hops).Some? <==> At(p.value, hops).Some?
    ensures Walk(kinds, p, hops).Some? ==> Walk(kinds, p, hops).value.value == At(p.value, hops).value
    decreases |hops|
  {
    if hops == [] {
    } else {
      WalkAt(kinds, p, Above(hops));
    }
  }

  // ----- How it is read there -----

  ghost predicate Spells(kinds: Kinds, words: Words) {
    && kinds(ANNOTATION) == Unknown && kinds(PROPERTIES) == SubschemaMap
    && forall key ::
         && (kinds(key) == InstanceData <==> key in words.data)
         && (kinds(key) == Subschema <==> key in words.schemas)
         && (kinds(key) == SubschemaMap <==> key in words.maps)
         && (kinds(key) == NameList <==> key in words.lists)
  }

  // In the annotation of a node of the chain.
  predicate InMark(hops: seq<Hop>) {
    hops != [] && (InMark(Above(hops)) || (Last(hops) == Key(ANNOTATION) && Chained(Above(hops))))
  }

  // The way a position is read says what it is, and the other way around.
  ghost predicate ReadAs(words: Words, value: Value, hops: seq<Hop>, q: Place) {
    && (q.mode.Chain? <==> Chained(hops) && q.value.Object?)
    && (q.mode.Chain? ==> q.mode.consumed == (hops != []))
    && (q.mode.Properties? <==> OnChain(hops) && q.value.Object?)
    && (q.mode.Chain? || q.mode.Sub? <==> SchemaAt(words, value, hops))
    && (q.mode.Properties? || q.mode == Names(true) <==> MapAt(words, value, hops))
    && (q.mode == Names(false) <==> NameListAt(words, value, hops))
    && (q.mode.Data? <==> InData(words, value, hops) || InMark(hops))
    && q.depth == Depth(value, hops)
  }

  lemma ReadAsBelow(kinds: Kinds, words: Words, value: Value, hops: seq<Hop>, p: Place, q: Place)
    requires Spells(kinds, words) && hops != []
    requires At(value, Above(hops)) == Some(p.value) && At(value, hops) == Some(q.value)
    requires ReadAs(words, value, Above(hops), p) && Step(kinds, p, Last(hops)) == Some(q)
    ensures ReadAs(words, value, hops, q)
  {
  }

  lemma {:induction false} ReadAsThere(kinds: Kinds, words: Words, value: Value, hops: seq<Hop>, q: Place)
    requires Spells(kinds, words) && value.Object?
    requires Walk(kinds, Place(value, Chain(false), 0), hops) == Some(q)
    ensures ReadAs(words, value, hops, q)
    decreases |hops|
  {
    if hops == [] {
    } else {
      var root := Place(value, Chain(false), 0);
      var p := Walk(kinds, root, Above(hops)).value;
      ReadAsThere(kinds, words, value, Above(hops), p);
      WalkAt(kinds, root, hops);
      WalkAt(kinds, root, Above(hops));
      ReadAsBelow(kinds, words, value, hops, p, q);
    }
  }

  // ----- Both ways of saying it -----

  // A mark is a text, and nothing is in it.
  lemma {:induction false} InMarkIsName(value: Value, hops: seq<Hop>)
    requires PlainMarks(value) && !CarriesAnnotation(value) && InMark(hops) && At(value, hops).Some?
    ensures HeaderName(hops) && At(value, hops).value.Text?
    decreases |hops|
  {
    if InMark(Above(hops)) {
      InMarkIsName(value, Above(hops));
    } else {
      assert Above(hops) == [] ==> At(value, []) == Some(value);
    }
  }

  lemma PermittedWhere(words: Words, value: Value, hops: seq<Hop>, q: Place)
    requires ReadAs(words, value, hops, q) && At(value, hops) == Some(q.value)
    requires InMark(hops) ==> HeaderName(hops) && q.value.Text?
    ensures Permitted(q.value, q.mode, q.depth) <==> Placed(words, value, hops) && Shallow(words, value, hops)
  {
  }

  lemma SamePermission(kinds: Kinds, words: Words, value: Value, hops: seq<Hop>)
    requires Spells(kinds, words) && value.Object? && PlainMarks(value) && !CarriesAnnotation(value)
    ensures PermittedAt(kinds, value, Chain(false), 0, hops) <==> Placed(words, value, hops) && Shallow(words, value, hops)
  {
    var root := Place(value, Chain(false), 0);
    PermittedByWalk(kinds, root, hops);
    WalkAt(kinds, root, hops);
    if At(value, hops).Some? {
      var q := Walk(kinds, root, hops).value;
      ReadAsThere(kinds, words, value, hops, q);
      if InMark(hops) {
        InMarkIsName(value, hops);
      }
      PermittedWhere(words, value, hops, q);
    }
  }

  lemma RootPlain(kinds: Kinds, words: Words, value: Value)
    requires value.Object?
    ensures Fine(kinds, value, Chain(false), 0) ==> !CarriesAnnotation(value)
    ensures WellPlaced(words, value) ==> !CarriesAnnotation(value)
  {
    if Fine(kinds, value, Chain(false), 0) {
      FineHere(kinds, value, Chain(false), 0);
    }
    if WellPlaced(words, value) {
      assert Placed(words, value, []);
    }
  }

  // What the reader passes is what stands in its place, for any keywords.
  lemma FineWherePlaced(kinds: Kinds, words: Words, value: Value)
    requires Spells(kinds, words) && value.Object? && PlainMarks(value)
    ensures Fine(kinds, value, Chain(false), 0) <==> WellPlaced(words, value)
  {
    RootPlain(kinds, words, value);
    if !CarriesAnnotation(value) {
      forall hops: seq<Hop>
        ensures PermittedAt(kinds, value, Chain(false), 0, hops) <==> Placed(words, value, hops) && Shallow(words, value, hops)
      {
        SamePermission(kinds, words, value, hops);
      }
    }
  }

  lemma DataApart(key: string)
    requires key in INSTANCE_DATA
    ensures key !in SUBSCHEMA && key !in SUBSCHEMA_MAP && key !in NAME_LIST
  {
  }

  lemma SchemasApart(key: string)
    requires key in SUBSCHEMA
    ensures key !in SUBSCHEMA_MAP && key !in NAME_LIST
  {
  }

  lemma MapsApart(key: string)
    requires key in SUBSCHEMA_MAP
    ensures key !in NAME_LIST
  {
  }

  lemma AnnotationIsNone()
    ensures KindOf(ANNOTATION) == Unknown
  {
  }

  lemma PropertiesIsMap()
    ensures KindOf(PROPERTIES) == SubschemaMap
  {
    assert PROPERTIES in SUBSCHEMA_MAP;
    if PROPERTIES in INSTANCE_DATA {
      DataApart(PROPERTIES);
    }
    if PROPERTIES in SUBSCHEMA {
      SchemasApart(PROPERTIES);
    }
  }

  lemma SameWords()
    ensures KEYWORDS == Words(INSTANCE_DATA, SUBSCHEMA, SUBSCHEMA_MAP, NAME_LIST)
  {
  }

  lemma KindOfApart(key: string, words: Words)
    requires words == Words(INSTANCE_DATA, SUBSCHEMA, SUBSCHEMA_MAP, NAME_LIST)
    ensures KindOf(key) == InstanceData <==> key in words.data
    ensures KindOf(key) == Subschema <==> key in words.schemas
    ensures KindOf(key) == SubschemaMap <==> key in words.maps
    ensures KindOf(key) == NameList <==> key in words.lists
  {
    if key in INSTANCE_DATA {
      DataApart(key);
    } else if key in SUBSCHEMA {
      SchemasApart(key);
    } else if key in SUBSCHEMA_MAP {
      MapsApart(key);
    }
  }

  // The keywords the reader goes by are these.
  lemma KindOfSpells(words: Words)
    requires words == KEYWORDS
    ensures Spells(KindOf, words)
  {
    AnnotationIsNone();
    PropertiesIsMap();
    SameWords();
    forall key: string
      ensures (KindOf(key) == InstanceData <==> key in words.data)
      ensures (KindOf(key) == Subschema <==> key in words.schemas)
      ensures (KindOf(key) == SubschemaMap <==> key in words.maps)
      ensures (KindOf(key) == NameList <==> key in words.lists)
    {
      KindOfApart(key, words);
    }
  }
}
