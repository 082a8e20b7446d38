/** JSON Schema Draft 7. The keywords that the strict transform and the argument repair look at are modelled one by one
    (Validation draft-07, sections 6.1.1 to 6.1.3, 6.4.1, 6.5.3 to 6.5.6 and 6.7.1 to 6.7.3); what any other keyword
    says is an arbitrary condition on the value. */
module JsonSchema {
  import opened JsonValues

  datatype JsonType =
    NullType | BooleanType | IntegerType | NumberType | StringType | ArrayType | ObjectType

  datatype Types = NoType | OneType(t: JsonType) | TypeList(ts: seq<JsonType>)

  /** A keyword that should hold an object of schemas. */
  datatype Properties = NoProperties | BadProperties | Props(m: map<string, Schema>)

  /** A keyword that should hold an array of schemas. */
  datatype Members = NoMembers | BadMembers | Members(list: seq<Schema>)

  datatype Items = NoItems | Each(schema: Schema) | Tuple(schemas: seq<Schema>)

  /** A `$ref`: to nothing, or to a schema known by what it accepts. */
  datatype Reference = NoReference | Dangling | Refers(accepts: Json -> bool)

  /** What a sub-schema is when it is compiled by itself: the same as in its document; or, if references inside it then
      resolve to something else, or to nothing, any other validator, or none. */
  datatype Alone = Same | Otherwise(validator: Option<Json -> bool>)

  /** A member of `patternProperties`: the names it matches, and their schema. */
  datatype Pattern = Pattern(matches: string -> bool, schema: Schema)

  datatype Schema =
    | NoSchema                // JSON that is neither an object nor a boolean
    | BoolSchema(b: bool)
    | Node(
        types: Types,
        properties: Properties,
        required: Option<set<string>>,
        patterns: seq<Pattern>,
        additional: Option<Schema>,
        items: Items,
        anyOf: Members,
        allOf: Members,
        oneOf: Members,
        enumeration: Option<seq<Json>>,
        constant: Option<Json>,
        reference: Reference,
        asserts: Json -> bool,  // what the other keywords say
        unsupported: bool,      // has another keyword that strict mode rejects
        alone: Alone)

  /** Other keywords that say nothing. */
  const ANYTHING: Json -> bool := (v: Json) => true

  /** A schema without keywords. */
  const EMPTY := Node(NoType, NoProperties, None, [], None, NoItems, NoMembers, NoMembers, NoMembers, None, None,
                      NoReference, ANYTHING, false, Same)

  /** `false`, where a schema may stand. */
  predicate Forbids(s: Option<Schema>) {
    s.Some? && s.value.BoolSchema? && !s.value.b
  }

  predicate MatchesPattern(s: Schema, k: string)
    requires s.Node?
  {
    exists i | 0 <= i < |s.patterns| :: s.patterns[i].matches(k)
  }

  predicate IsDeclared(s: Schema, k: string)
    requires s.Node?
  {
    s.properties.Props? && k in s.properties.m
  }

  /** The names in the `type` keyword. */
  function TypesOf(s: Schema): seq<JsonType> {
    if !s.Node? then [] else
    match s.types
    case NoType => []
    case OneType(t) => [t]
    case TypeList(ts) => ts
  }

  predicate MatchesType(v: Json, t: JsonType) {
    match t
    case NullType => v.Null?
    case BooleanType => v.Bool?
    case IntegerType => v.Num?
    case NumberType => v.Num?
    case StringType => v.Str?
    case ArrayType => v.Arr?
    case ObjectType => v.Obj?
  }

  /** Validity of a value in the schema's document: the meaning of a schema. Keywords beside a `$ref` are ignored
      (section 8.3 of JSON Schema Core draft-07). */
  predicate Valid(s: Schema, v: Json)
    decreases s, 2
  {
    match s
    case NoSchema => false
    case BoolSchema(b) => b
    case Node(_, _, _, _, _, _, _, _, _, _, _, reference, _, _, _) =>
      match reference
      case Dangling => false
      case Refers(accepts) => accepts(v)
      case NoReference => KeywordsAccept(s, v)
  }

  predicate KeywordsAccept(s: Schema, v: Json)
    requires s.Node?
    decreases s, 1
  {
    && ValueAccepted(s, v)
    && s.asserts(v)
    && (v.Obj? && s.required.Some? ==> s.required.value <= v.fields.Keys)
    && (v.Obj? ==> FieldsAccepted(s, v.fields))
    && (v.Arr? ==> ItemsAccepted(s, v.items))
    && CombinedAccept(s, v)
  }

  /** `type`, `enum` and `const`. */
  predicate ValueAccepted(s: Schema, v: Json)
    requires s.Node?
  {
    && (s.types.NoType? || exists t | t in TypesOf(s) :: MatchesType(v, t))
    && (s.enumeration.Some? ==> v in s.enumeration.value)
    && (s.constant.Some? ==> v == s.constant.value)
  }

  /** `properties`, `patternProperties` and `additionalProperties`. */
  predicate FieldsAccepted(s: Schema, fields: map<string, Json>)
    requires s.Node?
    decreases s, 0
  {
    && (s.properties.Props? ==>
          forall k | k in s.properties.m && k in fields :: Valid(s.properties.m[k], fields[k]))
    && (forall k, i | k in fields && 0 <= i < |s.patterns| && s.patterns[i].matches(k) ::
          Valid(s.patterns[i].schema, fields[k]))
    && (s.additional.Some? ==>
          forall k | k in fields && !IsDeclared(s, k) && !MatchesPattern(s, k) :: Valid(s.additional.value, fields[k]))
  }

  predicate ItemsAccepted(s: Schema, items: seq<Json>)
    requires s.Node?
    decreases s, 0
  {
    && (s.items.Each? ==> forall i | 0 <= i < |items| :: Valid(s.items.schema, items[i]))
    && (s.items.Tuple? ==> forall i | 0 <= i < |items| && i < |s.items.schemas| :: Valid(s.items.schemas[i], items[i]))
  }

  /** `anyOf`, `allOf` and `oneOf`. */
  predicate CombinedAccept(s: Schema, v: Json)
    requires s.Node?
    decreases s, 0
  {
    && (s.anyOf.Members? ==> exists i | 0 <= i < |s.anyOf.list| :: Valid(s.anyOf.list[i], v))
    && (s.allOf.Members? ==> forall i | 0 <= i < |s.allOf.list| :: Valid(s.allOf.list[i], v))
    && (s.oneOf.Members? ==> exists i | 0 <= i < |s.oneOf.list| ::
          Valid(s.oneOf.list[i], v) &&
          forall j | 0 <= j < |s.oneOf.list| && j != i :: !Valid(s.oneOf.list[j], v))
  }

  /** Validity, keyword by keyword. */
  lemma Keywords(s: Schema, v: Json)
    requires s.Node? && s.reference.NoReference?
    ensures Valid(s, v) <==>
              && ValueAccepted(s, v) && s.asserts(v) && CombinedAccept(s, v)
              && (v.Obj? && s.required.Some? ==> s.required.value <= v.fields.Keys)
              && (v.Obj? ==> FieldsAccepted(s, v.fields))
              && (v.Arr? ==> ItemsAccepted(s, v.items))
  {
  }

  /** Whether a validator can be compiled for the schema in its document: every keyword is well formed, and every
      reference resolves. */
  predicate Compiles(s: Schema)
    decreases s
  {
    match s
    case NoSchema => false
    case BoolSchema(_) => true
    case Node(types, properties, _, patterns, additional, items, anyOf, allOf, oneOf, _, _, reference, _, _, _) =>
      && !reference.Dangling?
      && (types.TypeList? ==> types.ts != [])
      && !properties.BadProperties?
      && (properties.Props? ==> forall k | k in properties.m :: Compiles(properties.m[k]))
      && (forall i | 0 <= i < |patterns| :: Compiles(patterns[i].schema))
      && (additional.Some? ==> Compiles(additional.value))
      && (items.Each? ==> Compiles(items.schema))
      && (items.Tuple? ==> forall i | 0 <= i < |items.schemas| :: Compiles(items.schemas[i]))
      && !anyOf.BadMembers? && !allOf.BadMembers? && !oneOf.BadMembers?
      && (anyOf.Members? ==> |anyOf.list| > 0 && forall i | 0 <= i < |anyOf.list| :: Compiles(anyOf.list[i]))
      && (allOf.Members? ==> |allOf.list| > 0 && forall i | 0 <= i < |allOf.list| :: Compiles(allOf.list[i]))
      && (oneOf.Members? ==> |oneOf.list| > 0 && forall i | 0 <= i < |oneOf.list| :: Compiles(oneOf.list[i]))
  }

  /** The validator of a sub-schema, which is compiled by itself, takes a value. */
  predicate OwnTakes(s: Schema, v: Json) {
    if s.Node? && s.alone.Otherwise? then s.alone.validator.Some? && s.alone.validator.value(v)
    else Compiles(s) && Valid(s, v)
  }

  /** Nothing that validates otherwise than it is coerced: no `$ref`, no `patternProperties`, at any depth. */
  predicate Plain(s: Schema)
    decreases s
  {
    s.Node? ==>
      && s.reference.NoReference? && s.alone.Same? && |s.patterns| == 0
      && (s.properties.Props? ==> forall k | k in s.properties.m :: Plain(s.properties.m[k]))
      && (s.additional.Some? ==> Plain(s.additional.value))
      && (s.items.Each? ==> Plain(s.items.schema))
      && (s.items.Tuple? ==> forall i | 0 <= i < |s.items.schemas| :: Plain(s.items.schemas[i]))
      && (s.anyOf.Members? ==> forall i | 0 <= i < |s.anyOf.list| :: Plain(s.anyOf.list[i]))
      && (s.allOf.Members? ==> forall i | 0 <= i < |s.allOf.list| :: Plain(s.allOf.list[i]))
      && (s.oneOf.Members? ==> forall i | 0 <= i < |s.oneOf.list| :: Plain(s.oneOf.list[i]))
  }
}
