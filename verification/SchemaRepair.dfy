/** Argument repair of `schema.rs`: drop optional nulls, coerce, validate. */
module SchemaRepair {
  import opened JsonValues
  import opened JsonSchema

  /** The text conversions of Rust's standard library that coercion uses. */
  datatype TextRules = TextRules(parse: string -> Option<JsonInt>, show: JsonInt -> string)

  // ----- dropping optional nulls -----

  /** Whether the validator of a sub-schema accepts null; without a validator it counts as accepting. */
  predicate AcceptsNull(s: Schema) {
    if s.Node? && s.alone.Otherwise? then s.alone.validator.Some? ==> s.alone.validator.value(Null)
    else Compiles(s) ==> Valid(s, Null)
  }

  /** Whether the null at a declared property is dropped. */
  predicate DropsNull(s: Schema, k: string, v: Json)
    requires s.Node? && s.properties.Props? && k in s.properties.m
  {
    var p := s.properties.m[k];
    && v.Null?
    && !(s.required.Some? && k in s.required.value)
    && !(p.Node? && !p.reference.NoReference?)
    && !AcceptsNull(p)
  }

  function Normalize(v: Json, s: Schema): Json
    decreases s
  {
    if !s.Node? then v else
    match v
    case Arr(xs) =>
      if s.items.Tuple? then
        Arr(seq(|xs|, i requires 0 <= i < |xs| =>
              if i < |s.items.schemas| then Normalize(xs[i], s.items.schemas[i]) else xs[i]))
      else if s.items.Each? && s.items.schema.Node? then
        Arr(seq(|xs|, i requires 0 <= i < |xs| => Normalize(xs[i], s.items.schema)))
      else v
    case Obj(m) =>
      if s.properties.Props? then
        Obj(map k | k in m && !(k in s.properties.m && DropsNull(s, k, m[k])) ::
              if k in s.properties.m then Normalize(m[k], s.properties.m[k]) else m[k])
      else v
    case _ => v
  }

  method NormalizeOptionalNulls(value: Json, schema: Schema) returns (r: Json)
    ensures r == Normalize(value, schema)
    decreases schema
  {
    if !schema.Node? {
      return value;
    }
    match value
    case Arr(xs) =>
      if schema.items.NoItems? || (schema.items.Each? && !schema.items.schema.Node?) {
        return value;
      }
      var items := xs;
      var i := 0;
      while i < |items|
        invariant 0 <= i <= |items| == |xs|
        invariant forall j | i <= j < |xs| :: items[j] == xs[j]
        invariant forall j | 0 <= j < i :: items[j] == Normalize(value, schema).items[j]
      {
        if schema.items.Each? {
          var entry := NormalizeOptionalNulls(items[i], schema.items.schema);
          items := items[i := entry];
        } else if i < |schema.items.schemas| {
          var entry := NormalizeOptionalNulls(items[i], schema.items.schemas[i]);
          items := items[i := entry];
        }
        i := i + 1;
      }
      r := Arr(items);
    case Obj(m) =>
      if !schema.properties.Props? {
        return value;
      }
      var properties := schema.properties.m;
      var fields := m;
      var removed: set<string> := {};
      var todo := properties.Keys;
      while todo != {}
        invariant todo <= properties.Keys
        invariant fields.Keys == m.Keys
        invariant forall k | k in fields && k !in properties :: fields[k] == m[k]
        invariant forall k | k in fields && k in todo :: fields[k] == m[k] && k !in removed
        invariant forall k | k in removed :: k in m && k in properties && DropsNull(schema, k, m[k])
        invariant forall k | k in fields && k in properties && k !in todo && k !in removed ::
                    !DropsNull(schema, k, m[k]) && fields[k] == Normalize(m[k], properties[k])
        decreases todo
      {
        var key :| key in todo;
        todo := todo - {key};
        if key in fields {
          if DropsNull(schema, key, fields[key]) {
            removed := removed + {key};
          } else {
            var child := NormalizeOptionalNulls(fields[key], properties[key]);
            fields := fields[key := child];
          }
        }
      }
      fields := fields - removed;
      assert fields == Normalize(value, schema).fields;
      r := Obj(fields);
    case _ => r := value;
  }

  // ----- coercion -----

  function CoercePrimitive(v: Json, t: JsonType, rules: TextRules): Json {
    match t
    case NumberType => CoerceNumber(v, rules)
    case IntegerType => CoerceNumber(v, rules)
    case BooleanType =>
      (match v
       case Null => Bool(false)
       case Str(s) => if s == "true" then Bool(true) else if s == "false" then Bool(false) else v
       case Num(n) => if n == 1 then Bool(true) else if n == 0 then Bool(false) else v
       case _ => v)
    case StringType =>
      (match v
       case Null => Str("")
       case Num(n) => Str(rules.show(n))
       case Bool(b) => Str(if b then "true" else "false")
       case _ => v)
    case NullType =>
      (match v
       case Str(s) => if s == "" then Null else v
       case Num(n) => if n == 0 then Null else v
       case Bool(b) => if b then v else Null
       case _ => v)
    case ArrayType => v
    case ObjectType => v
  }

  function CoerceNumber(v: Json, rules: TextRules): Json {
    match v
    case Null => Num(0)
    case Str(s) => (match rules.parse(s) case Some(n) => Num(n) case None => v)
    case Bool(b) => Num(if b then 1 else 0)
    case _ => v
  }

  /** The first listed type whose coercion changes the value. */
  function CoerceTypes(v: Json, ts: seq<JsonType>, rules: TextRules): Json {
    if ts == [] then v
    else if CoercePrimitive(v, ts[0], rules) != v then CoercePrimitive(v, ts[0], rules)
    else CoerceTypes(v, ts[1..], rules)
  }

  /** Coercion by the `type` keyword; a value of one of several listed types is left alone. */
  function CoerceDeclared(v: Json, ts: seq<JsonType>, rules: TextRules): Json {
    if |ts| > 1 && exists t | t in ts :: MatchesType(v, t) then v else CoerceTypes(v, ts, rules)
  }

  function Coerce(v: Json, s: Schema, rules: TextRules): Json
    decreases s, 2, 0
  {
    if !s.Node? then v else
    var ts := TypesOf(s);
    var w := CoerceDeclared(CoerceCombined(v, s, rules), ts, rules);
    if ObjectType in ts && w.Obj? then Obj(CoerceFields(w.fields, s, rules))
    else if ArrayType in ts && w.Arr? then Arr(CoerceItems(w.items, s, rules))
    else w
  }

  /** Coercion by `allOf`, then `anyOf`, then `oneOf`. */
  function CoerceCombined(v: Json, s: Schema, rules: TextRules): Json
    requires s.Node?
    decreases s, 1, 0
  {
    var v1 := if s.allOf.Members? then CoerceAll(v, s, |s.allOf.list|, rules) else v;
    var v2 := if s.anyOf.Members? then CoerceUnion(v1, s, s.anyOf.list, rules) else v1;
    if s.oneOf.Members? then CoerceUnion(v2, s, s.oneOf.list, rules) else v2
  }

  /** The first `n` members of `allOf`, one after the other. */
  function CoerceAll(v: Json, s: Schema, n: nat, rules: TextRules): Json
    requires s.Node? && s.allOf.Members? && n <= |s.allOf.list|
    decreases s, 0, n
  {
    if n == 0 then v else Coerce(CoerceAll(v, s, n - 1, rules), s.allOf.list[n - 1], rules)
  }

  /** The value as it is if some member takes it, else the first coercion its own member takes. */
  function CoerceUnion(v: Json, s: Schema, list: seq<Schema>, rules: TextRules): Json
    requires s.Node? && forall m | m in list :: m < s
    decreases s, 0, 0
  {
    if exists i | 0 <= i < |list| :: OwnTakes(list[i], v) then v else FirstCoerced(v, s, list, 0, rules)
  }

  function FirstCoerced(v: Json, s: Schema, list: seq<Schema>, i: nat, rules: TextRules): Json
    requires s.Node? && i <= |list| && forall m | m in list :: m < s
    decreases s, 0, 0, |list| - i
  {
    if i == |list| then v
    else
      assert list[i] in list;
      var c := Coerce(v, list[i], rules);
      if OwnTakes(list[i], c) then c else FirstCoerced(v, s, list, i + 1, rules)
  }

  function CoerceFields(m: map<string, Json>, s: Schema, rules: TextRules): map<string, Json>
    requires s.Node?
    decreases s, 0, 1
  {
    map k | k in m :: CoerceField(m[k], s, k, rules)
  }

  function CoerceField(x: Json, s: Schema, k: string, rules: TextRules): Json
    requires s.Node?
    decreases s, 0, 0
  {
    if IsDeclared(s, k) then Coerce(x, s.properties.m[k], rules)
    else if s.additional.Some? && s.additional.value.Node? then Coerce(x, s.additional.value, rules)
    else x
  }

  function CoerceItems(xs: seq<Json>, s: Schema, rules: TextRules): seq<Json>
    requires s.Node?
    decreases s, 0, 0
  {
    seq(|xs|, i requires 0 <= i < |xs| =>
      if s.items.Tuple? && i < |s.items.schemas| then Coerce(xs[i], s.items.schemas[i], rules)
      else if s.items.Each? && s.items.schema.Node? then Coerce(xs[i], s.items.schema, rules)
      else xs[i])
  }

  method CoerceWithJsonSchema(value: Json, schema: Schema, rules: TextRules) returns (next: Json)
    ensures next == Coerce(value, schema, rules)
    decreases schema, 1, 0
  {
    next := value;
    if !schema.Node? {
      return;
    }
    if schema.allOf.Members? {
      for i := 0 to |schema.allOf.list|
        invariant next == CoerceAll(value, schema, i, rules)
      {
        next := CoerceWithJsonSchema(next, schema.allOf.list[i], rules);
      }
    }
    if schema.anyOf.Members? {
      next := CoerceWithUnionSchema(next, schema, schema.anyOf.list, rules);
    }
    if schema.oneOf.Members? {
      next := CoerceWithUnionSchema(next, schema, schema.oneOf.list, rules);
    }
    var types := TypesOf(schema);
    next := CoerceToDeclaredType(next, types, rules);
    if ObjectType in types && next.Obj? {
      var fields := ApplySchemaObjectCoercion(next.fields, schema, rules);
      next := Obj(fields);
    }
    if ArrayType in types && next.Arr? {
      var items := ApplySchemaArrayCoercion(next.items, schema, rules);
      next := Arr(items);
    }
  }

  method CoerceToDeclaredType(value: Json, types: seq<JsonType>, rules: TextRules) returns (next: Json)
    ensures next == CoerceDeclared(value, types, rules)
  {
    next := value;
    if |types| > 1 && exists t | t in types :: MatchesType(next, t) {
      return;
    }
    for i := 0 to |types|
      invariant next == value && CoerceTypes(value, types, rules) == CoerceTypes(value, types[i..], rules)
    {
      var candidate := CoercePrimitive(next, types[i], rules);
      if candidate != next {
        next := candidate;
        break;
      }
    }
  }

  method CoerceWithUnionSchema(value: Json, s: Schema, list: seq<Schema>, rules: TextRules) returns (r: Json)
    requires s.Node? && forall m | m in list :: m < s
    ensures r == CoerceUnion(value, s, list, rules)
    decreases s, 0, 0
  {
    for i := 0 to |list|
      invariant forall j | 0 <= j < i :: !OwnTakes(list[j], value)
    {
      if OwnTakes(list[i], value) {
        return value;
      }
    }
    for i := 0 to |list|
      invariant FirstCoerced(value, s, list, 0, rules) == FirstCoerced(value, s, list, i, rules)
    {
      assert list[i] in list;
      var candidate := CoerceWithJsonSchema(value, list[i], rules);
      if OwnTakes(list[i], candidate) {
        return candidate;
      }
    }
    return value;
  }

  method ApplySchemaObjectCoercion(value: map<string, Json>, s: Schema, rules: TextRules)
    returns (fields: map<string, Json>)
    requires s.Node?
    ensures fields == CoerceFields(value, s, rules)
    decreases s, 0, 1
  {
    fields := CoerceDeclaredFields(value, s, rules);
    if s.additional.Some? && s.additional.value.Node? {
      var todo := fields.Keys;
      while todo != {}
        invariant todo <= fields.Keys == value.Keys
        invariant forall k | k in value :: fields[k] ==
                    if IsDeclared(s, k) || k !in todo then CoerceField(value[k], s, k, rules) else value[k]
        decreases todo
      {
        var key :| key in todo;
        todo := todo - {key};
        if !IsDeclared(s, key) {
          var child := CoerceWithJsonSchema(fields[key], s.additional.value, rules);
          fields := fields[key := child];
        }
      }
    }
  }

  method CoerceDeclaredFields(value: map<string, Json>, s: Schema, rules: TextRules)
    returns (fields: map<string, Json>)
    requires s.Node?
    ensures fields.Keys == value.Keys
    ensures forall k | k in value ::
              fields[k] == if IsDeclared(s, k) then CoerceField(value[k], s, k, rules) else value[k]
    decreases s, 0, 0
  {
    fields := value;
    var todo := if s.properties.Props? then s.properties.m.Keys else {};
    while todo != {}
      invariant (forall k | k in todo :: IsDeclared(s, k)) && fields.Keys == value.Keys
      invariant forall k | k in value :: fields[k] ==
                  if IsDeclared(s, k) && k !in todo then CoerceField(value[k], s, k, rules) else value[k]
      decreases todo
    {
      var key :| key in todo;
      todo := todo - {key};
      if key in fields {
        var child := CoerceWithJsonSchema(fields[key], s.properties.m[key], rules);
        fields := fields[key := child];
      }
    }
  }

  method ApplySchemaArrayCoercion(value: seq<Json>, s: Schema, rules: TextRules) returns (items: seq<Json>)
    requires s.Node?
    ensures items == CoerceItems(value, s, rules)
    decreases s, 0, 0
  {
    items := value;
    for i := 0 to |value|
      invariant |items| == |value|
      invariant forall j | i <= j < |value| :: items[j] == value[j]
      invariant forall j | 0 <= j < i :: items[j] == CoerceItems(value, s, rules)[j]
    {
      if s.items.Tuple? && i < |s.items.schemas| {
        var entry := CoerceWithJsonSchema(items[i], s.items.schemas[i], rules);
        items := items[i := entry];
      } else if s.items.Each? && s.items.schema.Node? {
        var entry := CoerceWithJsonSchema(items[i], s.items.schema, rules);
        items := items[i := entry];
      }
    }
  }

  // ----- the entry point -----

  /** Normalize, coerce, validate; `None` stands for the schema error. A schema without a validator takes anything. */
  function ValidateArguments(schema: Schema, arguments: Json, rules: TextRules): Option<Json> {
    var coerced := Coerce(Normalize(arguments, schema), schema, rules);
    if Compiles(schema) ==> Valid(schema, coerced) then Some(coerced) else None
  }

  method ValidateToolArguments(schema: Schema, arguments: Json, rules: TextRules) returns (r: Option<Json>)
    ensures r == ValidateArguments(schema, arguments, rules)
  {
    var args := NormalizeOptionalNulls(arguments, schema);
    var coerced := CoerceWithJsonSchema(args, schema, rules);
    var check := if coerced != args then coerced else args;
    if !Compiles(schema) || Valid(schema, check) {
      return Some(check);
    }
    return None;
  }

  // ----- nulls in valid arguments -----

  /** No null of a valid value is dropped: validation ignores the keywords beside a `$ref`, and repair does not; and a
      property with references inside may reject null when it is compiled by itself. */
  predicate Spared(v: Json, s: Schema)
    decreases s
  {
    if !s.Node? then true
    else if !s.reference.NoReference? then Normalize(v, s) == v
    else
      && (v.Obj? && s.properties.Props? ==> forall k | k in s.properties.m && k in v.fields ::
            var p := s.properties.m[k];
            (p.Node? && p.alone.Otherwise? ==> !DropsNull(s, k, v.fields[k])) && Spared(v.fields[k], p))
      && (v.Arr? && s.items.Each? ==> forall i | 0 <= i < |v.items| :: Spared(v.items[i], s.items.schema))
      && (v.Arr? && s.items.Tuple? ==>
            forall i | 0 <= i < |v.items| && i < |s.items.schemas| :: Spared(v.items[i], s.items.schemas[i]))
  }

  /** Dropping optional nulls leaves a valid value as it is exactly then. */
  lemma {:induction false} NormalizeKeepsValidIff(v: Json, s: Schema)
    requires Compiles(s) && Valid(s, v)
    ensures Normalize(v, s) == v <==> Spared(v, s)
    decreases s, 1
  {
    if s.Node? && s.reference.NoReference? {
      if v.Obj? && s.properties.Props? {
        FieldsSparedIff(v, s);
      }
      if v.Arr? {
        ItemsSparedIff(v, s);
      }
    }
  }

  lemma {:induction false} FieldsSparedIff(v: Json, s: Schema)
    requires s.Node? && s.reference.NoReference? && v.Obj? && s.properties.Props? && Compiles(s) && Valid(s, v)
    ensures Normalize(v, s) == v <==> Spared(v, s)
    decreases s, 0
  {
    Keywords(s, v);
    var w := Normalize(v, s);
    forall k | k in v.fields && k in s.properties.m
      ensures var p := s.properties.m[k];
              (k in w.fields && w.fields[k] == v.fields[k]) <==>
              (p.Node? && p.alone.Otherwise? ==> !DropsNull(s, k, v.fields[k])) && Spared(v.fields[k], p)
    {
      NormalizeKeepsValidIff(v.fields[k], s.properties.m[k]);
    }
    if Spared(v, s) {
      assert w.fields == v.fields;
    }
  }

  lemma {:induction false} ItemsSparedIff(v: Json, s: Schema)
    requires s.Node? && s.reference.NoReference? && v.Arr? && Compiles(s) && Valid(s, v)
    ensures Normalize(v, s) == v <==> Spared(v, s)
    decreases s, 0
  {
    Keywords(s, v);
    var w := Normalize(v, s);
    forall i | 0 <= i < |v.items|
      ensures s.items.Each? ==> (w.items[i] == v.items[i] <==> Spared(v.items[i], s.items.schema))
      ensures s.items.Tuple? && i < |s.items.schemas| ==>
                (w.items[i] == v.items[i] <==> Spared(v.items[i], s.items.schemas[i]))
    {
      if s.items.Each? {
        NormalizeKeepsValidIff(v.items[i], s.items.schema);
      } else if s.items.Tuple? && i < |s.items.schemas| {
        NormalizeKeepsValidIff(v.items[i], s.items.schemas[i]);
      }
    }
    if Spared(v, s) {
      assert w.items == v.items;
    }
  }

  // ----- coercion of valid arguments -----

  /** Coercion leaves a valid value alone: nothing beside a `$ref` changes it; no undeclared key that matches a pattern
      is changed by the additional schema, which validation does not apply to it; and of each union some member takes
      it when it is compiled by itself, or no member takes what it would coerce it to. */
  predicate Undisturbed(v: Json, s: Schema, rules: TextRules)
    decreases s, 1
  {
    if !s.Node? then true
    else if !s.reference.NoReference? then Coerce(v, s, rules) == v
    else
      && (s.allOf.Members? ==> forall i | 0 <= i < |s.allOf.list| :: Undisturbed(v, s.allOf.list[i], rules))
      && (s.anyOf.Members? ==> UnionKeeps(v, s.anyOf.list, rules))
      && (s.oneOf.Members? ==> UnionKeeps(v, s.oneOf.list, rules))
      && (ObjectType in TypesOf(s) && v.Obj? ==>
            forall k | k in v.fields :: FieldUndisturbed(v.fields[k], s, k, rules))
      && (ArrayType in TypesOf(s) && v.Arr? ==>
            forall i | 0 <= i < |v.items| :: ItemUndisturbed(v.items[i], s, i, rules))
  }

  predicate UnionKeeps(v: Json, list: seq<Schema>, rules: TextRules) {
    || (exists i | 0 <= i < |list| :: OwnTakes(list[i], v))
    || (forall i | 0 <= i < |list| :: !OwnTakes(list[i], Coerce(v, list[i], rules)))
  }

  predicate FieldUndisturbed(x: Json, s: Schema, k: string, rules: TextRules)
    requires s.Node?
    decreases s, 0
  {
    if IsDeclared(s, k) then Undisturbed(x, s.properties.m[k], rules)
    else if s.additional.None? then true
    else if MatchesPattern(s, k) then Coerce(x, s.additional.value, rules) == x
    else Undisturbed(x, s.additional.value, rules)
  }

  predicate ItemUndisturbed(x: Json, s: Schema, i: nat, rules: TextRules)
    requires s.Node?
    decreases s, 0
  {
    && (s.items.Each? ==> Undisturbed(x, s.items.schema, rules))
    && (s.items.Tuple? && i < |s.items.schemas| ==> Undisturbed(x, s.items.schemas[i], rules))
  }

  lemma CoerceDeclaredKeepsValid(v: Json, s: Schema, rules: TextRules)
    requires s.Node? && s.reference.NoReference? && Compiles(s) && Valid(s, v)
    ensures CoerceDeclared(v, TypesOf(s), rules) == v
  {
    Keywords(s, v);
    var ts := TypesOf(s);
    if |ts| == 1 {
      assert MatchesType(v, ts[0]);
      assert CoerceTypes(v, ts[1..], rules) == v;
    }
  }

  lemma {:induction false} FirstCoercedKeepsIff(v: Json, s: Schema, list: seq<Schema>, i: nat, rules: TextRules)
    requires s.Node? && i <= |list| && forall m | m in list :: m < s
    requires forall j | 0 <= j < |list| :: !OwnTakes(list[j], v)
    ensures FirstCoerced(v, s, list, i, rules) == v <==>
            forall j | i <= j < |list| :: !OwnTakes(list[j], Coerce(v, list[j], rules))
    decreases |list| - i
  {
    if i < |list| {
      assert list[i] in list;
      FirstCoercedKeepsIff(v, s, list, i + 1, rules);
    }
  }

  /** A union leaves any value alone exactly when some member's own validator takes it, or no member's takes what that
      member would coerce it to. */
  lemma UnionKeepsIff(v: Json, s: Schema, list: seq<Schema>, rules: TextRules)
    requires s.Node? && forall m | m in list :: m < s
    ensures CoerceUnion(v, s, list, rules) == v <==> UnionKeeps(v, list, rules)
  {
    if forall i | 0 <= i < |list| :: !OwnTakes(list[i], v) {
      FirstCoercedKeepsIff(v, s, list, 0, rules);
    }
  }

  /** Coercion is the identity on every value its schema accepts, if nothing in the schema disturbs it. */
  lemma {:induction false} CoerceKeepsValid(v: Json, s: Schema, rules: TextRules)
    requires Compiles(s) && Valid(s, v) && Undisturbed(v, s, rules)
    ensures Coerce(v, s, rules) == v
    decreases s, 1
  {
    if s.Node? && s.reference.NoReference? {
      Keywords(s, v);
      if s.allOf.Members? {
        CoerceAllKeepsValid(v, s, |s.allOf.list|, rules);
      }
      if s.anyOf.Members? {
        UnionKeepsIff(v, s, s.anyOf.list, rules);
      }
      if s.oneOf.Members? {
        UnionKeepsIff(v, s, s.oneOf.list, rules);
      }
      CoerceDeclaredKeepsValid(v, s, rules);
      if ObjectType in TypesOf(s) && v.Obj? {
        CoerceFieldsKeepsValid(v, s, rules);
      }
      if ArrayType in TypesOf(s) && v.Arr? {
        CoerceItemsKeepsValid(v, s, rules);
      }
    }
  }

  lemma {:induction false} CoerceFieldsKeepsValid(v: Json, s: Schema, rules: TextRules)
    requires s.Node? && s.reference.NoReference? && v.Obj? && Compiles(s) && Valid(s, v)
    requires forall k | k in v.fields :: FieldUndisturbed(v.fields[k], s, k, rules)
    ensures CoerceFields(v.fields, s, rules) == v.fields
    decreases s, 0
  {
    Keywords(s, v);
    forall k | k in v.fields ensures CoerceFields(v.fields, s, rules)[k] == v.fields[k] {
      assert FieldUndisturbed(v.fields[k], s, k, rules);
      if IsDeclared(s, k) {
        CoerceKeepsValid(v.fields[k], s.properties.m[k], rules);
      } else if s.additional.Some? && !MatchesPattern(s, k) {
        CoerceKeepsValid(v.fields[k], s.additional.value, rules);
      }
    }
  }

  lemma {:induction false} CoerceItemsKeepsValid(v: Json, s: Schema, rules: TextRules)
    requires s.Node? && s.reference.NoReference? && v.Arr? && Compiles(s) && Valid(s, v)
    requires forall i | 0 <= i < |v.items| :: ItemUndisturbed(v.items[i], s, i, rules)
    ensures CoerceItems(v.items, s, rules) == v.items
    decreases s, 0
  {
    Keywords(s, v);
    forall i | 0 <= i < |v.items| ensures CoerceItems(v.items, s, rules)[i] == v.items[i] {
      assert ItemUndisturbed(v.items[i], s, i, rules);
      if s.items.Each? {
        CoerceKeepsValid(v.items[i], s.items.schema, rules);
      } else if s.items.Tuple? && i < |s.items.schemas| {
        CoerceKeepsValid(v.items[i], s.items.schemas[i], rules);
      }
    }
  }

  lemma {:induction false} CoerceAllKeepsValid(v: Json, s: Schema, n: nat, rules: TextRules)
    requires Compiles(s) && s.Node? && s.allOf.Members? && n <= |s.allOf.list|
    requires forall i | 0 <= i < n :: Valid(s.allOf.list[i], v) && Undisturbed(v, s.allOf.list[i], rules)
    ensures CoerceAll(v, s, n, rules) == v
    decreases s, 0, n
  {
    if n > 0 {
      CoerceAllKeepsValid(v, s, n - 1, rules);
      CoerceKeepsValid(v, s.allOf.list[n - 1], rules);
    }
  }

  // ----- and only then -----

  /** One union, or `allOf` with one member, and no `type` beside it. */
  predicate Sole(s: Schema)
    requires s.Node?
  {
    && s.types.NoType?
    && (s.allOf.Members? ==> |s.allOf.list| == 1 && s.anyOf.NoMembers? && s.oneOf.NoMembers?)
    && (s.anyOf.Members? ==> s.oneOf.NoMembers?)
  }

  /** Combined schemas that mean the same when they are compiled by themselves; those of `allOf` are plain. */
  predicate CombinesPlain(s: Schema)
    requires s.Node?
  {
    && (s.allOf.Members? ==> forall i | 0 <= i < |s.allOf.list| :: Plain(s.allOf.list[i]))
    && (s.anyOf.Members? ==> MeanSame(s.anyOf.list))
    && (s.oneOf.Members? ==> MeanSame(s.oneOf.list))
  }

  predicate MeanSame(list: seq<Schema>) {
    forall i | 0 <= i < |list| :: list[i].Node? ==> list[i].alone.Same?
  }

  /** No keyword can undo what another one changed. */
  predicate Orderly(s: Schema)
    decreases s
  {
    s.Node? && s.reference.NoReference? ==>
      && (Sole(s) || CombinesPlain(s))
      && (Sole(s) && s.allOf.Members? ==> Orderly(s.allOf.list[0]))
      && (s.properties.Props? ==> forall k | k in s.properties.m :: Orderly(s.properties.m[k]))
      && (s.additional.Some? ==> Orderly(s.additional.value))
      && (s.items.Each? ==> Orderly(s.items.schema))
      && (s.items.Tuple? ==> forall i | 0 <= i < |s.items.schemas| :: Orderly(s.items.schemas[i]))
  }

  lemma SameTakesValid(v: Json, list: seq<Schema>, rules: TextRules)
    requires MeanSame(list) && forall i | 0 <= i < |list| :: Compiles(list[i])
    requires exists i | 0 <= i < |list| :: Valid(list[i], v)
    ensures UnionKeeps(v, list, rules)
  {
    var i :| 0 <= i < |list| && Valid(list[i], v);
    assert OwnTakes(list[i], v);
  }

  /** In a plain schema nothing disturbs a valid value. */
  lemma {:induction false} PlainUndisturbed(v: Json, s: Schema, rules: TextRules)
    requires Plain(s) && Compiles(s) && Valid(s, v)
    ensures Undisturbed(v, s, rules)
    decreases s
  {
    if s.Node? {
      Keywords(s, v);
      if s.allOf.Members? {
        forall i | 0 <= i < |s.allOf.list| ensures Undisturbed(v, s.allOf.list[i], rules) {
          PlainUndisturbed(v, s.allOf.list[i], rules);
        }
      }
      if s.anyOf.Members? {
        SameTakesValid(v, s.anyOf.list, rules);
      }
      if s.oneOf.Members? {
        SameTakesValid(v, s.oneOf.list, rules);
      }
      if v.Obj? {
        forall k | k in v.fields ensures FieldUndisturbed(v.fields[k], s, k, rules) {
          if IsDeclared(s, k) {
            PlainUndisturbed(v.fields[k], s.properties.m[k], rules);
          } else if s.additional.Some? {
            PlainUndisturbed(v.fields[k], s.additional.value, rules);
          }
        }
      }
      if v.Arr? {
        forall i | 0 <= i < |v.items| ensures ItemUndisturbed(v.items[i], s, i, rules) {
          if s.items.Each? {
            PlainUndisturbed(v.items[i], s.items.schema, rules);
          } else if s.items.Tuple? && i < |s.items.schemas| {
            PlainUndisturbed(v.items[i], s.items.schemas[i], rules);
          }
        }
      }
    }
  }

  /** And repair spares it. */
  lemma {:induction false} PlainSpared(v: Json, s: Schema)
    requires Plain(s)
    ensures Spared(v, s)
    decreases s
  {
    if s.Node? && v.Obj? && s.properties.Props? {
      forall k | k in s.properties.m && k in v.fields ensures Spared(v.fields[k], s.properties.m[k]) {
        PlainSpared(v.fields[k], s.properties.m[k]);
      }
    }
    if s.Node? && v.Arr? && s.items.Each? {
      forall i | 0 <= i < |v.items| ensures Spared(v.items[i], s.items.schema) {
        PlainSpared(v.items[i], s.items.schema);
      }
    }
    if s.Node? && v.Arr? && s.items.Tuple? {
      forall i | 0 <= i < |v.items| && i < |s.items.schemas| ensures Spared(v.items[i], s.items.schemas[i]) {
        PlainSpared(v.items[i], s.items.schemas[i]);
      }
    }
  }

  /** Unless keywords undo each other's work, nothing else keeps a valid value as it is. */
  lemma {:induction false} CoerceKeepsValidIff(v: Json, s: Schema, rules: TextRules)
    requires Compiles(s) && Valid(s, v) && Orderly(s)
    ensures Coerce(v, s, rules) == v <==> Undisturbed(v, s, rules)
    decreases s, 2
  {
    if Undisturbed(v, s, rules) {
      CoerceKeepsValid(v, s, rules);
    } else if Coerce(v, s, rules) == v {
      if Sole(s) {
        SoleUndisturbed(v, s, rules);
      } else {
        CombinesPlainKeeps(v, s, rules);
        if ObjectType in TypesOf(s) && v.Obj? {
          FieldsUndisturbed(v, s, rules);
        }
        if ArrayType in TypesOf(s) && v.Arr? {
          ItemsUndisturbed(v, s, rules);
        }
      }
    }
  }

  lemma {:induction false} SoleUndisturbed(v: Json, s: Schema, rules: TextRules)
    requires Compiles(s) && Valid(s, v) && Orderly(s) && s.Node? && s.reference.NoReference? && Sole(s)
    requires Coerce(v, s, rules) == v
    ensures Undisturbed(v, s, rules)
    decreases s, 1
  {
    Keywords(s, v);
    if s.allOf.Members? {
      assert CoerceAll(v, s, 1, rules) == Coerce(CoerceAll(v, s, 0, rules), s.allOf.list[0], rules);
      CoerceKeepsValidIff(v, s.allOf.list[0], rules);
    } else if s.anyOf.Members? {
      UnionKeepsIff(v, s, s.anyOf.list, rules);
    } else if s.oneOf.Members? {
      UnionKeepsIff(v, s, s.oneOf.list, rules);
    }
  }

  /** What combined schemas and `type` leave to the fields and items. */
  lemma CombinesPlainKeeps(v: Json, s: Schema, rules: TextRules)
    requires Compiles(s) && Valid(s, v) && s.Node? && s.reference.NoReference? && CombinesPlain(s)
    ensures s.allOf.Members? ==> forall i | 0 <= i < |s.allOf.list| :: Undisturbed(v, s.allOf.list[i], rules)
    ensures s.anyOf.Members? ==> UnionKeeps(v, s.anyOf.list, rules)
    ensures s.oneOf.Members? ==> UnionKeeps(v, s.oneOf.list, rules)
    ensures Coerce(v, s, rules) ==
            if ObjectType in TypesOf(s) && v.Obj? then Obj(CoerceFields(v.fields, s, rules))
            else if ArrayType in TypesOf(s) && v.Arr? then Arr(CoerceItems(v.items, s, rules))
            else v
  {
    Keywords(s, v);
    if s.allOf.Members? {
      forall i | 0 <= i < |s.allOf.list| ensures Undisturbed(v, s.allOf.list[i], rules) {
        PlainUndisturbed(v, s.allOf.list[i], rules);
      }
      CoerceAllKeepsValid(v, s, |s.allOf.list|, rules);
    }
    if s.anyOf.Members? {
      SameTakesValid(v, s.anyOf.list, rules);
      UnionKeepsIff(v, s, s.anyOf.list, rules);
    }
    if s.oneOf.Members? {
      SameTakesValid(v, s.oneOf.list, rules);
      UnionKeepsIff(v, s, s.oneOf.list, rules);
    }
    CoerceDeclaredKeepsValid(v, s, rules);
  }

  lemma {:induction false} FieldsUndisturbed(v: Json, s: Schema, rules: TextRules)
    requires s.Node? && s.reference.NoReference? && v.Obj? && Compiles(s) && Valid(s, v) && Orderly(s)
    requires CoerceFields(v.fields, s, rules) == v.fields
    ensures forall k | k in v.fields :: FieldUndisturbed(v.fields[k], s, k, rules)
    decreases s, 1
  {
    Keywords(s, v);
    forall k | k in v.fields ensures FieldUndisturbed(v.fields[k], s, k, rules) {
      assert CoerceFields(v.fields, s, rules)[k] == v.fields[k];
      if IsDeclared(s, k) {
        CoerceKeepsValidIff(v.fields[k], s.properties.m[k], rules);
      } else if s.additional.Some? && !MatchesPattern(s, k) {
        CoerceKeepsValidIff(v.fields[k], s.additional.value, rules);
      }
    }
  }

  lemma {:induction false} ItemsUndisturbed(v: Json, s: Schema, rules: TextRules)
    requires s.Node? && s.reference.NoReference? && v.Arr? && Compiles(s) && Valid(s, v) && Orderly(s)
    requires CoerceItems(v.items, s, rules) == v.items
    ensures forall i | 0 <= i < |v.items| :: ItemUndisturbed(v.items[i], s, i, rules)
    decreases s, 1
  {
    Keywords(s, v);
    forall i | 0 <= i < |v.items| ensures ItemUndisturbed(v.items[i], s, i, rules) {
      assert CoerceItems(v.items, s, rules)[i] == v.items[i];
      if s.items.Each? {
        CoerceKeepsValidIff(v.items[i], s.items.schema, rules);
      } else if s.items.Tuple? && i < |s.items.schemas| {
        CoerceKeepsValidIff(v.items[i], s.items.schemas[i], rules);
      }
    }
  }

  // ----- coercion restores nothing that was dropped -----

  /** The same arrays and objects, with the same keys everywhere. */
  predicate SameKeys(v: Json, w: Json)
    decreases v
  {
    match v
    case Obj(m) => w.Obj? && m.Keys == w.fields.Keys && forall k | k in m :: SameKeys(m[k], w.fields[k])
    case Arr(xs) => w.Arr? && |xs| == |w.items| && forall i | 0 <= i < |xs| :: SameKeys(xs[i], w.items[i])
    case _ => w.IsScalar()
  }

  lemma {:induction false} SameKeysReflexive(v: Json)
    ensures SameKeys(v, v)
    decreases v
  {
    match v
    case Obj(m) =>
      forall k | k in m ensures SameKeys(m[k], m[k]) {
        SameKeysReflexive(m[k]);
      }
    case Arr(xs) =>
      forall i | 0 <= i < |xs| ensures SameKeys(xs[i], xs[i]) {
        SameKeysReflexive(xs[i]);
      }
    case _ =>
  }

  lemma {:induction false} SameKeysTransitive(a: Json, b: Json, c: Json)
    requires SameKeys(a, b) && SameKeys(b, c)
    ensures SameKeys(a, c)
    decreases a
  {
    match a
    case Obj(m) =>
      forall k | k in m ensures SameKeys(m[k], c.fields[k]) {
        SameKeysTransitive(m[k], b.fields[k], c.fields[k]);
      }
    case Arr(xs) =>
      forall i | 0 <= i < |xs| ensures SameKeys(xs[i], c.items[i]) {
        SameKeysTransitive(xs[i], b.items[i], c.items[i]);
      }
    case _ =>
  }

  /** Coercion changes scalars only. */
  lemma {:induction false} CoerceKeepsKeys(v: Json, s: Schema, rules: TextRules)
    ensures SameKeys(v, Coerce(v, s, rules))
    decreases s, 3
  {
    SameKeysReflexive(v);
    if s.Node? {
      var combined := CoerceCombined(v, s, rules);
      var declared := CoerceDeclared(combined, TypesOf(s), rules);
      CombinedKeepsKeys(v, s, rules);
      TypesKeepKeys(combined, TypesOf(s), rules);
      SameKeysTransitive(v, combined, declared);
      PartsKeepKeys(declared, s, rules);
      SameKeysTransitive(v, declared, Coerce(v, s, rules));
    }
  }

  lemma {:induction false} CombinedKeepsKeys(v: Json, s: Schema, rules: TextRules)
    requires s.Node?
    ensures SameKeys(v, CoerceCombined(v, s, rules))
    decreases s, 2
  {
    var v1 := if s.allOf.Members? then CoerceAll(v, s, |s.allOf.list|, rules) else v;
    var v2 := if s.anyOf.Members? then CoerceUnion(v1, s, s.anyOf.list, rules) else v1;
    SameKeysReflexive(v);
    if s.allOf.Members? {
      CoerceAllKeepsKeys(v, s, |s.allOf.list|, rules);
    }
    if s.anyOf.Members? {
      UnionKeepsKeys(v1, s, s.anyOf.list, 0, rules);
      SameKeysTransitive(v, v1, v2);
    }
    if s.oneOf.Members? {
      UnionKeepsKeys(v2, s, s.oneOf.list, 0, rules);
      SameKeysTransitive(v, v2, CoerceCombined(v, s, rules));
    }
  }

  lemma {:induction false} CoerceAllKeepsKeys(v: Json, s: Schema, n: nat, rules: TextRules)
    requires s.Node? && s.allOf.Members? && n <= |s.allOf.list|
    ensures SameKeys(v, CoerceAll(v, s, n, rules))
    decreases s, 1, n
  {
    if n == 0 {
      SameKeysReflexive(v);
    } else {
      var w := CoerceAll(v, s, n - 1, rules);
      CoerceAllKeepsKeys(v, s, n - 1, rules);
      CoerceKeepsKeys(w, s.allOf.list[n - 1], rules);
      SameKeysTransitive(v, w, CoerceAll(v, s, n, rules));
    }
  }

  lemma {:induction false} UnionKeepsKeys(v: Json, s: Schema, list: seq<Schema>, i: nat, rules: TextRules)
    requires s.Node? && i <= |list| && forall m | m in list :: m < s
    ensures SameKeys(v, FirstCoerced(v, s, list, i, rules))
    ensures i == 0 ==> SameKeys(v, CoerceUnion(v, s, list, rules))
    decreases s, 1, |list| - i
  {
    SameKeysReflexive(v);
    if i < |list| {
      assert list[i] in list;
      CoerceKeepsKeys(v, list[i], rules);
      UnionKeepsKeys(v, s, list, i + 1, rules);
    }
  }

  lemma {:induction false} TypesKeepKeys(v: Json, ts: seq<JsonType>, rules: TextRules)
    ensures SameKeys(v, CoerceTypes(v, ts, rules)) && SameKeys(v, CoerceDeclared(v, ts, rules))
    decreases |ts|
  {
    SameKeysReflexive(v);
    if ts != [] {
      TypesKeepKeys(v, ts[1..], rules);
    }
  }

  lemma {:induction false} PartsKeepKeys(v: Json, s: Schema, rules: TextRules)
    requires s.Node?
    ensures SameKeys(v, v)
    ensures v.Obj? ==> SameKeys(v, Obj(CoerceFields(v.fields, s, rules)))
    ensures v.Arr? ==> SameKeys(v, Arr(CoerceItems(v.items, s, rules)))
    decreases s, 1, 0
  {
    SameKeysReflexive(v);
    if v.Obj? {
      forall k | k in v.fields ensures SameKeys(v.fields[k], CoerceFields(v.fields, s, rules)[k]) {
        if IsDeclared(s, k) {
          CoerceKeepsKeys(v.fields[k], s.properties.m[k], rules);
        } else if s.additional.Some? && s.additional.value.Node? {
          CoerceKeepsKeys(v.fields[k], s.additional.value, rules);
        } else {
          SameKeysReflexive(v.fields[k]);
        }
      }
    } else if v.Arr? {
      forall i | 0 <= i < |v.items| ensures SameKeys(v.items[i], CoerceItems(v.items, s, rules)[i]) {
        if s.items.Tuple? && i < |s.items.schemas| {
          CoerceKeepsKeys(v.items[i], s.items.schemas[i], rules);
        } else if s.items.Each? && s.items.schema.Node? {
          CoerceKeepsKeys(v.items[i], s.items.schema, rules);
        } else {
          SameKeysReflexive(v.items[i]);
        }
      }
    }
  }

  /** Dropping nulls changes keys only. */
  lemma {:induction false} NormalizeSameKeys(v: Json, s: Schema)
    requires SameKeys(Normalize(v, s), v)
    ensures Normalize(v, s) == v
    decreases s
  {
    var w := Normalize(v, s);
    if s.Node? && v.Obj? && s.properties.Props? {
      forall k | k in v.fields ensures w.fields[k] == v.fields[k] {
        assert k in w.fields && SameKeys(w.fields[k], v.fields[k]);
        if k in s.properties.m {
          NormalizeSameKeys(v.fields[k], s.properties.m[k]);
        }
      }
      assert w.fields == v.fields;
    } else if s.Node? && v.Arr? {
      forall i | 0 <= i < |v.items| ensures w.items[i] == v.items[i] {
        if s.items.Each? && s.items.schema.Node? {
          NormalizeSameKeys(v.items[i], s.items.schema);
        } else if s.items.Tuple? && i < |s.items.schemas| {
          NormalizeSameKeys(v.items[i], s.items.schemas[i]);
        }
      }
      assert w.items == v.items;
    }
  }

  // ----- valid arguments pass unchanged -----

  /** Whatever is returned is valid; valid arguments are returned as they are if nothing in the schema disturbs them,
      and, unless its keywords undo each other's work, only then. */
  lemma ValidateIsExact(schema: Schema, arguments: Json, rules: TextRules)
    requires Compiles(schema)
    ensures ValidateArguments(schema, arguments, rules).Some? ==>
              Valid(schema, ValidateArguments(schema, arguments, rules).value)
    ensures Valid(schema, arguments) && Spared(arguments, schema) && Undisturbed(arguments, schema, rules) ==>
              ValidateArguments(schema, arguments, rules) == Some(arguments)
    ensures Valid(schema, arguments) && Orderly(schema) ==>
              (ValidateArguments(schema, arguments, rules) == Some(arguments) <==>
               Spared(arguments, schema) && Undisturbed(arguments, schema, rules))
  {
    if Valid(schema, arguments) {
      NormalizeKeepsValidIff(arguments, schema);
      if Undisturbed(arguments, schema, rules) {
        CoerceKeepsValid(arguments, schema, rules);
      }
      if Orderly(schema) && ValidateArguments(schema, arguments, rules) == Some(arguments) {
        CoerceKeepsKeys(Normalize(arguments, schema), schema, rules);
        NormalizeSameKeys(arguments, schema);
        CoerceKeepsValidIff(arguments, schema, rules);
      }
    }
  }

  /** So valid arguments always pass unchanged where there is no `$ref` and no `patternProperties`. */
  lemma PlainIsExact(schema: Schema, arguments: Json, rules: TextRules)
    requires Compiles(schema) && Plain(schema) && Valid(schema, arguments)
    ensures ValidateArguments(schema, arguments, rules) == Some(arguments)
  {
    PlainSpared(arguments, schema);
    PlainUndisturbed(arguments, schema, rules);
    ValidateIsExact(schema, arguments, rules);
  }
}
