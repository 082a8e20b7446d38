/** Concrete schemas under which the argument repair changes or refuses what it validates. */
module SchemaGaps {
  import opened JsonValues
  import opened JsonSchema
  import opened SchemaRepair
  import opened StrictRoundTrip
  import opened StrictSchema

  const STRING := EMPTY.(types := OneType(StringType))
  const INTEGER := EMPTY.(types := OneType(IntegerType))

  /** A `$ref` to a string schema elsewhere in the document. */
  const STRING_ELSEWHERE := EMPTY.(reference := Refers((v: Json) => v.Str?), alone := Otherwise(None))

  /** A string that is given by reference, or null. */
  const NULLABLE_STRING := EMPTY.(anyOf := Members([STRING_ELSEWHERE, NULL_SCHEMA]), alone := Otherwise(None))

  function ObjectOf(k: string, p: Schema): Schema {
    EMPTY.(types := OneType(ObjectType), properties := Props(map[k := p]))
  }

  /** Integers, but strings where the name matches. */
  function StringsWhere(matches: string -> bool): Schema {
    EMPTY.(types := OneType(ObjectType), patterns := [Pattern(matches, STRING)], additional := Some(INTEGER))
  }

  lemma MatchesOnly(t: JsonType, v: Json)
    ensures Valid(EMPTY.(types := OneType(t)), v) <==> MatchesType(v, t)
  {
    Keywords(EMPTY.(types := OneType(t)), v);
    var s := EMPTY.(types := OneType(t));
    assert TypesOf(s) == [t] && s.asserts(v);
    assert MatchesType(v, t) ==> exists x | x in TypesOf(s) :: MatchesType(v, x);
  }

  predicate Uncombined(s: Schema)
    requires s.Node?
  {
    s.allOf.NoMembers? && s.anyOf.NoMembers? && s.oneOf.NoMembers?
  }

  lemma CoercesByType(t: JsonType, v: Json, rules: TextRules)
    requires v.IsScalar()
    ensures Coerce(v, EMPTY.(types := OneType(t)), rules) == CoercePrimitive(v, t, rules)
  {
    var s := EMPTY.(types := OneType(t));
    assert TypesOf(s) == [t] && [t][1..] == [];
    assert CoerceTypes(v, [t], rules) == CoercePrimitive(v, t, rules);
  }

  lemma CoercesFields(s: Schema, m: map<string, Json>, rules: TextRules)
    requires s.Node? && TypesOf(s) == [ObjectType] && Uncombined(s)
    ensures Coerce(Obj(m), s, rules) == Obj(CoerceFields(m, s, rules))
    ensures s.reference.NoReference? && Undisturbed(Obj(m), s, rules) ==>
              forall k | k in m :: FieldUndisturbed(m[k], s, k, rules)
  {
    assert [ObjectType][1..] == [];
    assert CoerceTypes(Obj(m), [ObjectType], rules) == Obj(m);
  }

  lemma CoercesOne(s: Schema, k: string, x: Json, rules: TextRules)
    requires s.Node? && TypesOf(s) == [ObjectType] && Uncombined(s)
    ensures Coerce(Obj(map[k := x]), s, rules) == Obj(map[k := CoerceField(x, s, k, rules)])
    ensures s.reference.NoReference? && Undisturbed(Obj(map[k := x]), s, rules) ==> FieldUndisturbed(x, s, k, rules)
  {
    var m := map[k := x];
    assert k in m && m[k] == x;
    CoercesFields(s, m, rules);
    assert CoerceFields(m, s, rules) == map[k := CoerceField(x, s, k, rules)];
  }

  // ----- `patternProperties` -----

  /** What such a schema accepts under a name that matches. */
  lemma StringsWhereTakes(matches: string -> bool, k: string, x: Json)
    requires matches(k)
    ensures Valid(StringsWhere(matches), Obj(map[k := x])) <==> x.Str?
  {
    Keywords(StringsWhere(matches), Obj(map[k := x]));
    var s, v := StringsWhere(matches), Obj(map[k := x]);
    MatchesOnly(StringType, x);
    assert TypesOf(s) == [ObjectType] && ObjectType in TypesOf(s) && MatchesType(v, ObjectType);
    assert s.asserts(v) && s.patterns[0].matches(k) && MatchesPattern(s, k) && s.patterns[0].schema == STRING;
    assert v.fields[k] == x;
  }

  /** A number that is written as a string, under a name that matches, is valid; it is coerced to the additional
      schema, which validation does not apply to it, and then refused. */
  lemma PatternGap(matches: string -> bool, k: string, text: string, rules: TextRules)
    requires matches(k) && rules.parse(text).Some?
    ensures var s, v := StringsWhere(matches), Obj(map[k := Str(text)]);
            && Compiles(s) && Valid(s, v) && Orderly(s)
            && !Undisturbed(v, s, rules) && ValidateArguments(s, v, rules).None?
  {
    StringsWhereTakes(matches, k, Str(text));
    StringsWhereTakes(matches, k, Num(rules.parse(text).value));
    StringsWhereCoerces(matches, k, text, rules);
    KeepsOne(StringsWhere(matches), k, Str(text));
  }

  lemma StringsWhereCoerces(matches: string -> bool, k: string, text: string, rules: TextRules)
    requires matches(k) && rules.parse(text).Some?
    ensures var s, v := StringsWhere(matches), Obj(map[k := Str(text)]);
            !Undisturbed(v, s, rules) && Coerce(v, s, rules) == Obj(map[k := Num(rules.parse(text).value)])
  {
    var s := StringsWhere(matches);
    CoercesByType(IntegerType, Str(text), rules);
    CoercesOne(s, k, Str(text), rules);
    assert s.patterns[0].matches(k) && MatchesPattern(s, k);
  }

  lemma KeepsOne(s: Schema, k: string, x: Json)
    requires s.Node? && x.IsScalar() && !x.Null?
    ensures Normalize(Obj(map[k := x]), s) == Obj(map[k := x])
  {
    var v := Obj(map[k := x]);
    assert IsDeclared(s, k) ==> Normalize(x, s.properties.m[k]) == x;
    assert Normalize(v, s).fields == v.fields;
  }

  /** An object of objects, whose additional properties the strict transform does not look at. */
  function Holding(inner: Schema): Schema {
    EMPTY.(types := TypeList([ObjectType]), additional := Some(inner))
  }

  lemma HoldingTakes(inner: Schema, k: string, x: Json)
    ensures Valid(Holding(inner), Obj(map[k := x])) <==> Valid(inner, x)
  {
    var s, v := Holding(inner), Obj(map[k := x]);
    Keywords(s, v);
    assert TypesOf(s) == [ObjectType] && ObjectType in TypesOf(s) && MatchesType(v, ObjectType);
    assert s.asserts(v) && v.fields[k] == x && !IsDeclared(s, k) && !MatchesPattern(s, k);
  }

  function RequiredObjectOf(k: string, p: Schema): Schema {
    EMPTY.(types := OneType(ObjectType), properties := Props(map[k := p]), required := Some({k}))
  }

  function StrictObjectOf(k: string, p: Schema): Schema {
    EMPTY.(types := OneType(ObjectType), properties := Props(map[k := p]), required := Some({k}),
           additional := Some(BoolSchema(false)))
  }

  lemma RequiredObjectOfTakes(k: string, p: Schema, x: Json)
    ensures Valid(RequiredObjectOf(k, p), Obj(map[k := x])) <==> Valid(p, x)
    ensures Valid(StrictObjectOf(k, p), Obj(map[k := x])) <==> Valid(p, x)
  {
    var s, v := RequiredObjectOf(k, p), Obj(map[k := x]);
    var t := StrictObjectOf(k, p);
    Keywords(s, v);
    Keywords(t, v);
    assert TypesOf(s) == [ObjectType] && ObjectType in TypesOf(s) && MatchesType(v, ObjectType);
    assert TypesOf(t) == [ObjectType] && ObjectType in TypesOf(t);
    assert s.asserts(v) && t.asserts(v) && v.fields[k] == x && s.properties.m[k] == p && t.properties.m[k] == p;
  }

  lemma HoldingIsStrict(k: string, inner: Schema)
    ensures StrictRoot(RequiredObjectOf(k, Holding(inner)))
         == Some(StrictObjectOf(k, Holding(inner)))
  {
    var s, p := RequiredObjectOf(k, Holding(inner)), Holding(inner);
    assert StrictNode(p) == Some(p);
    assert StrictProperty(s, k, p) == Some(p);
    var t := StrictNode(s).value;
    assert t.properties.m == map[k := p] && s.properties.m.Keys == {k};
  }

  /** There the strict form accepts such a call as it is, and the repair refuses it. */
  lemma StrictPatternGap(matches: string -> bool, a: string, b: string, k: string, text: string, rules: TextRules)
    requires matches(k) && rules.parse(text).Some?
    ensures var s := RequiredObjectOf(a, Holding(StringsWhere(matches)));
            var v := Obj(map[a := Obj(map[b := Obj(map[k := Str(text)])])]);
            && Compiles(s) && StrictRoot(s).Some? && Valid(StrictRoot(s).value, v) && Valid(s, v)
            && ValidateArguments(s, v, rules).None?
  {
    NestedCompiles(matches, a);
    HoldingIsStrict(a, StringsWhere(matches));
    NestedTakes(matches, a, b, k, Str(text));
    NestedRefused(matches, a, b, k, text, rules);
  }

  lemma NestedCompiles(matches: string -> bool, a: string)
    ensures Compiles(RequiredObjectOf(a, Holding(StringsWhere(matches))))
  {
    assert Compiles(STRING) && Compiles(INTEGER);
    assert Compiles(StringsWhere(matches));
    assert Compiles(Holding(StringsWhere(matches)));
  }

  lemma NestedRefused(matches: string -> bool, a: string, b: string, k: string, text: string, rules: TextRules)
    requires matches(k) && rules.parse(text).Some?
    ensures ValidateArguments(RequiredObjectOf(a, Holding(StringsWhere(matches))),
                              Obj(map[a := Obj(map[b := Obj(map[k := Str(text)])])]), rules).None?
  {
    var pat, x := StringsWhere(matches), Obj(map[k := Str(text)]);
    var s := RequiredObjectOf(a, Holding(pat));
    NestedCompiles(matches, a);
    NestedTakes(matches, a, b, k, Num(rules.parse(text).value));
    StringsWhereCoerces(matches, k, text, rules);
    NestedCoerces(s, pat, a, b, x, rules);
    NestedSpared(s, Holding(pat), a, Obj(map[b := x]));
  }

  lemma NestedTakes(matches: string -> bool, a: string, b: string, k: string, x: Json)
    requires matches(k)
    ensures var s := RequiredObjectOf(a, Holding(StringsWhere(matches)));
            var v := Obj(map[a := Obj(map[b := Obj(map[k := x])])]);
            && (Valid(s, v) <==> x.Str?)
            && (Valid(StrictObjectOf(a, Holding(StringsWhere(matches))), v) <==> x.Str?)
  {
    StringsWhereTakes(matches, k, x);
    HoldingTakes(StringsWhere(matches), b, Obj(map[k := x]));
    RequiredObjectOfTakes(a, Holding(StringsWhere(matches)), Obj(map[b := Obj(map[k := x])]));
  }

  lemma NestedCoerces(s: Schema, pat: Schema, a: string, b: string, x: Json, rules: TextRules)
    requires s == RequiredObjectOf(a, Holding(pat)) && pat.Node?
    ensures Coerce(Obj(map[a := Obj(map[b := x])]), s, rules) == Obj(map[a := Obj(map[b := Coerce(x, pat, rules)])])
  {
    var p := Holding(pat);
    assert TypesOf(p) == [ObjectType] && TypesOf(s) == [ObjectType];
    CoercesOne(p, b, x, rules);
    CoercesOne(s, a, Obj(map[b := x]), rules);
    assert s.properties.m[a] == p;
  }

  lemma NestedSpared(s: Schema, p: Schema, k: string, x: Json)
    requires s == RequiredObjectOf(k, p) && p.Node? && p.properties.NoProperties? && x.Obj?
    ensures Normalize(Obj(map[k := x]), s) == Obj(map[k := x])
  {
    var v := Obj(map[k := x]);
    assert Normalize(x, p) == x && v.fields[k] == x;
    assert Normalize(v, s).fields == v.fields;
  }

  // ----- `$ref` -----

  /** A string schema with a reference that validation of strings never follows: it does not compile by itself. */
  const LINKED_STRING := STRING.(additional := Some(STRING_ELSEWHERE), alone := Otherwise(None))

  /** If it is optional, the strict form accepts null for it; repair keeps that null, as a property without a validator
      counts as accepting it, and the original refuses it. */
  lemma OwnNullGap(k: string)
    ensures var s, sent := ObjectOf(k, LINKED_STRING), Obj(map[k := Null]);
            && Compiles(s) && StrictRoot(s).Some? && Valid(StrictRoot(s).value, sent)
            && Normalize(sent, s) == sent && !Valid(s, sent)
  {
    var s, p, sent := ObjectOf(k, LINKED_STRING), LINKED_STRING, Obj(map[k := Null]);
    LinkedStringRefusesNull();
    ObjectOfTakes(k, p, Null);
    assert Normalize(sent, s).fields == sent.fields;
    OptionalIsStrict(k, p);
    NullableTakes(p, Null);
    RequiredObjectOfTakes(k, Nullable(p), Null);
  }

  lemma LinkedStringRefusesNull()
    ensures Compiles(LINKED_STRING) && !Valid(LINKED_STRING, Null)
  {
    Keywords(LINKED_STRING, Null);
    assert TypesOf(LINKED_STRING) == [StringType];
  }

  lemma OptionalIsStrict(k: string, p: Schema)
    requires p == LINKED_STRING
    ensures StrictRoot(ObjectOf(k, p))
         == Some(StrictObjectOf(k, Nullable(p)))
  {
    var s := ObjectOf(k, p);
    assert TypesOf(p) == [StringType] && StrictNode(p) == Some(p);
    assert StrictProperty(s, k, p) == Some(Nullable(p));
    var t := StrictNode(s).value;
    assert t.properties.m == map[k := Nullable(p)] && s.properties.m.Keys == {k};
  }

  /** The empty string is valid by reference; the member with the reference does not compile by itself, so the union
      makes it null. */
  lemma ReferenceGap(k: string, rules: TextRules)
    ensures var s, v := ObjectOf(k, NULLABLE_STRING), Obj(map[k := Str("")]);
            && Compiles(s) && Valid(s, v) && Orderly(s) && !Undisturbed(v, s, rules)
            && ValidateArguments(s, v, rules) == Some(Obj(map[k := Null]))
  {
    var s, v := ObjectOf(k, NULLABLE_STRING), Obj(map[k := Str("")]);
    ObjectOfTakes(k, NULLABLE_STRING, Str(""));
    ObjectOfTakes(k, NULLABLE_STRING, Null);
    NullableStringTakes();
    NullableStringCoerces(rules);
    CoercesOne(s, k, Str(""), rules);
    KeepsOne(s, k, Str(""));
  }

  lemma NullableStringCoerces(rules: TextRules)
    ensures Coerce(Str(""), NULLABLE_STRING, rules) == Null && !Undisturbed(Str(""), NULLABLE_STRING, rules)
    ensures Orderly(NULLABLE_STRING)
  {
    var s := NULLABLE_STRING;
    UnionMakesNull(s, rules);
    UnionKeepsIff(Str(""), s, s.anyOf.list, rules);
    assert TypesOf(s) == [];
  }

  lemma ObjectOfTakes(k: string, p: Schema, x: Json)
    ensures Valid(ObjectOf(k, p), Obj(map[k := x])) <==> Valid(p, x)
  {
    Keywords(ObjectOf(k, p), Obj(map[k := x]));
    var s, v := ObjectOf(k, p), Obj(map[k := x]);
    assert TypesOf(s) == [ObjectType] && ObjectType in TypesOf(s) && MatchesType(v, ObjectType);
    assert s.asserts(v) && v.fields[k] == x && s.properties.m[k] == p;
  }

  lemma NullableStringTakes()
    ensures Compiles(NULLABLE_STRING) && Valid(NULLABLE_STRING, Str("")) && Valid(NULLABLE_STRING, Null)
  {
    Keywords(NULLABLE_STRING, Null);
    Keywords(NULLABLE_STRING, Str(""));
    var list := NULLABLE_STRING.anyOf.list;
    MatchesOnly(NullType, Null);
    assert Valid(list[0], Str("")) && Valid(list[1], Null);
    assert NULLABLE_STRING.asserts(Null) && NULLABLE_STRING.asserts(Str(""));
  }

  lemma UnionMakesNull(s: Schema, rules: TextRules)
    requires s.Node? && s.anyOf == NULLABLE_STRING.anyOf
    ensures CoerceUnion(Str(""), s, s.anyOf.list, rules) == Null
  {
    var list := s.anyOf.list;
    MatchesOnly(NullType, Str(""));
    MatchesOnly(NullType, Null);
    CoercesByType(NullType, Str(""), rules);
    assert list[1] == NULL_SCHEMA && OwnTakes(NULL_SCHEMA, Null) && !OwnTakes(NULL_SCHEMA, Str(""));
    assert list[0] == STRING_ELSEWHERE && forall x :: !OwnTakes(STRING_ELSEWHERE, x);
    assert FirstCoerced(Str(""), s, list, 1, rules) == Null;
  }

  /** A keyword beside a `$ref`: validation ignores it, and coercion does not. */
  lemma NeighbourGap(text: string, rules: TextRules)
    requires rules.parse(text).Some?
    ensures var s := STRING_ELSEWHERE.(types := OneType(IntegerType));
            && Compiles(s) && Valid(s, Str(text)) && Orderly(s) && !Undisturbed(Str(text), s, rules)
            && Coerce(Str(text), s, rules) == Num(rules.parse(text).value) && !Valid(s, Coerce(Str(text), s, rules))
  {
    var s := STRING_ELSEWHERE.(types := OneType(IntegerType));
    assert TypesOf(s) == [IntegerType] && [IntegerType][1..] == [];
  }

  /** With a `type` beside the union the change is undone, so the value passes although it was disturbed. */
  lemma LaterKeywordUndoes(rules: TextRules)
    ensures var s := NULLABLE_STRING.(types := OneType(StringType));
            && Compiles(s) && Valid(s, Str("")) && !Orderly(s)
            && !Undisturbed(Str(""), s, rules) && Coerce(Str(""), s, rules) == Str("")
  {
    var s := NULLABLE_STRING.(types := OneType(StringType));
    TypedNullableStringTakes(s);
    TypedNullableStringCoerces(s, rules);
  }

  lemma TypedNullableStringCoerces(s: Schema, rules: TextRules)
    requires s == NULLABLE_STRING.(types := OneType(StringType))
    ensures !Undisturbed(Str(""), s, rules) && Coerce(Str(""), s, rules) == Str("") && !Orderly(s)
  {
    UnionMakesNull(s, rules);
    UnionKeepsIff(Str(""), s, s.anyOf.list, rules);
    assert TypesOf(s) == [StringType] && CoerceTypes(Null, [StringType], rules) == Str("");
    assert s.anyOf.list[0].alone.Otherwise?;
  }

  lemma TypedNullableStringTakes(s: Schema)
    requires s == NULLABLE_STRING.(types := OneType(StringType))
    ensures Compiles(s) && Valid(s, Str(""))
  {
    Keywords(s, Str(""));
    NullableStringTakes();
    assert TypesOf(s) == [StringType] && StringType in TypesOf(s) && MatchesType(Str(""), StringType);
    assert s.asserts(Str("")) && Valid(s.anyOf.list[0], Str(""));
  }
}
