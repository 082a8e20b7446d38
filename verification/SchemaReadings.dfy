/** What the coercion of `schema.rs` makes of a scalar, said without the functions that compute it. */
module SchemaReadings {
  import opened JsonValues
  import opened JsonSchema
  import opened SchemaGaps
  import opened SchemaRepair

  /** `y` is what the scalar `x` is read as where `t` is asked for, and it is not `x` itself. */
  predicate ReadsAs(t: JsonType, x: Json, y: Json, rules: TextRules) {
    match t
    case BooleanType =>
      || (y == Bool(true) && x in {Str("true"), Num(1)})
      || (y == Bool(false) && x in {Str("false"), Num(0), Null})
    case StringType =>
      || (x == Null && y == Str(""))
      || (x == Bool(true) && y == Str("true"))
      || (x == Bool(false) && y == Str("false"))
      || (x.Num? && y == Str(rules.show(x.n)))
    case NullType => y == Null && x in {Str(""), Num(0), Bool(false)}
    case ArrayType => false
    case ObjectType => false
    case _ =>
      || (x in {Null, Bool(false)} && y == Num(0))
      || (x == Bool(true) && y == Num(1))
      || (x.Str? && y.Num? && rules.parse(x.s) == Some(y.n))
  }

  /** Whether `x` has a reading; see `ReadableIff`. */
  predicate Readable(t: JsonType, x: Json, rules: TextRules) {
    match t
    case BooleanType => x in {Str("true"), Str("false"), Num(1), Num(0), Null}
    case StringType => x.Null? || x.Bool? || x.Num?
    case NullType => x in {Str(""), Num(0), Bool(false)}
    case ArrayType => false
    case ObjectType => false
    case _ => x.Null? || x.Bool? || (x.Str? && rules.parse(x.s).Some?)
  }

  /** A reading is of the type that was asked for, differs from the value, and is the only one. */
  lemma ReadingFits(t: JsonType, x: Json, y: Json, rules: TextRules)
    requires ReadsAs(t, x, y, rules)
    ensures MatchesType(y, t) && !MatchesType(x, t) && Readable(t, x, rules)
    ensures forall z | ReadsAs(t, x, z, rules) :: z == y
  {
  }

  lemma ReadableIff(t: JsonType, x: Json, rules: TextRules)
    ensures Readable(t, x, rules) <==> exists y :: ReadsAs(t, x, y, rules)
  {
    if Readable(t, x, rules) {
      assert ReadsAs(t, x, CoercePrimitive(x, t, rules), rules);
    }
  }

  lemma PrimitiveIsReading(t: JsonType, x: Json, rules: TextRules)
    requires x.IsScalar()
    ensures ReadsAs(t, x, CoercePrimitive(x, t, rules), rules)
         || (CoercePrimitive(x, t, rules) == x && !Readable(t, x, rules))
  {
  }

  // ----- one type or several -----

  /** The first of the types that has a reading of the value. */
  predicate FirstReading(ts: seq<JsonType>, x: Json, y: Json, rules: TextRules) {
    exists i | 0 <= i < |ts| :: ReadsAs(ts[i], x, y, rules) && forall j | 0 <= j < i :: !Readable(ts[j], x, rules)
  }

  predicate NoReading(ts: seq<JsonType>, x: Json, rules: TextRules) {
    forall i | 0 <= i < |ts| :: !Readable(ts[i], x, rules)
  }

  lemma {:induction false} TypesRead(ts: seq<JsonType>, x: Json, rules: TextRules)
    requires x.IsScalar()
    ensures var y := CoerceTypes(x, ts, rules);
            FirstReading(ts, x, y, rules) || (NoReading(ts, x, rules) && y == x)
    decreases |ts|
  {
    if ts != [] {
      var y := CoerceTypes(x, ts, rules);
      PrimitiveIsReading(ts[0], x, rules);
      if CoercePrimitive(x, ts[0], rules) != x {
        assert ReadsAs(ts[0], x, y, rules);
      } else {
        TypesRead(ts[1..], x, rules);
        assert forall i | 0 <= i < |ts[1..]| :: ts[1..][i] == ts[i + 1];
        if FirstReading(ts[1..], x, y, rules) {
          FirstReadingLater(ts, x, y, rules);
        } else {
          assert forall i | 0 < i < |ts| :: ts[i] == ts[1..][i - 1];
        }
      }
    }
  }

  lemma FirstReadingLater(ts: seq<JsonType>, x: Json, y: Json, rules: TextRules)
    requires ts != [] && !Readable(ts[0], x, rules) && FirstReading(ts[1..], x, y, rules)
    ensures FirstReading(ts, x, y, rules)
  {
    var i :| 0 <= i < |ts[1..]| && ReadsAs(ts[1..][i], x, y, rules) &&
             forall j | 0 <= j < i :: !Readable(ts[1..][j], x, rules);
    assert ReadsAs(ts[i + 1], x, y, rules);
    forall j | 0 <= j < i + 1 ensures !Readable(ts[j], x, rules) {
      if j > 0 {
        assert ts[j] == ts[1..][j - 1];
      }
    }
  }

  lemma FirstReadingIsOnly(ts: seq<JsonType>, x: Json, y: Json, z: Json, rules: TextRules)
    requires FirstReading(ts, x, y, rules) && FirstReading(ts, x, z, rules)
    ensures y == z
  {
    var i :| 0 <= i < |ts| && ReadsAs(ts[i], x, y, rules) && forall j | 0 <= j < i :: !Readable(ts[j], x, rules);
    var n :| 0 <= n < |ts| && ReadsAs(ts[n], x, z, rules) && forall j | 0 <= j < n :: !Readable(ts[j], x, rules);
    ReadingFits(ts[i], x, y, rules);
    ReadingFits(ts[n], x, z, rules);
  }

  /** The schema that asks for one of these types and nothing else. */
  function Typed(ts: seq<JsonType>): Schema {
    EMPTY.(types := if |ts| == 1 then OneType(ts[0]) else TypeList(ts))
  }

  predicate MatchesOne(ts: seq<JsonType>, x: Json) {
    exists t | t in ts :: MatchesType(x, t)
  }

  /** A scalar of one of the types is left alone; otherwise the first type with a reading gives it, and without any
      reading the value stays. */
  lemma ScalarCoerces(ts: seq<JsonType>, x: Json, rules: TextRules)
    requires x.IsScalar()
    ensures var y := Coerce(x, Typed(ts), rules);
            if MatchesOne(ts, x) then y == x
            else FirstReading(ts, x, y, rules) || (NoReading(ts, x, rules) && y == x)
  {
    TypesRead(ts, x, rules);
    assert TypesOf(Typed(ts)) == ts && CoerceCombined(x, Typed(ts), rules) == x;
    assert Coerce(x, Typed(ts), rules) == CoerceDeclared(x, ts, rules);
    if |ts| == 1 && MatchesOne(ts, x) {
      MatchingUnread(ts[0], x, rules);
    }
  }

  lemma MatchingUnread(t: JsonType, x: Json, rules: TextRules)
    requires MatchesType(x, t)
    ensures !Readable(t, x, rules) && forall y :: !ReadsAs(t, x, y, rules)
  {
  }

  lemma TypedTakes(ts: seq<JsonType>, x: Json)
    ensures Valid(Typed(ts), x) <==> MatchesOne(ts, x)
  {
    Keywords(Typed(ts), x);
    assert TypesOf(Typed(ts)) == ts && Typed(ts).asserts(x);
  }

  lemma ReadingMatches(ts: seq<JsonType>, x: Json, y: Json, rules: TextRules)
    requires FirstReading(ts, x, y, rules)
    ensures MatchesOne(ts, y) && y.IsScalar()
  {
    var i :| 0 <= i < |ts| && ReadsAs(ts[i], x, y, rules) && forall j | 0 <= j < i :: !Readable(ts[j], x, rules);
    ReadingFits(ts[i], x, y, rules);
    assert ts[i] in ts;
  }

  // ----- arguments -----

  /** The answer to a call whose one argument `k` is the scalar `x` and required to be of one of these types. */
  function Answer(k: string, ts: seq<JsonType>, x: Json, rules: TextRules): Option<Json> {
    ValidateArguments(RequiredObjectOf(k, Typed(ts)), Obj(map[k := x]), rules)
  }

  lemma AnswerIsCoerced(k: string, ts: seq<JsonType>, x: Json, rules: TextRules)
    requires x.IsScalar() && ts != []
    ensures var y := Coerce(x, Typed(ts), rules);
            Answer(k, ts, x, rules) == if MatchesOne(ts, y) then Some(Obj(map[k := y])) else None
  {
    var s, v := RequiredObjectOf(k, Typed(ts)), Obj(map[k := x]);
    var y := Coerce(x, Typed(ts), rules);
    assert Normalize(v, s).fields == v.fields;
    assert TypesOf(s) == [ObjectType] && IsDeclared(s, k);
    CoercesOne(s, k, x, rules);
    RequiredObjectOfTakes(k, Typed(ts), y);
    TypedTakes(ts, y);
    assert Compiles(Typed(ts)) && Compiles(s);
  }

  /** The argument is returned as it was sent if it is of a listed type; else as the first type with a reading reads it;
      and refused if no type reads it. */
  lemma ScalarArgument(k: string, ts: seq<JsonType>, x: Json, y: Json, rules: TextRules)
    requires x.IsScalar() && ts != []
    ensures MatchesOne(ts, x) ==> Answer(k, ts, x, rules) == Some(Obj(map[k := x]))
    ensures !MatchesOne(ts, x) && FirstReading(ts, x, y, rules) ==> Answer(k, ts, x, rules) == Some(Obj(map[k := y]))
    ensures !MatchesOne(ts, x) && NoReading(ts, x, rules) ==> Answer(k, ts, x, rules) == None
  {
    AnswerIsCoerced(k, ts, x, rules);
    ScalarCoerces(ts, x, rules);
    var z := Coerce(x, Typed(ts), rules);
    if !MatchesOne(ts, x) && FirstReading(ts, x, y, rules) {
      if NoReading(ts, x, rules) {
        ReadingContradiction(ts, x, y, rules);
      }
      FirstReadingIsOnly(ts, x, y, z, rules);
      ReadingMatches(ts, x, y, rules);
    }
    if NoReading(ts, x, rules) && FirstReading(ts, x, z, rules) {
      ReadingContradiction(ts, x, z, rules);
    }
  }

  lemma ReadingContradiction(ts: seq<JsonType>, x: Json, y: Json, rules: TextRules)
    requires FirstReading(ts, x, y, rules)
    ensures !NoReading(ts, x, rules)
  {
    var i :| 0 <= i < |ts| && ReadsAs(ts[i], x, y, rules) && forall j | 0 <= j < i :: !Readable(ts[j], x, rules);
    ReadingFits(ts[i], x, y, rules);
  }

  /** One type. */
  lemma OneReading(k: string, t: JsonType, x: Json, y: Json, rules: TextRules)
    requires x.IsScalar()
    ensures MatchesType(x, t) ==> Answer(k, [t], x, rules) == Some(Obj(map[k := x]))
    ensures ReadsAs(t, x, y, rules) ==> Answer(k, [t], x, rules) == Some(Obj(map[k := y]))
    ensures !MatchesType(x, t) && !Readable(t, x, rules) ==> Answer(k, [t], x, rules) == None
  {
    ScalarArgument(k, [t], x, y, rules);
    if ReadsAs(t, x, y, rules) {
      ReadingFits(t, x, y, rules);
      assert ReadsAs([t][0], x, y, rules);
    }
  }

  /** Booleans: their names and 1 and 0, and null for false; nothing else. */
  lemma BooleanArgument(k: string, x: Json, rules: TextRules)
    requires x.IsScalar()
    ensures Answer(k, [BooleanType], x, rules) ==
            if x in {Bool(true), Str("true"), Num(1)} then Some(Obj(map[k := Bool(true)]))
            else if x in {Bool(false), Str("false"), Num(0), Null} then Some(Obj(map[k := Bool(false)]))
            else None
  {
    OneReading(k, BooleanType, x, Bool(true), rules);
    OneReading(k, BooleanType, x, Bool(false), rules);
  }

  /** Strings: the text of a number or boolean, and "" for null. */
  lemma StringArgument(k: string, x: Json, rules: TextRules)
    requires x.IsScalar()
    ensures Answer(k, [StringType], x, rules) == Some(Obj(map[k :=
              match x
              case Null => Str("")
              case Bool(b) => Str(if b then "true" else "false")
              case Num(n) => Str(rules.show(n))
              case _ => x]))
  {
    OneReading(k, StringType, x, Str(""), rules);
    OneReading(k, StringType, x, Str("true"), rules);
    OneReading(k, StringType, x, Str("false"), rules);
    if x.Num? {
      OneReading(k, StringType, x, Str(rules.show(x.n)), rules);
    }
  }

  /** Numbers: what a text parses to, 1 and 0 for booleans, and 0 for null. */
  lemma NumberArgument(k: string, t: JsonType, x: Json, rules: TextRules)
    requires x.IsScalar() && (t == NumberType || t == IntegerType)
    ensures Answer(k, [t], x, rules) ==
            match x
            case Null => Some(Obj(map[k := Num(0)]))
            case Bool(b) => Some(Obj(map[k := Num(if b then 1 else 0)]))
            case Str(text) =>
              if rules.parse(text).Some? then Some(Obj(map[k := Num(rules.parse(text).value)])) else None
            case _ => Some(Obj(map[k := x]))
  {
    OneReading(k, t, x, Num(0), rules);
    OneReading(k, t, x, Num(1), rules);
    if x.Str? && rules.parse(x.s).Some? {
      OneReading(k, t, x, Num(rules.parse(x.s).value), rules);
    }
  }

  /** Null: the empty string, 0 and false. */
  lemma NullArgument(k: string, x: Json, rules: TextRules)
    requires x.IsScalar()
    ensures Answer(k, [NullType], x, rules) ==
            if x in {Null, Str(""), Num(0), Bool(false)} then Some(Obj(map[k := Null])) else None
  {
    OneReading(k, NullType, x, Null, rules);
  }

  /** An optional argument is answered the same, but for a null that its type refuses: it is dropped. */
  lemma OptionalArgument(k: string, ts: seq<JsonType>, x: Json, rules: TextRules)
    requires x.IsScalar() && ts != []
    ensures ValidateArguments(ObjectOf(k, Typed(ts)), Obj(map[k := x]), rules)
         == if x.Null? && NullType !in ts then Some(Obj(map[])) else Answer(k, ts, x, rules)
  {
    if x.Null? && NullType !in ts {
      NullDropped(k, ts, rules);
    } else {
      OptionalKept(k, ts, x, rules);
    }
  }

  lemma NullDropped(k: string, ts: seq<JsonType>, rules: TextRules)
    requires ts != [] && NullType !in ts
    ensures ValidateArguments(ObjectOf(k, Typed(ts)), Obj(map[k := Null]), rules) == Some(Obj(map[]))
  {
    var s, v := ObjectOf(k, Typed(ts)), Obj(map[k := Null]);
    TypedTakes(ts, Null);
    assert Compiles(Typed(ts)) && !AcceptsNull(Typed(ts));
    assert s.properties.m[k] == Typed(ts) && DropsNull(s, k, Null) && Normalize(v, s).fields == map[];
    assert TypesOf(s) == [ObjectType];
    CoercesFields(s, map[], rules);
    assert CoerceFields(map[], s, rules) == map[];
    EmptyObjectTaken(k, Typed(ts));
  }

  lemma OptionalKept(k: string, ts: seq<JsonType>, x: Json, rules: TextRules)
    requires x.IsScalar() && ts != [] && (x.Null? ==> NullType in ts)
    ensures ValidateArguments(ObjectOf(k, Typed(ts)), Obj(map[k := x]), rules) == Answer(k, ts, x, rules)
  {
    var s, v := ObjectOf(k, Typed(ts)), Obj(map[k := x]);
    var y := Coerce(x, Typed(ts), rules);
    AnswerIsCoerced(k, ts, x, rules);
    TypedTakes(ts, x);
    TypedTakes(ts, y);
    assert x.Null? ==> MatchesType(Null, NullType) && MatchesOne(ts, Null);
    assert Compiles(Typed(ts)) && Compiles(s) && s.properties.m[k] == Typed(ts) && !DropsNull(s, k, x);
    assert Normalize(v, s).fields == v.fields;
    assert TypesOf(s) == [ObjectType];
    CoercesOne(s, k, x, rules);
    ObjectOfTakes(k, Typed(ts), y);
  }

  lemma EmptyObjectTaken(k: string, p: Schema)
    ensures Valid(ObjectOf(k, p), Obj(map[]))
  {
    var s := ObjectOf(k, p);
    Keywords(s, Obj(map[]));
    assert TypesOf(s) == [ObjectType] && ObjectType in TypesOf(s) && MatchesType(Obj(map[]), ObjectType);
    assert s.asserts(Obj(map[]));
  }

  // ----- what a sub-schema's own validator decides -----

  /** The validator that a sub-schema compiles to by itself, if any, says this of a value. */
  ghost predicate OwnSays(p: Schema, v: Json, takes: bool) {
    if p.Node? && p.alone.Otherwise? then p.alone.validator.Some? && p.alone.validator.value(v) == takes
    else Compiles(p) && Valid(p, v) == takes
  }

  /** Exactly those nulls go that stand under a declared name, not required and not a `$ref`, whose own validator is
      there and rejects null. */
  lemma DroppedIff(s: Schema, m: map<string, Json>, k: string)
    requires s.Node? && s.properties.Props? && k in m
    ensures k !in Normalize(Obj(m), s).fields <==>
              && m[k] == Null && k in s.properties.m
              && (s.required.Some? ==> k !in s.required.value)
              && (s.properties.m[k].Node? ==> s.properties.m[k].reference.NoReference?)
              && OwnSays(s.properties.m[k], Null, false)
  {
  }

  /** A union all of whose members have no validator of their own changes nothing. */
  lemma NoValidatorTakesNothing(v: Json, s: Schema, list: seq<Schema>, rules: TextRules)
    requires s.Node? && forall p | p in list :: p < s
    requires forall p | p in list :: forall w :: !OwnSays(p, w, true)
    ensures CoerceUnion(v, s, list, rules) == v
  {
    forall i | 0 <= i < |list| ensures !OwnTakes(list[i], v) {
      assert list[i] in list && !OwnSays(list[i], v, true);
    }
    NoneCoerced(v, s, list, 0, rules);
  }

  lemma {:induction false} NoneCoerced(v: Json, s: Schema, list: seq<Schema>, i: nat, rules: TextRules)
    requires s.Node? && i <= |list| && forall p | p in list :: p < s
    requires forall p | p in list :: forall w :: !OwnSays(p, w, true)
    ensures FirstCoerced(v, s, list, i, rules) == v
    decreases |list| - i
  {
    if i < |list| {
      assert list[i] in list;
      assert !OwnSays(list[i], Coerce(v, list[i], rules), true);
      NoneCoerced(v, s, list, i + 1, rules);
    }
  }
}
