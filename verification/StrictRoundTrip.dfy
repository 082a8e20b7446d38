/** The strict transform and the argument repair together: what a model sends under the strict schema
    is, after repair, a valid call under the schema the tool was written with. */
module StrictRoundTrip {
  import opened JsonValues
  import opened JsonSchema
  import opened StrictSchema
  import opened SchemaRepair
  import opened Collections

  predicate ScalarKeywords(s: Schema)
    requires s.Node?
  {
    && (s.enumeration.Some? ==> forall e | e in s.enumeration.value :: e.IsScalar())
    && (s.constant.Some? ==> s.constant.value.IsScalar())
  }

  /** Keywords outside this model that only look at scalars, such as `minLength` or `maximum`. */
  ghost predicate IgnoresContainers(s: Schema)
    requires s.Node?
  {
    forall v: Json | !v.IsScalar() :: s.asserts(v)
  }

  /** A variant that only looks at scalars, at the kind of the value and at the keys of an object. */
  ghost predicate Flat(s: Schema)
    decreases s
  {
    s.Node? ==>
      && ScalarKeywords(s) && IgnoresContainers(s)
      && (s.additional.Some? ==> s.additional.value.BoolSchema?)
      && (s.anyOf.Members? ==> forall i | 0 <= i < |s.anyOf.list| :: Flat(s.anyOf.list[i]))
  }

  /** Whether a flat variant accepts the objects with these keys. */
  predicate FitsKeys(s: Schema, keys: set<string>)
    decreases s
  {
    && s.Node? && s.types.NoType? && s.enumeration.None? && s.constant.None?
    && (s.required.Some? ==> s.required.value <= keys)
    && (Forbids(s.additional) ==> keys == {})
    && (s.anyOf.Members? ==> SomeFits(s, keys))
  }

  predicate SomeFits(s: Schema, keys: set<string>)
    requires s.Node? && s.anyOf.Members?
    decreases s, 0
  {
    exists i | 0 <= i < |s.anyOf.list| :: FitsKeys(s.anyOf.list[i], keys)
  }

  function Declared(s: Schema): set<string>
    requires s.Node?
  {
    if s.properties.Props? then s.properties.m.Keys else {}
  }

  /** The declared names that repair never drops: required ones, those whose own validator takes null, and those under
      which no null is sent. */
  function Kept(s: Schema): set<string>
    requires s.Node?
  {
    set k | k in Declared(s) &&
            var p := s.properties.m[k];
            IsRequired(s, k) || AcceptsNull(p) || (SchemaAllowsNull(p) && !Valid(p, Null))
  }

  /** The declared names under which a call can send something other than null. */
  ghost function Fillable(s: Schema): set<string>
    requires s.Node?
  {
    set k | k in Declared(s) && exists x :: Fills(s, k, x)
  }

  predicate Fills(s: Schema, k: string, x: Json)
    requires s.Node? && k in Declared(s)
  {
    var p := StrictProperty(s, k, s.properties.m[k]);
    x != Null && p.Some? && Valid(p.value, x)
  }

  /** What a model can send for the schema. */
  predicate Accepts(s: Schema, v: Json) {
    StrictNode(s).Some? && Valid(StrictNode(s).value, v)
  }

  /** Whichever of the optional properties repair drops, some variant accepts what is left. */
  ghost predicate VariantsCovered(s: Schema)
    requires s.Node? && s.anyOf.Members?
  {
    IsObjectNode(s) && (exists v :: Accepts(s, v)) ==>
      forall keys: set<string> | Kept(s) <= keys <= Kept(s) + Fillable(s) :: SomeFits(s, keys)
  }

  /** The transform overwrites `required` here, so it must not have asked for more than the declared properties. */
  predicate RequiredCovered(s: Schema) {
    IsObjectNode(s) && s.required.Some? ==>
      s.required.value <= if s.properties.Props? then s.properties.m.Keys else {}
  }

  /** Whether repair can change a value of this node. */
  predicate Rewrites(s: Schema)
    requires s.Node?
  {
    !s.properties.NoProperties? || !s.items.NoItems?
  }

  ghost predicate FlatVariants(s: Schema)
    requires s.Node? && s.anyOf.Members?
  {
    forall i | 0 <= i < |s.anyOf.list| :: Flat(s.anyOf.list[i])
  }

  /** Keywords outside this model, such as `minProperties`, accept what repair leaves of a call. */
  ghost predicate AssertsSurvive(s: Schema) {
    s.Node? && Rewrites(s) ==> forall v | Accepts(s, v) :: s.asserts(Normalize(v, s))
  }

  /** A null that is sent for an optional property, and kept because the property's own validator takes it or does not
      compile, is valid. */
  predicate HonestNull(s: Schema, k: string)
    requires s.Node? && k in Declared(s)
  {
    var p := s.properties.m[k];
    !IsRequired(s, k) && !SchemaAllowsNull(p) && AcceptsNull(p) ==> Valid(p, Null)
  }

  /** The fragment at a node, apart from `RequiredCovered` and `AssertsSurvive`, and in full at the nodes below it. */
  ghost predicate SupportedBelow(s: Schema)
    decreases s, 1
  {
    s.Node? ==>
      && (Rewrites(s) ==> ScalarKeywords(s))
      && (Rewrites(s) && s.anyOf.Members? ==> FlatVariants(s) && VariantsCovered(s))
      && (s.items.Each? ==> Supported(s.items.schema))
      && PropertiesSupported(s)
  }

  ghost predicate Supported(s: Schema)
    decreases s, 2
  {
    RequiredCovered(s) && AssertsSurvive(s) && SupportedBelow(s)
  }

  /** The same value, or arrays whose members may differ. */
  predicate SameShape(v: Json, w: Json) {
    v == w || (v.Arr? && w.Arr?)
  }

  lemma {:induction false} FlatSeesShapeOnly(s: Schema, v: Json, w: Json)
    requires Flat(s) && !IsStructured(s) && StrictNode(s).Some?
    requires SameShape(v, w) && Valid(s, v)
    ensures Valid(s, w)
    decreases s
  {
    Keywords(s, v);
    Keywords(s, w);
    if s.anyOf.Members? {
      var i :| 0 <= i < |s.anyOf.list| && Valid(s.anyOf.list[i], v);
      FlatSeesShapeOnly(s.anyOf.list[i], v, w);
    }
    if s.types != NoType {
      var t :| t in TypesOf(s) && MatchesType(v, t);
      assert MatchesType(w, t);
    }
  }

  /** Of an object a flat variant sees only the keys. */
  lemma {:induction false} FlatSeesKeys(s: Schema, v: Json)
    requires Flat(s) && !IsStructured(s) && StrictNode(s).Some? && v.Obj?
    ensures Valid(s, v) <==> FitsKeys(s, v.fields.Keys)
    decreases s
  {
    Keywords(s, v);
    if s.anyOf.Members? {
      forall i | 0 <= i < |s.anyOf.list|
        ensures Valid(s.anyOf.list[i], v) <==> FitsKeys(s.anyOf.list[i], v.fields.Keys)
      {
        FlatSeesKeys(s.anyOf.list[i], v);
      }
    }
    assert !v.IsScalar();
    assert !s.types.NoType? ==> forall t | t in TypesOf(s) :: !MatchesType(v, t);
    if s.additional.Some? && s.additional.value.b {
      assert forall k | k in v.fields :: Valid(s.additional.value, v.fields[k]);
    }
  }

  /** Whether some variant accepts an object, before or after the transform. */
  lemma VariantsSeeKeys(s: Schema, v: Json)
    requires StrictNode(s).Some? && s.anyOf.Members? && FlatVariants(s) && v.Obj?
    ensures StrictNode(s).value.anyOf == s.anyOf
    ensures (exists i | 0 <= i < |s.anyOf.list| :: Valid(s.anyOf.list[i], v)) <==> SomeFits(s, v.fields.Keys)
  {
    forall i | 0 <= i < |s.anyOf.list|
      ensures Valid(s.anyOf.list[i], v) <==> FitsKeys(s.anyOf.list[i], v.fields.Keys)
      ensures StrictNode(s).value.anyOf.list[i] == s.anyOf.list[i]
    {
      StrictUnstructured(s.anyOf.list[i]);
      FlatSeesKeys(s.anyOf.list[i], v);
    }
    assert StrictNode(s).value.anyOf.list == s.anyOf.list;
  }

  /** What the strict form of a property accepts, the property accepts after repair, or it is a null to drop. */
  lemma {:induction false} PropertyRoundTrip(s: Schema, k: string, v: Json)
    requires s.Node? && s.properties.Props? && k in s.properties.m
    requires Compiles(s.properties.m[k]) && Supported(s.properties.m[k])
    requires StrictProperty(s, k, s.properties.m[k]).Some?
    requires Valid(StrictProperty(s, k, s.properties.m[k]).value, v) && HonestNull(s, k)
    ensures DropsNull(s, k, v) || Valid(s.properties.m[k], Normalize(v, s.properties.m[k]))
    decreases s.properties.m[k], 5
  {
    var p := s.properties.m[k];
    StrictPropertyCases(s, k, p);
    if IsRequired(s, k) || SchemaAllowsNull(p) {
      NodeRoundTrip(p, v);
    } else {
      NullableTakes(StrictNode(p).value, v);
      if v != Null {
        NodeRoundTrip(p, v);
      }
    }
  }

  /** A value of a strict object node has exactly the declared keys. */
  lemma StrictObjectKeys(s: Schema, v: Json)
    requires StrictNode(s).Some? && IsObjectNode(s) && Valid(StrictNode(s).value, v)
    ensures v.Obj? && v.fields.Keys == (if s.properties.Props? then s.properties.m.Keys else {})
  {
    Keywords(StrictNode(s).value, v);
    var t := StrictNode(s).value;
    assert MatchesType(v, ObjectType);
    assert forall k | k in t.required.value :: k in v.fields;
    assert forall k | k in v.fields && !(t.properties.Props? && k in t.properties.m) ::
        Valid(t.additional.value, v.fields[k]);
    assert s.properties.Props? ==> t.properties.m.Keys == s.properties.m.Keys;
  }

  lemma {:induction false} FieldsRoundTrip(s: Schema, v: Json)
    requires Compiles(s) && SupportedBelow(s) && StrictNode(s).Some? && Valid(StrictNode(s).value, v)
    requires v.Obj? && s.properties.Props? && v.fields.Keys == s.properties.m.Keys
    ensures forall k | k in v.fields ::
              DropsNull(s, k, v.fields[k]) || Valid(s.properties.m[k], Normalize(v.fields[k], s.properties.m[k]))
    decreases s, 0
  {
    forall k | k in v.fields
      ensures DropsNull(s, k, v.fields[k]) || Valid(s.properties.m[k], Normalize(v.fields[k], s.properties.m[k]))
    {
      SentProperty(s, v, k);
      PropertyRoundTrip(s, k, v.fields[k]);
    }
  }

  /** The keys that are left after repair: all that are kept, and none but those and the filled ones. */
  lemma {:induction false} RepairedKeys(s: Schema, v: Json)
    requires Compiles(s) && IsObjectNode(s) && PropertiesSupported(s)
    requires StrictNode(s).Some? && Valid(StrictNode(s).value, v)
    ensures v.Obj? && Normalize(v, s).Obj? && v.fields.Keys == Declared(s)
    ensures Kept(s) <= Normalize(v, s).fields.Keys <= Kept(s) + Fillable(s)
    decreases s, 0
  {
    StrictObjectKeys(s, v);
    if s.properties.Props? {
      forall k | k in Declared(s)
        ensures StrictProperty(s, k, s.properties.m[k]).Some?
        ensures Valid(StrictProperty(s, k, s.properties.m[k]).value, v.fields[k])
        ensures DropsNull(s, k, v.fields[k]) <==> v.fields[k] == Null && k !in Kept(s)
        ensures v.fields[k] != Null ==> k in Fillable(s)
      {
        SentProperty(s, v, k);
        KeyAfterRepair(s, k, v.fields[k]);
        assert v.fields[k] != Null ==> Fills(s, k, v.fields[k]);
      }
    }
  }

  lemma SentProperty(s: Schema, v: Json, k: string)
    requires IsObjectNode(s) && Accepts(s, v) && v.Obj? && k in Declared(s) && k in v.fields
    ensures StrictProperty(s, k, s.properties.m[k]).Some?
    ensures Valid(StrictProperty(s, k, s.properties.m[k]).value, v.fields[k])
  {
    var t := StrictNode(s).value;
    Keywords(t, v);
    assert t.properties.m[k] == StrictProperty(s, k, s.properties.m[k]).value;
    assert FieldsAccepted(t, v.fields);
  }

  ghost predicate PropertiesSupported(s: Schema)
    requires s.Node?
    decreases s, 0
  {
    s.properties.Props? ==> forall k | k in s.properties.m :: Supported(s.properties.m[k]) && HonestNull(s, k)
  }

  /** Of the nulls a model sends, exactly those under names that are not kept are dropped. */
  lemma {:induction false} KeyAfterRepair(s: Schema, k: string, x: Json)
    requires s.Node? && s.properties.Props? && k in s.properties.m
    requires Compiles(s.properties.m[k]) && Supported(s.properties.m[k])
    requires StrictProperty(s, k, s.properties.m[k]).Some?
    requires Valid(StrictProperty(s, k, s.properties.m[k]).value, x)
    ensures DropsNull(s, k, x) <==> x == Null && k !in Kept(s)
    decreases s.properties.m[k], 5
  {
    var p := s.properties.m[k];
    StrictPropertyCases(s, k, p);
    if x == Null && SchemaAllowsNull(p) {
      NodeRoundTrip(p, x);
    }
  }

  /** Some `anyOf` member of the original accepts the repaired value. */
  lemma {:induction false} VariantsRoundTrip(s: Schema, v: Json)
    requires Compiles(s) && SupportedBelow(s) && StrictNode(s).Some? && Valid(StrictNode(s).value, v)
    requires s.anyOf.Members?
    ensures exists i | 0 <= i < |s.anyOf.list| :: Valid(s.anyOf.list[i], Normalize(v, s))
    decreases s, 1
  {
    if Rewrites(s) && IsObjectNode(s) {
      RepairedKeys(s, v);
      VariantsSeeKeys(s, Normalize(v, s));
      assert Accepts(s, v);
    } else {
      VariantsSeeShapes(s, v);
    }
  }

  lemma VariantsSeeShapes(s: Schema, v: Json)
    requires SupportedBelow(s) && StrictNode(s).Some? && Valid(StrictNode(s).value, v)
    requires s.anyOf.Members? && !(Rewrites(s) && IsObjectNode(s))
    ensures exists i | 0 <= i < |s.anyOf.list| :: Valid(s.anyOf.list[i], Normalize(v, s))
  {
    var t := StrictNode(s).value;
    Keywords(t, v);
    var i :| 0 <= i < |t.anyOf.list| && Valid(t.anyOf.list[i], v);
    StrictUnstructured(s.anyOf.list[i]);
    if Rewrites(s) {
      FlatSeesShapeOnly(s.anyOf.list[i], v, Normalize(v, s));
    }
  }

  /** Everything but `required`, and but the keywords outside this model, accepts the value. */
  predicate AcceptedButRequired(s: Schema, v: Json)
    requires s.Node?
  {
    && ValueAccepted(s, v) && CombinedAccept(s, v)
    && (v.Obj? ==> FieldsAccepted(s, v.fields))
    && (v.Arr? ==> ItemsAccepted(s, v.items))
  }

  /** It survives the two rewrites. */
  lemma {:induction false} AllButRequired(s: Schema, v: Json)
    requires Compiles(s) && SupportedBelow(s) && StrictNode(s).Some? && Valid(StrictNode(s).value, v)
    ensures AcceptedButRequired(s, Normalize(v, s))
    decreases s, 2
  {
    var w := Normalize(v, s);
    ValueSurvives(s, v);
    if s.anyOf.Members? {
      VariantsRoundTrip(s, v);
    }
    if w.Obj? {
      ObjectRoundTrip(s, v);
    }
    if w.Arr? && s.items.Each? {
      ItemsRoundTrip(s, v);
    }
  }

  lemma ValueSurvives(s: Schema, v: Json)
    requires SupportedBelow(s) && StrictNode(s).Some? && Valid(StrictNode(s).value, v)
    ensures ValueAccepted(s, Normalize(v, s))
  {
    Keywords(StrictNode(s).value, v);
    var t := StrictNode(s).value;
    assert ValueAccepted(t, v);
    if s.types != NoType {
      var ty :| ty in TypesOf(t) && MatchesType(v, ty);
      assert ty in TypesOf(s) && MatchesType(Normalize(v, s), ty);
    }
  }

  lemma {:induction false} ObjectRoundTrip(s: Schema, v: Json)
    requires Compiles(s) && SupportedBelow(s) && StrictNode(s).Some? && Valid(StrictNode(s).value, v)
    requires Normalize(v, s).Obj?
    ensures FieldsAccepted(s, Normalize(v, s).fields)
    decreases s, 1
  {
    Keywords(StrictNode(s).value, v);
    if IsObjectNode(s) {
      StrictObjectKeys(s, v);
      if s.properties.Props? {
        FieldsRoundTrip(s, v);
      }
    }
  }

  lemma {:induction false} ItemsRoundTrip(s: Schema, v: Json)
    requires Compiles(s) && SupportedBelow(s) && StrictNode(s).Some? && Valid(StrictNode(s).value, v)
    requires v.Arr? && s.items.Each?
    ensures Normalize(v, s).Arr? && |Normalize(v, s).items| == |v.items|
    ensures forall i | 0 <= i < |v.items| :: Valid(s.items.schema, Normalize(v, s).items[i])
    decreases s, 0
  {
    Keywords(StrictNode(s).value, v);
    forall i | 0 <= i < |v.items| ensures Valid(s.items.schema, Normalize(v, s).items[i]) {
      NodeRoundTrip(s.items.schema, v.items[i]);
    }
  }

  /** The repaired value meets `required` exactly when `required` names only declared properties. */
  lemma RequiredSurvivesIff(s: Schema, v: Json)
    requires Compiles(s) && SupportedBelow(s) && StrictNode(s).Some? && Valid(StrictNode(s).value, v)
    ensures (Normalize(v, s).Obj? && s.required.Some? ==> s.required.value <= Normalize(v, s).fields.Keys)
        <==> RequiredCovered(s)
  {
    Keywords(StrictNode(s).value, v);
    if IsObjectNode(s) {
      StrictObjectKeys(s, v);
    } else if v.Obj? && s.required.Some? {
      assert forall k | k in s.required.value :: k in v.fields;
    }
  }

  /** For every value the strict schema accepts: the repaired value is valid for the original schema
      if and only if the original requires only properties that it declares, and the keywords outside this model accept
      it. */
  lemma {:induction false} RoundTripIff(s: Schema, v: Json)
    requires Compiles(s) && SupportedBelow(s) && StrictNode(s).Some? && Valid(StrictNode(s).value, v)
    ensures Valid(s, Normalize(v, s)) <==> RequiredCovered(s) && s.asserts(Normalize(v, s))
    decreases s, 3
  {
    Keywords(s, Normalize(v, s));
    Keywords(StrictNode(s).value, v);
    AllButRequired(s, v);
    RequiredSurvivesIff(s, v);
  }

  lemma {:induction false} NodeRoundTrip(s: Schema, v: Json)
    requires Compiles(s) && Supported(s) && StrictNode(s).Some? && Valid(StrictNode(s).value, v)
    ensures Valid(s, Normalize(v, s))
    decreases s, 4
  {
    assert Accepts(s, v);
    RoundTripIff(s, v);
  }

  /** The whole trip of a tool call: the strict schema goes to the model, the model's arguments come back,
      and the tool receives them with only the optional nulls dropped; always if the schema is plain, and otherwise
      exactly if coercion is not disturbed. */
  lemma StrictCallRoundTrip(s: Schema, v: Json, rules: TextRules)
    requires Compiles(s) && Supported(s) && StrictRoot(s).Some? && Valid(StrictRoot(s).value, v)
    ensures Valid(s, Normalize(v, s))
    ensures Plain(s) || Undisturbed(Normalize(v, s), s, rules) ==>
              ValidateArguments(s, v, rules) == Some(Normalize(v, s))
    ensures Orderly(s) ==>
              (ValidateArguments(s, v, rules) == Some(Normalize(v, s)) <==> Undisturbed(Normalize(v, s), s, rules))
  {
    NodeRoundTrip(s, v);
    RepairedCall(s, Normalize(v, s), rules);
  }

  /** What coercion does with a valid value. */
  lemma RepairedCall(s: Schema, w: Json, rules: TextRules)
    requires Compiles(s) && Valid(s, w)
    ensures Plain(s) || Undisturbed(w, s, rules) ==> Coerce(w, s, rules) == w
    ensures Orderly(s) ==> (Coerce(w, s, rules) == w <==> Undisturbed(w, s, rules))
  {
    if Plain(s) {
      PlainUndisturbed(w, s, rules);
    }
    if Undisturbed(w, s, rules) {
      CoerceKeepsValid(w, s, rules);
    } else if Orderly(s) {
      CoerceKeepsValidIff(w, s, rules);
    }
  }

  /** The condition on a property: what is sent for an optional one that does not allow null is dropped or valid, if
      and only if its own validator is honest about null. */
  lemma NullSurvivesIff(s: Schema, k: string)
    requires s.Node? && k in Declared(s) && !IsRequired(s, k) && !SchemaAllowsNull(s.properties.m[k])
    requires Compiles(s.properties.m[k]) && Supported(s.properties.m[k])
    requires StrictProperty(s, k, s.properties.m[k]).Some?
    ensures (forall x | Valid(StrictProperty(s, k, s.properties.m[k]).value, x) ::
               DropsNull(s, k, x) || Valid(s.properties.m[k], Normalize(x, s.properties.m[k])))
        <==> HonestNull(s, k)
  {
    var p := s.properties.m[k];
    StrictPropertyCases(s, k, p);
    if HonestNull(s, k) {
      forall x | Valid(StrictProperty(s, k, p).value, x) ensures DropsNull(s, k, x) || Valid(p, Normalize(x, p)) {
        PropertyRoundTrip(s, k, x);
      }
    } else {
      NullableTakes(StrictNode(p).value, Null);
      assert Valid(StrictProperty(s, k, p).value, Null) && !DropsNull(s, k, Null);
      assert Normalize(Null, p) == Null;
    }
  }

  // ----- exactly when what looks at keys survives -----

  /** Keywords outside this model see of an object only its keys. */
  ghost predicate SeesKeys(s: Schema)
    requires s.Node?
  {
    forall a: map<string, Json>, b: map<string, Json> | a.Keys == b.Keys :: s.asserts(Obj(a)) == s.asserts(Obj(b))
  }

  function WithKeys(keys: set<string>): Json {
    Obj(map k | k in keys :: Null)
  }

  /** Some variant, and the keywords outside this model, accept an object with these keys. */
  predicate TakesKeys(s: Schema, keys: set<string>)
    requires s.Node?
  {
    (s.anyOf.Members? ==> SomeFits(s, keys)) && s.asserts(WithKeys(keys))
  }

  /** Whichever of the optional properties repair drops, what is left is accepted. */
  ghost predicate KeysCovered(s: Schema)
    requires s.Node?
  {
    (exists v :: Accepts(s, v)) ==>
      forall keys: set<string> | Kept(s) <= keys <= Kept(s) + Fillable(s) :: TakesKeys(s, keys)
  }

  /** An accepted object in which the names of `keys` are filled and the rest is null where it can be. */
  ghost function Filling(s: Schema, v: Json, keys: set<string>): map<string, Json>
    requires s.Node? && v.Obj? && v.fields.Keys == Declared(s) && keys <= Kept(s) + Fillable(s)
  {
    map k | k in Declared(s) ::
      if k in Kept(s) then v.fields[k] else if k in keys then FilledWith(s, k) else Null
  }

  ghost function FilledWith(s: Schema, k: string): (x: Json)
    requires s.Node? && k in Fillable(s)
    ensures Fills(s, k, x)
  {
    var x :| Fills(s, k, x);
    x
  }

  /** A node in the fragment, but for its variants and the keywords outside this model, which look at keys. */
  ghost predicate SupportedButKeys(s: Schema) {
    && IsObjectNode(s) && s.properties.Props? && (s.anyOf.Members? ==> FlatVariants(s)) && SeesKeys(s)
    && ScalarKeywords(s) && RequiredCovered(s) && PropertiesSupported(s)
    && (s.items.Each? ==> Supported(s.items.schema))
  }

  lemma StrictTakesNull(p: Schema)
    requires StrictNode(p).Some? && Valid(p, Null)
    ensures Valid(StrictNode(p).value, Null)
  {
    Keywords(p, Null);
    Keywords(StrictNode(p).value, Null);
    var t := StrictNode(p).value;
    assert TypesOf(t) == TypesOf(p);
    if p.anyOf.Members? {
      var i :| 0 <= i < |p.anyOf.list| && Valid(p.anyOf.list[i], Null);
      StrictUnstructured(p.anyOf.list[i]);
      assert Valid(t.anyOf.list[i], Null);
    }
  }

  /** The names that can be dropped can be sent as null. */
  lemma DroppableTakesNull(s: Schema, k: string)
    requires s.Node? && k in Declared(s) && k !in Kept(s) && StrictProperty(s, k, s.properties.m[k]).Some?
    ensures Valid(StrictProperty(s, k, s.properties.m[k]).value, Null)
  {
    var p := s.properties.m[k];
    StrictPropertyCases(s, k, p);
    if SchemaAllowsNull(p) {
      StrictTakesNull(p);
    } else {
      NullableTakes(StrictNode(p).value, Null);
    }
  }

  lemma FillingField(s: Schema, v: Json, keys: set<string>, k: string)
    requires IsObjectNode(s) && Accepts(s, v)
    requires v.Obj? && v.fields.Keys == Declared(s) && keys <= Kept(s) + Fillable(s) && k in Declared(s)
    ensures StrictProperty(s, k, s.properties.m[k]).Some?
    ensures Valid(StrictProperty(s, k, s.properties.m[k]).value, Filling(s, v, keys)[k])
  {
    SentProperty(s, v, k);
    if k !in Kept(s) && k !in keys {
      DroppableTakesNull(s, k);
    }
  }

  /** A closed object node sees of an object its keys, its fields, and what its variants see. */
  lemma ObjectIsSent(t: Schema, v: Json, sent: Json)
    requires IsObjectNode(t) && ScalarKeywords(t) && t.allOf.NoMembers? && t.oneOf.NoMembers?
    requires t.reference.NoReference? && |t.patterns| == 0 && t.asserts(sent)
    requires Forbids(t.additional) && t.required == Some(Declared(t))
    requires Valid(t, v) && v.Obj? && sent.Obj? && v.fields.Keys == sent.fields.Keys == Declared(t)
    requires forall k | k in Declared(t) :: Valid(t.properties.m[k], sent.fields[k])
    requires t.anyOf.Members? ==> exists i | 0 <= i < |t.anyOf.list| :: Valid(t.anyOf.list[i], sent)
    ensures Valid(t, sent)
  {
    Keywords(t, v);
    Keywords(t, sent);
    assert ObjectType in TypesOf(t) && MatchesType(sent, ObjectType);
  }

  lemma VariantsTakeKeys(s: Schema, v: Json, sent: Json)
    requires StrictNode(s).Some? && s.anyOf.Members? && FlatVariants(s) && v.Obj? && sent.Obj?
    requires v.fields.Keys == sent.fields.Keys && Valid(StrictNode(s).value, v)
    ensures StrictNode(s).value.anyOf == s.anyOf
    ensures exists i | 0 <= i < |s.anyOf.list| :: Valid(s.anyOf.list[i], sent)
  {
    Keywords(StrictNode(s).value, v);
    VariantsSeeKeys(s, v);
    VariantsSeeKeys(s, sent);
  }

  lemma FillingIsSent(s: Schema, v: Json, keys: set<string>)
    requires Compiles(s) && SupportedButKeys(s) && Accepts(s, v)
    requires v.Obj? && v.fields.Keys == Declared(s) && keys <= Kept(s) + Fillable(s)
    ensures Accepts(s, Obj(Filling(s, v, keys)))
  {
    Keywords(StrictNode(s).value, v);
    var t, sent := StrictNode(s).value, Obj(Filling(s, v, keys));
    assert Declared(t) == Declared(s);
    forall k | k in Declared(t) ensures Valid(t.properties.m[k], sent.fields[k]) {
      FillingField(s, v, keys, k);
    }
    if s.anyOf.Members? {
      VariantsTakeKeys(s, v, sent);
    }
    assert s.asserts(Obj(v.fields)) == s.asserts(sent) && t.asserts == s.asserts && v == Obj(v.fields);
    ObjectIsSent(t, v, sent);
  }

  lemma FillingIsRepaired(s: Schema, v: Json, keys: set<string>)
    requires Compiles(s) && SupportedButKeys(s) && Accepts(s, v)
    requires v.Obj? && v.fields.Keys == Declared(s) && Kept(s) <= keys <= Kept(s) + Fillable(s)
    ensures Normalize(Obj(Filling(s, v, keys)), s).Obj?
    ensures Normalize(Obj(Filling(s, v, keys)), s).fields.Keys == keys
  {
    var sent := Obj(Filling(s, v, keys));
    forall k | k in Declared(s) ensures DropsNull(s, k, sent.fields[k]) <==> k !in keys {
      FillingField(s, v, keys, k);
      KeyAfterRepair(s, k, sent.fields[k]);
    }
  }

  /** A call that leaves keys which are not accepted. */
  lemma UncoveredFails(s: Schema, v: Json, keys: set<string>)
    requires Compiles(s) && SupportedButKeys(s) && Accepts(s, v)
    requires v.Obj? && v.fields.Keys == Declared(s)
    requires Kept(s) <= keys <= Kept(s) + Fillable(s) && !TakesKeys(s, keys)
    ensures var sent := Obj(Filling(s, v, keys)); Accepts(s, sent) && !Valid(s, Normalize(sent, s))
  {
    FillingIsSent(s, v, keys);
    FillingIsRepaired(s, v, keys);
    var left := Normalize(Obj(Filling(s, v, keys)), s);
    Keywords(s, left);
    if s.anyOf.Members? {
      VariantsSeeKeys(s, left);
    }
    assert s.asserts(Obj(left.fields)) == s.asserts(WithKeys(keys));
  }

  /** Every accepted call survives repair if and only if, whichever optional properties repair drops, what is left has
      keys that the variants and the keywords outside this model accept. */
  lemma KeysIff(s: Schema)
    requires Compiles(s) && SupportedButKeys(s)
    ensures (forall v | Accepts(s, v) :: Valid(s, Normalize(v, s))) <==> KeysCovered(s)
  {
    if KeysCovered(s) {
      forall v | Accepts(s, v) ensures Valid(s, Normalize(v, s)) {
        KeysSurvive(s, v);
      }
    } else {
      var v :| Accepts(s, v);
      var keys: set<string> :| Kept(s) <= keys <= Kept(s) + Fillable(s) && !TakesKeys(s, keys);
      StrictObjectKeys(s, v);
      UncoveredFails(s, v, keys);
    }
  }

  lemma KeysSurvive(s: Schema, v: Json)
    requires Compiles(s) && SupportedButKeys(s) && KeysCovered(s) && Accepts(s, v)
    ensures Valid(s, Normalize(v, s))
  {
    var w := Normalize(v, s);
    RepairedKeys(s, v);
    assert TakesKeys(s, w.fields.Keys);
    assert s.asserts(Obj(w.fields)) == s.asserts(WithKeys(w.fields.Keys));
    assert s.anyOf.Members? ==> VariantsCovered(s) by {
      assert forall keys | TakesKeys(s, keys) :: s.anyOf.Members? ==> SomeFits(s, keys);
    }
    RoundTripIff(s, v);
  }

  /** For variants alone. */
  lemma VariantsIff(s: Schema)
    requires Compiles(s) && SupportedButKeys(s) && s.anyOf.Members? && IgnoresContainers(s)
    ensures (forall v | Accepts(s, v) :: Valid(s, Normalize(v, s))) <==> VariantsCovered(s)
  {
    KeysIff(s);
    forall keys: set<string> ensures TakesKeys(s, keys) <==> SomeFits(s, keys) {
      assert !WithKeys(keys).IsScalar();
    }
  }

  /** `minProperties`, and nothing else outside this model. */
  ghost predicate CountsProperties(s: Schema, n: nat)
    requires s.Node?
  {
    forall keys: set<string> :: s.asserts(WithKeys(keys)) <==> n <= |keys|
  }

  /** For `minProperties`: a call may leave as little as the kept names. */
  lemma MinPropertiesIff(s: Schema, n: nat)
    requires Compiles(s) && SupportedButKeys(s) && s.anyOf.NoMembers? && CountsProperties(s, n)
    requires exists v :: Accepts(s, v)
    ensures (forall v | Accepts(s, v) :: Valid(s, Normalize(v, s))) <==> n <= |Kept(s)|
  {
    KeysIff(s);
    if n <= |Kept(s)| {
      forall keys: set<string> | Kept(s) <= keys <= Kept(s) + Fillable(s) ensures TakesKeys(s, keys) {
        SubsetSize(Kept(s), keys);
      }
    } else {
      assert !TakesKeys(s, Kept(s));
    }
  }

  /** A variant that does not forbid additional properties. */
  predicate OpenVariant(s: Schema)
    decreases s
  {
    s.Node? ==>
      && !Forbids(s.additional)
      && (s.anyOf.Members? ==> forall i | 0 <= i < |s.anyOf.list| :: OpenVariant(s.anyOf.list[i]))
  }

  lemma {:induction false} OpenFitsMore(s: Schema, keys: set<string>, more: set<string>)
    requires OpenVariant(s) && FitsKeys(s, keys) && keys <= more
    ensures FitsKeys(s, more)
    decreases s
  {
    if s.anyOf.Members? {
      var i :| 0 <= i < |s.anyOf.list| && FitsKeys(s.anyOf.list[i], keys);
      OpenFitsMore(s.anyOf.list[i], keys, more);
    }
  }

  /** For such variants the least that repair can leave decides: the condition is that one of them accepts an object
      with just the kept names. A variant that only says `required` does so when it names only kept ones. */
  lemma OpenVariantsIff(s: Schema)
    requires Compiles(s) && SupportedButKeys(s) && s.anyOf.Members? && IgnoresContainers(s)
    requires forall i | 0 <= i < |s.anyOf.list| :: OpenVariant(s.anyOf.list[i])
    requires exists v :: Accepts(s, v)
    ensures (forall v | Accepts(s, v) :: Valid(s, Normalize(v, s))) <==> SomeFits(s, Kept(s))
  {
    VariantsIff(s);
    if SomeFits(s, Kept(s)) {
      var i :| 0 <= i < |s.anyOf.list| && FitsKeys(s.anyOf.list[i], Kept(s));
      forall keys: set<string> | Kept(s) <= keys <= Kept(s) + Fillable(s) ensures SomeFits(s, keys) {
        OpenFitsMore(s.anyOf.list[i], Kept(s), keys);
      }
    }
  }

  // ----- a family that fails -----

  function Requiring(k: string): Schema {
    EMPTY.(required := Some({k}))
  }

  function OptionalButRequiredByVariant(k: string, p: Schema): Schema {
    EMPTY.(types := OneType(ObjectType), properties := Props(map[k := p]), anyOf := Members([Requiring(k)]))
  }

  /** A variant that requires an optional property accepts the null sent for it; the repair drops that
      null, and the original schema no longer accepts the call. */
  lemma VariantGap(k: string, p: Schema)
    requires Compiles(p) && !Valid(p, Null)
    requires StrictNode(p).Some? && !IsStructured(p) && !SchemaAllowsNull(p)
    ensures var s := OptionalButRequiredByVariant(k, p);
            var sent := Obj(map[k := Null]);
            && Compiles(s) && RequiredCovered(s)
            && StrictRoot(s).Some? && Valid(StrictRoot(s).value, sent)
            && !Valid(s, Normalize(sent, s))
  {
    GapIsSent(k, p);
    GapIsRefused(k, p);
  }

  lemma GapIsSent(k: string, p: Schema)
    requires StrictNode(p).Some? && !IsStructured(p) && !SchemaAllowsNull(p)
    ensures var t := StrictRoot(OptionalButRequiredByVariant(k, p));
            t.Some? && Valid(t.value, Obj(map[k := Null]))
  {
    var s := OptionalButRequiredByVariant(k, p);
    assert s.anyOf.list[0] == Requiring(k);
    assert StrictNode(Requiring(k)).Some?;
    assert StrictProperty(s, k, p) == Some(Nullable(StrictNode(p).value));
    var t := StrictNode(s).value;
    StrictUnstructured(Requiring(k));
    assert t.anyOf.list == [Requiring(k)] && s.properties.m.Keys == {k};
    assert t.properties == Props(map[k := Nullable(StrictNode(p).value)]);
    NullableTakes(StrictNode(p).value, Null);
    GapSentIsValid(t, k, StrictNode(p).value);
  }

  lemma GapSentIsValid(t: Schema, k: string, q: Schema)
    requires Valid(Nullable(q), Null)
    requires t == EMPTY.(types := OneType(ObjectType), properties := Props(map[k := Nullable(q)]),
                         required := Some({k}), additional := Some(BoolSchema(false)), anyOf := Members([Requiring(k)]))
    ensures Valid(t, Obj(map[k := Null]))
  {
    Keywords(t, Obj(map[k := Null]));
    Keywords(Requiring(k), Obj(map[k := Null]));
    var sent := Obj(map[k := Null]);
    assert TypesOf(t) == [ObjectType] && ObjectType in TypesOf(t) && MatchesType(sent, ObjectType);
    assert t.anyOf.list[0] == Requiring(k) && Valid(Requiring(k), sent);
  }

  lemma GapIsRefused(k: string, p: Schema)
    requires Compiles(p) && !Valid(p, Null) && StrictNode(p).Some?
    ensures var s := OptionalButRequiredByVariant(k, p);
            Compiles(s) && !Valid(s, Normalize(Obj(map[k := Null]), s))
  {
    var s, sent := OptionalButRequiredByVariant(k, p), Obj(map[k := Null]);
    assert s.properties.m[k] == p && Normalize(Null, p) == Null;
    if AcceptsNull(p) {
      assert Normalize(sent, s).fields == sent.fields;
      Keywords(s, sent);
      assert sent.fields[k] == Null;
    } else {
      assert DropsNull(s, k, Null) && Normalize(sent, s).fields == map[];
      GapLeavesNothing(k, s);
    }
  }

  lemma GapLeavesNothing(k: string, s: Schema)
    requires s.Node? && s.anyOf == Members([Requiring(k)]) && s.reference.NoReference?
    ensures !Valid(s, Obj(map[]))
  {
    Keywords(s, Obj(map[]));
    Keywords(Requiring(k), Obj(map[]));
    assert s.anyOf.list[0] == Requiring(k);
  }

  lemma NullableTakes(q: Schema, v: Json)
    ensures Valid(Nullable(q), v) <==> Valid(q, v) || v.Null?
  {
    var list := Nullable(q).anyOf.list;
    Keywords(Nullable(q), v);
    Keywords(NULL_SCHEMA, v);
    assert list[0] == q && list[1] == NULL_SCHEMA && Nullable(q).asserts(v) && NULL_SCHEMA.asserts(v);
    assert TypesOf(NULL_SCHEMA) == [NullType] && NullType in TypesOf(NULL_SCHEMA);
  }
}
