/** The JSON Schema to strict-subset transform of `strict_schema.rs`.
    `None` stands for the source's `Err(())`. */
module StrictSchema {
  import opened JsonValues
  import opened JsonSchema

  const NULL_SCHEMA := EMPTY.(types := OneType(NullType))

  /** The wrapper put around an optional property that rejects null. */
  function Nullable(p: Schema): Schema {
    EMPTY.(anyOf := Members([p, NULL_SCHEMA]))
  }

  predicate SchemaAllowsNull(s: Schema)
    decreases s
  {
    s.Node? &&
    (|| NullType in TypesOf(s)
     || s.constant == Some(Null)
     || (s.enumeration.Some? && Null in s.enumeration.value)
     || (s.anyOf.Members? && exists i | 0 <= i < |s.anyOf.list| :: SchemaAllowsNull(s.anyOf.list[i])))
  }

  predicate IsStructured(s: Schema) {
    s.Node? &&
    (ObjectType in TypesOf(s) || ArrayType in TypesOf(s) || !s.properties.NoProperties? || !s.items.NoItems?)
  }

  predicate IsObjectNode(s: Schema) {
    s.Node? && s.types == OneType(ObjectType)
  }

  /** The constructs that make the transform give up at this node, before it looks at any child. */
  predicate RejectedHere(s: Schema) {
    || !s.Node?
    || !s.reference.NoReference? || |s.patterns| > 0 || s.unsupported || !s.allOf.NoMembers? || !s.oneOf.NoMembers?
    || s.anyOf.BadMembers? || (s.anyOf.Members? && |s.anyOf.list| == 0)
    || s.items.Tuple?
    || (!s.properties.NoProperties? && !IsObjectNode(s))
    || (IsObjectNode(s) && s.additional.Some? && !Forbids(s.additional))
    || s.properties.BadProperties?
  }

  /** What `make_strict_node` turns a schema into. */
  function StrictNode(s: Schema): Option<Schema>
    decreases s, 0
  {
    if RejectedHere(s) then None
    else if s.anyOf.Members? && exists i | 0 <= i < |s.anyOf.list| ::
              IsStructured(s.anyOf.list[i]) || StrictNode(s.anyOf.list[i]).None? then None
    else if s.items.Each? && StrictNode(s.items.schema).None? then None
    else if s.properties.Props? && exists k | k in s.properties.m ::
              StrictProperty(s, k, s.properties.m[k]).None? then None
    else
      var anyOf := if s.anyOf.Members?
                   then Members(seq(|s.anyOf.list|, i requires 0 <= i < |s.anyOf.list| =>
                                  StrictNode(s.anyOf.list[i]).value))
                   else s.anyOf;
      var items := if s.items.Each? then Each(StrictNode(s.items.schema).value) else s.items;
      if !IsObjectNode(s) then Some(s.(anyOf := anyOf, items := items))
      else
        var properties := if s.properties.Props?
                          then Props(map k | k in s.properties.m ::
                                       StrictProperty(s, k, s.properties.m[k]).value)
                          else NoProperties;
        var keys := if s.properties.Props? then s.properties.m.Keys else {};
        Some(s.(anyOf := anyOf, items := items, properties := properties,
                required := Some(keys), additional := Some(BoolSchema(false))))
  }

  predicate IsRequired(s: Schema, k: string) {
    s.Node? && s.required.Some? && k in s.required.value
  }

  /** The transform at property `k`, wrapped first when it is optional and rejects null. */
  function StrictProperty(s: Schema, k: string, p: Schema): Option<Schema>
    decreases p, 2
  {
    if IsRequired(s, k) || SchemaAllowsNull(p) then StrictNode(p) else StrictNullable(p)
  }

  /** The transform on a freshly wrapped property; see `StrictNullableIsStrictNode`. */
  function StrictNullable(p: Schema): Option<Schema>
    decreases p, 1
  {
    if IsStructured(p) then None else
    match StrictNode(p)
    case None => None
    case Some(q) => Some(Nullable(q))
  }

  lemma StrictNullableIsStrictNode(p: Schema)
    ensures StrictNullable(p) == StrictNode(Nullable(p))
  {
    var w := Nullable(p);
    assert w.anyOf.list[0] == p && w.anyOf.list[1] == NULL_SCHEMA;
    assert StrictNode(NULL_SCHEMA) == Some(NULL_SCHEMA);
    if !IsStructured(p) && StrictNode(p).Some? {
      assert StrictNode(w).value.anyOf.list == [StrictNode(p).value, NULL_SCHEMA];
    }
  }

  lemma StrictPropertyCases(s: Schema, k: string, p: Schema)
    requires StrictProperty(s, k, p).Some?
    ensures StrictNode(p).Some?
    ensures if IsRequired(s, k) || SchemaAllowsNull(p) then StrictProperty(s, k, p) == StrictNode(p)
            else !IsStructured(p) && StrictProperty(s, k, p) == Some(Nullable(StrictNode(p).value))
  {
    assert StrictNullable(p).Some? ==> StrictNode(p).Some?;
  }

  /** The whole transform: the root must say `"type": "object"`. */
  function StrictRoot(s: Schema): Option<Schema> {
    match StrictNode(s)
    case None => None
    case Some(t) => if IsObjectNode(t) then Some(t) else None
  }

  // ----- the loops of the source -----

  method MakeStrictJsonSchema(schema: Schema) returns (r: Option<Schema>)
    ensures r == StrictRoot(schema)
  {
    var node := MakeStrictNode(schema);
    if node.None? || !IsObjectNode(node.value) {
      return None;
    }
    return node;
  }

  method MakeStrictNode(schema: Schema) returns (r: Option<Schema>)
    ensures r == StrictNode(schema)
    decreases schema, 1
  {
    if RejectedHere(schema) {
      return None;
    }
    var node := schema;
    if node.anyOf.Members? {
      var list := MakeStrictVariants(schema);
      if list.None? {
        return None;
      }
      node := node.(anyOf := Members(list.value));
      assert list.value == seq(|schema.anyOf.list|, i requires 0 <= i < |schema.anyOf.list| =>
                                 StrictNode(schema.anyOf.list[i]).value);
    }
    if node.items.Each? {
      var items := MakeStrictNode(schema.items.schema);
      if items.None? {
        return None;
      }
      node := node.(items := Each(items.value));
    }
    if !IsObjectNode(schema) {
      return Some(node);
    }
    if node.properties.NoProperties? {
      node := node.(required := Some({}), additional := Some(BoolSchema(false)));
      return Some(node);
    }
    var m := MakeStrictProperties(schema);
    if m.None? {
      return None;
    }
    assert m.value == map k | k in schema.properties.m :: StrictProperty(schema, k, schema.properties.m[k]).value;
    node := node.(properties := Props(m.value), required := Some(m.value.Keys), additional := Some(BoolSchema(false)));
    return Some(node);
  }

  method MakeStrictVariants(schema: Schema) returns (r: Option<seq<Schema>>)
    requires schema.Node? && schema.anyOf.Members?
    ensures r.None? <==> exists i | 0 <= i < |schema.anyOf.list| ::
              IsStructured(schema.anyOf.list[i]) || StrictNode(schema.anyOf.list[i]).None?
    ensures r.Some? ==>
              && |r.value| == |schema.anyOf.list|
              && forall i | 0 <= i < |r.value| :: StrictNode(schema.anyOf.list[i]) == Some(r.value[i])
    decreases schema, 0
  {
    var list := schema.anyOf.list;
    var i := 0;
    while i < |list|
      invariant 0 <= i <= |list| == |schema.anyOf.list|
      invariant forall j | i <= j < |list| :: list[j] == schema.anyOf.list[j]
      invariant forall j | 0 <= j < i ::
                  !IsStructured(schema.anyOf.list[j]) && StrictNode(schema.anyOf.list[j]) == Some(list[j])
    {
      if IsStructured(list[i]) {
        return None;
      }
      var variant := MakeStrictNode(schema.anyOf.list[i]);
      if variant.None? {
        return None;
      }
      list := list[i := variant.value];
      i := i + 1;
    }
    return Some(list);
  }

  method MakeStrictProperties(schema: Schema) returns (r: Option<map<string, Schema>>)
    requires schema.Node? && schema.properties.Props?
    ensures r.None? <==> exists k | k in schema.properties.m ::
              StrictProperty(schema, k, schema.properties.m[k]).None?
    ensures r.Some? ==>
              && r.value.Keys == schema.properties.m.Keys
              && forall k | k in r.value :: StrictProperty(schema, k, schema.properties.m[k]) == Some(r.value[k])
    decreases schema, 0
  {
    var props := schema.properties.m;
    var m := props;
    var todo := m.Keys;
    while todo != {}
      invariant todo <= m.Keys == props.Keys
      invariant forall k | k in todo :: m[k] == props[k]
      invariant forall k | k in props.Keys - todo :: StrictProperty(schema, k, props[k]) == Some(m[k])
      decreases todo
    {
      var name :| name in todo;
      var property;
      if !IsRequired(schema, name) && !SchemaAllowsNull(m[name]) {
        property := MakeStrictNullable(props[name]);
      } else {
        property := MakeStrictNode(props[name]);
      }
      if property.None? {
        return None;
      }
      m := m[name := property.value];
      todo := todo - {name};
    }
    return Some(m);
  }

  method MakeStrictNullable(p: Schema) returns (r: Option<Schema>)
    ensures r == StrictNullable(p)
    decreases p, 2
  {
    if IsStructured(p) {
      return None;
    }
    var q := MakeStrictNode(p);
    return if q.None? then None else Some(Nullable(q.value));
  }

  // ----- what the transform guarantees -----

  /** Every `"type": "object"` node the transform visits lists all its properties as required and closes the rest. */
  predicate Closed(s: Schema)
    decreases s
  {
    && s.Node?
    && (IsObjectNode(s) ==>
          && Forbids(s.additional)
          && s.required == Some(if s.properties.Props? then s.properties.m.Keys else {}))
    && (s.anyOf.Members? ==> forall i | 0 <= i < |s.anyOf.list| :: Closed(s.anyOf.list[i]))
    && (s.items.Each? ==> Closed(s.items.schema))
    && (s.properties.Props? ==> forall k | k in s.properties.m :: Closed(s.properties.m[k]))
  }

  lemma {:induction false} StrictCloses(s: Schema)
    requires StrictNode(s).Some?
    ensures Closed(StrictNode(s).value)
    decreases s
  {
    var t := StrictNode(s).value;
    if s.anyOf.Members? {
      forall i | 0 <= i < |s.anyOf.list| ensures Closed(t.anyOf.list[i]) {
        StrictCloses(s.anyOf.list[i]);
      }
    }
    if s.items.Each? {
      StrictCloses(s.items.schema);
    }
    if s.properties.Props? {
      forall k | k in s.properties.m ensures Closed(t.properties.m[k]) {
        var p := s.properties.m[k];
        assert t.properties.m[k] == StrictProperty(s, k, p).value;
        StrictPropertyCases(s, k, p);
        StrictCloses(p);
        if !(IsRequired(s, k) || SchemaAllowsNull(p)) {
          NullableCloses(StrictNode(p).value);
        }
      }
      assert t.properties.m.Keys == s.properties.m.Keys;
    }
  }

  lemma NullableCloses(q: Schema)
    requires Closed(q)
    ensures Closed(Nullable(q))
  {
    var w := Nullable(q);
    assert Closed(NULL_SCHEMA);
    assert forall i | 0 <= i < |w.anyOf.list| :: Closed(w.anyOf.list[i]);
  }

  /** A second pass changes nothing. */
  lemma {:induction false} StrictIdempotent(s: Schema)
    requires StrictNode(s).Some?
    ensures StrictNode(StrictNode(s).value) == StrictNode(s)
    decreases s
  {
    var t := StrictNode(s).value;
    if s.anyOf.Members? {
      forall i | 0 <= i < |s.anyOf.list|
        ensures StrictNode(t.anyOf.list[i]) == Some(t.anyOf.list[i]) && !IsStructured(t.anyOf.list[i])
      {
        StrictIdempotent(s.anyOf.list[i]);
        StrictUnstructured(s.anyOf.list[i]);
      }
      assert StrictNode(t).Some? ==> StrictNode(t).value.anyOf.list == t.anyOf.list;
    }
    if s.items.Each? {
      StrictIdempotent(s.items.schema);
    }
    if s.properties.Props? {
      forall k | k in s.properties.m
        ensures StrictProperty(t, k, t.properties.m[k]) == Some(t.properties.m[k])
      {
        StrictPropertyIdempotent(s, k);
      }
      assert t.properties.m.Keys == s.properties.m.Keys;
      assert StrictNode(t).Some? ==> StrictNode(t).value.properties.m == t.properties.m;
    }
  }

  lemma {:induction false} StrictPropertyIdempotent(s: Schema, k: string)
    requires StrictNode(s).Some? && s.properties.Props? && k in s.properties.m
    ensures StrictNode(StrictNode(s).value.properties.m[k]) == Some(StrictNode(s).value.properties.m[k])
    decreases s, 0
  {
    var p := s.properties.m[k];
    assert StrictNode(s).value.properties.m[k] == StrictProperty(s, k, p).value;
    StrictPropertyCases(s, k, p);
    StrictIdempotent(p);
    if !(IsRequired(s, k) || SchemaAllowsNull(p)) {
      StrictUnstructured(p);
      StrictNullableIsStrictNode(p);
    }
  }

  /** A node without object or array structure is left as it is. */
  lemma {:induction false} StrictUnstructured(s: Schema)
    requires !IsStructured(s) && StrictNode(s).Some?
    ensures StrictNode(s).value == s
    decreases s
  {
    if s.anyOf.Members? {
      forall i | 0 <= i < |s.anyOf.list| ensures StrictNode(s).value.anyOf.list[i] == s.anyOf.list[i] {
        StrictUnstructured(s.anyOf.list[i]);
      }
      assert StrictNode(s).value.anyOf.list == s.anyOf.list;
    }
  }
}
