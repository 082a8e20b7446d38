/** Which schemas the strict transform accepts, and what it may change: by the nodes it visits, one by one. */
module StrictSubset {
  import opened JsonValues
  import opened JsonSchema
  import opened StrictSchema

  /** A step from a node to one the transform visits. */
  datatype Step = Variant(i: nat) | Item | Property(k: string)

  function Child(s: Schema, step: Step): Option<Schema> {
    if !s.Node? then None
    else
      match step
      case Variant(i) => if s.anyOf.Members? && i < |s.anyOf.list| then Some(s.anyOf.list[i]) else None
      case Item => if s.items.Each? then Some(s.items.schema) else None
      case Property(k) => if s.properties.Props? && k in s.properties.m then Some(s.properties.m[k]) else None
  }

  function Visited(s: Schema, path: seq<Step>): Option<Schema>
    decreases path
  {
    if path == [] then Some(s)
    else
      match Child(s, path[0])
      case None => None
      case Some(c) => Visited(c, path[1..])
  }

  /** A node that strict mode can express. */
  ghost predicate Expressible(s: Schema) {
    && s.Node?
    && s.reference.NoReference? && s.patterns == [] && !s.unsupported && s.allOf.NoMembers? && s.oneOf.NoMembers?
    && (s.anyOf.NoMembers? || (s.anyOf.Members? && s.anyOf.list != [] && forall p | p in s.anyOf.list :: Flat(p)))
    && (s.items.NoItems? || s.items.Each?)
    && if s.types == OneType(ObjectType) then
         && (s.additional.None? || s.additional == Some(BoolSchema(false)))
         && (s.properties.NoProperties? || (s.properties.Props? && OptionalsFit(s)))
       else s.properties.NoProperties?
  }

  /** An optional property takes null already, or is flat, so that it can stand in a union with null. */
  ghost predicate OptionalsFit(s: Schema)
    requires s.Node? && s.properties.Props?
  {
    forall k | k in s.properties.m && !(s.required.Some? && k in s.required.value) ::
      SchemaAllowsNull(s.properties.m[k]) || Flat(s.properties.m[k])
  }

  /** Neither an object nor an array schema. */
  ghost predicate Flat(p: Schema) {
    p.Node? ==>
      && p.properties.NoProperties? && p.items.NoItems?
      && forall t | t in TypesOf(p) :: t != ObjectType && t != ArrayType
  }

  lemma FlatIff(p: Schema)
    ensures IsStructured(p) <==> !Flat(p)
  {
  }

  lemma ExpressibleHere(s: Schema)
    requires StrictNode(s).Some?
    ensures Expressible(s)
  {
    if s.anyOf.Members? {
      forall p | p in s.anyOf.list ensures Flat(p) {
        FlatIff(p);
      }
    }
    if s.properties.Props? {
      forall k | k in s.properties.m && !IsRequired(s, k)
        ensures SchemaAllowsNull(s.properties.m[k]) || Flat(s.properties.m[k])
      {
        StrictPropertyCases(s, k, s.properties.m[k]);
        FlatIff(s.properties.m[k]);
      }
    }
  }

  /** The children of an accepted node are accepted themselves. */
  lemma ChildAccepted(s: Schema, step: Step)
    requires StrictNode(s).Some? && Child(s, step).Some?
    ensures StrictNode(Child(s, step).value).Some?
  {
    if step.Property? {
      StrictPropertyCases(s, step.k, s.properties.m[step.k]);
    }
  }

  /** And a node with such children is accepted, if it can be expressed. */
  lemma NodeAccepted(s: Schema)
    requires Expressible(s) && forall step :: Child(s, step).Some? ==> StrictNode(Child(s, step).value).Some?
    ensures StrictNode(s).Some?
  {
    assert !RejectedHere(s);
    if s.anyOf.Members? {
      forall i | 0 <= i < |s.anyOf.list| ensures !IsStructured(s.anyOf.list[i]) && StrictNode(s.anyOf.list[i]).Some? {
        FlatIff(s.anyOf.list[i]);
        assert Child(s, Variant(i)) == Some(s.anyOf.list[i]);
      }
    }
    if s.items.Each? {
      assert Child(s, Item) == Some(s.items.schema);
    }
    if s.properties.Props? {
      forall k | k in s.properties.m ensures StrictProperty(s, k, s.properties.m[k]).Some? {
        FlatIff(s.properties.m[k]);
        assert Child(s, Property(k)) == Some(s.properties.m[k]);
      }
    }
  }

  ghost predicate AllExpressible(s: Schema) {
    forall path :: Visited(s, path).Some? ==> Expressible(Visited(s, path).value)
  }

  lemma VisitedBelow(s: Schema, step: Step)
    requires AllExpressible(s) && Child(s, step).Some?
    ensures AllExpressible(Child(s, step).value)
  {
    var c := Child(s, step).value;
    forall path | Visited(c, path).Some? ensures Expressible(Visited(c, path).value) {
      assert ([step] + path)[1..] == path;
      assert Visited(s, [step] + path) == Visited(c, path);
    }
  }

  /** A schema is accepted if and only if every node the transform visits can be expressed. */
  lemma {:induction false} AcceptedIff(s: Schema)
    ensures StrictNode(s).Some? <==> AllExpressible(s)
    decreases s
  {
    if StrictNode(s).Some? {
      forall path | Visited(s, path).Some? ensures Expressible(Visited(s, path).value) {
        AcceptedAlong(s, path);
      }
    } else if AllExpressible(s) {
      assert Visited(s, []) == Some(s);
      forall step | Child(s, step).Some? ensures StrictNode(Child(s, step).value).Some? {
        VisitedBelow(s, step);
        AcceptedIff(Child(s, step).value);
      }
      NodeAccepted(s);
    }
  }

  lemma {:induction false} AcceptedAlong(s: Schema, path: seq<Step>)
    requires StrictNode(s).Some? && Visited(s, path).Some?
    ensures Expressible(Visited(s, path).value)
    decreases path
  {
    if path == [] {
      ExpressibleHere(s);
    } else {
      ChildAccepted(s, path[0]);
      AcceptedAlong(Child(s, path[0]).value, path[1..]);
    }
  }

  // ----- what is left as it is -----

  /** Only `required`, `additionalProperties` and the children of a node are rewritten, and the first two only at object
      nodes. */
  lemma StrictRewrites(s: Schema)
    requires StrictNode(s).Some?
    ensures
      var t := StrictNode(s).value;
      && t == s.(anyOf := t.anyOf, items := t.items, properties := t.properties, required := t.required,
                 additional := t.additional)
      && (s.types != OneType(ObjectType) ==>
            t.required == s.required && t.additional == s.additional && t.properties == s.properties)
    ensures forall step :: Child(StrictNode(s).value, step).Some? <==> Child(s, step).Some?
  {
    var t := StrictNode(s).value;
    if s.properties.Props? {
      assert t.properties.m.Keys == s.properties.m.Keys;
    }
  }

  predicate NamesNull(s: Schema) {
    && s.Node?
    && (|| NullType in TypesOf(s)
        || s.constant == Some(Null)
        || (s.enumeration.Some? && Null in s.enumeration.value))
  }

  /** The path leads through `anyOf` variants only. */
  predicate AllVariants(path: seq<Step>) {
    forall step | step in path :: step.Variant?
  }

  ghost predicate NamesNullAt(s: Schema, path: seq<Step>) {
    AllVariants(path) && Visited(s, path).Some? && NamesNull(Visited(s, path).value)
  }

  /** An optional property counts as taking null when it, or a variant of it at any depth, names null as a type, its
      constant or a value. */
  lemma {:induction false} AllowsNullIff(s: Schema)
    ensures SchemaAllowsNull(s) <==> exists path :: NamesNullAt(s, path)
    decreases s
  {
    if SchemaAllowsNull(s) {
      var path := NullPath(s);
    } else {
      forall path ensures !NamesNullAt(s, path) {
        NoNullPath(s, path);
      }
    }
  }

  lemma {:induction false} NullPath(s: Schema) returns (path: seq<Step>)
    requires SchemaAllowsNull(s)
    ensures NamesNullAt(s, path)
    decreases s
  {
    path := [];
    if !NamesNull(s) {
      var i: nat :| i < |s.anyOf.list| && SchemaAllowsNull(s.anyOf.list[i]);
      var rest := NullPath(s.anyOf.list[i]);
      path := [Variant(i)] + rest;
      assert path[1..] == rest;
    }
  }

  lemma {:induction false} NoNullPath(s: Schema, path: seq<Step>)
    requires !SchemaAllowsNull(s)
    ensures !NamesNullAt(s, path)
    decreases path
  {
    if path != [] && AllVariants(path) && Child(s, path[0]).Some? {
      assert path[0] in path && forall step | step in path[1..] :: step in path;
      NoNullPath(Child(s, path[0]).value, path[1..]);
    }
  }
}
