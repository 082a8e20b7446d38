/** What `is_json_prefix` of `frames.rs` decides, said of the places in a value instead of by recursion over it. */
module JsonExtension {
  import opened JsonValues
  import opened Frames

  /** One step down into a value. */
  datatype Step = Key(k: string) | Index(i: nat)

  function At(v: Json, path: seq<Step>): Option<Json>
    decreases |path|
  {
    if path == [] then Some(v)
    else
      match path[0]
      case Key(k) => if v.Obj? && k in v.fields then At(v.fields[k], path[1..]) else None
      case Index(i) => if v.Arr? && i < |v.items| then At(v.items[i], path[1..]) else None
  }

  /** A string with more at its end, an array with no fewer items, any object, or the same scalar. */
  ghost predicate Longer(x: Json, y: Json) {
    match x
    case Str(s) => y.Str? && exists more :: y.s == s + more
    case Arr(items) => y.Arr? && |items| <= |y.items|
    case Obj(_) => y.Obj?
    case _ => x == y
  }

  ghost predicate KeptAt(a: Json, b: Json, path: seq<Step>) {
    At(a, path).Some? ==> At(b, path).Some? && Longer(At(a, path).value, At(b, path).value)
  }

  /** Everything in `a` is still there in `b`, perhaps longer. */
  ghost predicate Extends(a: Json, b: Json) {
    forall path :: KeptAt(a, b, path)
  }

  lemma StringPrefix(s: string, t: string)
    ensures s <= t <==> exists more :: t == s + more
  {
    if s <= t {
      assert t == s + t[|s|..];
    }
  }

  lemma {:induction false} PrefixKeeps(a: Json, b: Json, path: seq<Step>)
    requires IsJsonPrefix(a, b)
    ensures KeptAt(a, b, path)
    decreases |path|
  {
    if path == [] {
      if a.Str? {
        StringPrefix(a.s, b.s);
      }
    } else if At(a, path).Some? {
      match path[0]
      case Key(k) => PrefixKeeps(a.fields[k], b.fields[k], path[1..]);
      case Index(i) => PrefixKeeps(a.items[i], b.items[i], path[1..]);
    }
  }

  lemma KeptBelow(a: Json, b: Json, step: Step, x: Json, y: Json)
    requires Extends(a, b) && At(a, [step]) == Some(x) && At(b, [step]) == Some(y)
    ensures Extends(x, y)
  {
    forall path ensures KeptAt(x, y, path) {
      assert ([step] + path)[1..] == path && [step][1..] == [];
      assert At(a, [step] + path) == At(x, path) && At(b, [step] + path) == At(y, path);
      assert KeptAt(a, b, [step] + path);
    }
  }

  lemma {:induction false} KeepsIsPrefix(a: Json, b: Json)
    requires Extends(a, b)
    ensures IsJsonPrefix(a, b)
    decreases a
  {
    assert KeptAt(a, b, []);
    match a
    case Str(s) => StringPrefix(s, b.s);
    case Arr(items) =>
      forall i | 0 <= i < |items| ensures IsJsonPrefix(items[i], b.items[i]) {
        assert [Index(i)][1..] == [] && At(a, [Index(i)]) == Some(items[i]);
        KeptBelow(a, b, Index(i), items[i], b.items[i]);
        KeepsIsPrefix(items[i], b.items[i]);
      }
    case Obj(m) =>
      forall k | k in m ensures k in b.fields && IsJsonPrefix(m[k], b.fields[k]) {
        assert [Key(k)][1..] == [] && At(a, [Key(k)]) == Some(m[k]) && KeptAt(a, b, [Key(k)]);
        KeptBelow(a, b, Key(k), m[k], b.fields[k]);
        KeepsIsPrefix(m[k], b.fields[k]);
      }
    case _ =>
  }

  /** The prefix test decides extension. */
  lemma PrefixIff(a: Json, b: Json)
    ensures IsJsonPrefix(a, b) <==> Extends(a, b)
  {
    if IsJsonPrefix(a, b) {
      forall path ensures KeptAt(a, b, path) {
        PrefixKeeps(a, b, path);
      }
    }
    if Extends(a, b) {
      KeepsIsPrefix(a, b);
    }
  }

  /** What that is on a string and on an array. */
  lemma PrefixOfString(s: string, b: Json)
    ensures IsJsonPrefix(Str(s), b) <==> exists more :: b == Str(s + more)
  {
    if b.Str? {
      StringPrefix(s, b.s);
    }
  }

  lemma PrefixOfArray(items: seq<Json>, b: Json)
    ensures IsJsonPrefix(Arr(items), b) <==>
            exists longer: seq<Json>, more: seq<Json> ::
              && b == Arr(longer + more) && |longer| == |items|
              && forall i | 0 <= i < |items| :: IsJsonPrefix(items[i], longer[i])
  {
    if IsJsonPrefix(Arr(items), b) {
      assert b.items == b.items[..|items|] + b.items[|items|..];
    }
  }
}
