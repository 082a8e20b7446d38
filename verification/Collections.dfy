/** Sizes of sets, sums over lists, and lists up to their order. */
module Collections {
  lemma {:induction false} SubsetSize<T>(a: set<T>, b: set<T>)
    requires a <= b
    ensures |a| <= |b|
  {
    if a != {} {
      var x :| x in a;
      SubsetSize(a - {x}, b - {x});
    }
  }

  /** The last of one list, found in another with the same members. */
  lemma FindLast<T>(rs: seq<T>, ss: seq<T>) returns (before: seq<T>, after: seq<T>)
    requires rs != [] && multiset(rs) == multiset(ss)
    ensures ss == before + [rs[|rs| - 1]] + after
    ensures multiset(rs[..|rs| - 1]) == multiset(before + after)
  {
    var last := rs[|rs| - 1];
    assert rs == rs[..|rs| - 1] + [last];
    assert last in multiset(ss);
    var i :| 0 <= i < |ss| && ss[i] == last;
    before, after := ss[..i], ss[i + 1..];
    assert ss == before + [last] + after;
    assert multiset(rs[..|rs| - 1]) == multiset(rs) - multiset{last} == multiset(before + after);
  }

  function Sum<T>(xs: seq<T>, f: T -> int): int {
    if xs == [] then 0 else Sum(xs[..|xs| - 1], f) + f(xs[|xs| - 1])
  }

  lemma {:induction false} SumSplits<T>(a: seq<T>, b: seq<T>, f: T -> int)
    ensures Sum(a + b, f) == Sum(a, f) + Sum(b, f)
    decreases |b|
  {
    if b == [] {
      assert a + b == a;
    } else {
      assert (a + b)[..|a + b| - 1] == a + b[..|b| - 1];
      SumSplits(a, b[..|b| - 1], f);
    }
  }

  lemma SumOne<T>(x: T, f: T -> int)
    ensures Sum([x], f) == f(x)
  {
    assert [x][..0] == [];
  }

  lemma SumUpdate<T>(xs: seq<T>, i: nat, x: T, f: T -> int)
    requires i < |xs|
    ensures Sum(xs[i := x], f) == Sum(xs, f) - f(xs[i]) + f(x)
  {
    assert xs == xs[..i] + ([xs[i]] + xs[i + 1..]) && xs[i := x] == xs[..i] + ([x] + xs[i + 1..]);
    SumSplits(xs[..i], [xs[i]] + xs[i + 1..], f);
    SumSplits(xs[..i], [x] + xs[i + 1..], f);
    SumSplits([xs[i]], xs[i + 1..], f);
    SumSplits([x], xs[i + 1..], f);
    SumOne(xs[i], f);
    SumOne(x, f);
  }

  lemma {:induction false} SumPermutes<T>(xs: seq<T>, ys: seq<T>, f: T -> int)
    requires multiset(xs) == multiset(ys)
    ensures Sum(xs, f) == Sum(ys, f)
    decreases |xs|
  {
    if xs == [] {
      assert |ys| == |multiset(ys)|;
    } else {
      var last := xs[|xs| - 1];
      var before, after := FindLast(xs, ys);
      SumPermutes(xs[..|xs| - 1], before + after, f);
      SumSplits(before, after, f);
      SumSplits(before, [last] + after, f);
      SumSplits([last], after, f);
      SumOne(last, f);
      assert ys == before + ([last] + after);
    }
  }
}
