/** When the report of a call does not depend on the order in which its children complete. */
module AccountingOrder {
  import opened Accounting
  import opened Collections
  import opened JsonValues

  /** Taking one result out of the middle. */
  lemma {:induction false} OutOfTheMiddle(before: seq<Result>, r: Result, after: seq<Result>)
    ensures Total(before + [r] + after) == Plus(Total(before + after), r.usage)
    ensures AllNames(before + [r] + after) == AllNames(before + after) + NamesIn(r.names)
    decreases |after|
  {
    if after == [] {
      assert before + [r] + after == before + [r] && before + after == before;
      AppendFacts(before, r);
    } else {
      var rest, last := after[..|after| - 1], after[|after| - 1];
      OutOfTheMiddle(before, r, rest);
      AppendFacts(before + [r] + rest, last);
      AppendFacts(before + rest, last);
      assert before + [r] + rest + [last] == before + [r] + after && before + rest + [last] == before + after;
      var t := Total(before + rest);
      PlusAssociates(t, r.usage, last.usage);
      PlusAssociates(t, last.usage, r.usage);
      PlusCommutes(r.usage, last.usage);
    }
  }

  lemma {:induction false} SumsPermute(rs: seq<Result>, ss: seq<Result>)
    requires multiset(rs) == multiset(ss)
    ensures Total(rs) == Total(ss) && AllNames(rs) == AllNames(ss)
    decreases |rs|
  {
    if rs == [] {
      assert |ss| == |multiset(ss)|;
    } else {
      var rest, last := rs[..|rs| - 1], rs[|rs| - 1];
      var before, after := FindLast(rs, ss);
      SumsPermute(rest, before + after);
      OutOfTheMiddle(before, last, after);
      AppendFacts(rest, last);
      assert rs == rest + [last];
    }
  }

  lemma MembersPermute(rs: seq<Result>, ss: seq<Result>)
    requires multiset(rs) == multiset(ss)
    ensures Terminates(rs) == Terminates(ss) && AllNonNegative(rs) == AllNonNegative(ss)
  {
    assert forall r :: r in rs <==> r in multiset(rs);
    assert forall r :: r in ss <==> r in multiset(ss);
  }

  /** A count, with nothing reported as zero. */
  function At(u: Option<Usage>, i: nat): int
    requires i < FIELDS
  {
    if u.Some? && u.value[i].Some? then u.value[i].value else 0
  }

  /** What a result adds to field `i`, and what it takes away. */
  function Gain(i: nat): Result -> int
    requires i < FIELDS
  {
    (r: Result) => if At(r.usage, i) > 0 then At(r.usage, i) else 0
  }

  function Loss(i: nat): Result -> int
    requires i < FIELDS
  {
    (r: Result) => if At(r.usage, i) < 0 then At(r.usage, i) else 0
  }

  /** In every field the gains alone fit, and so do the losses. */
  predicate PartsFit(rs: seq<Result>) {
    forall i | 0 <= i < FIELDS :: Sum(rs, Gain(i)) <= I64_MAX && I64_MIN <= Sum(rs, Loss(i))
  }

  lemma AtPlus(a: Option<Usage>, b: Option<Usage>, i: nat)
    requires i < FIELDS
    ensures At(Plus(a, b), i) == At(a, i) + At(b, i)
  {
  }

  lemma FitsAt(u: Option<Usage>)
    ensures Fits(u) <==> forall i | 0 <= i < FIELDS :: I64_MIN <= At(u, i) <= I64_MAX
  {
    if u.Some? && forall i | 0 <= i < FIELDS :: I64_MIN <= At(u, i) <= I64_MAX {
      forall i | 0 <= i < FIELDS ensures FitsCount(u.value[i]) {
        assert u.value[i].Some? ==> At(u, i) == u.value[i].value;
      }
    } else if Fits(u) {
      forall i | 0 <= i < FIELDS ensures I64_MIN <= At(u, i) <= I64_MAX {
        assert u.Some? ==> FitsCount(u.value[i]);
      }
    }
  }

  /** A total lies between its losses and its gains. */
  lemma {:induction false} TotalBetween(rs: seq<Result>, i: nat)
    requires i < FIELDS
    ensures Sum(rs, Loss(i)) <= At(Total(rs), i) <= Sum(rs, Gain(i))
    ensures Sum(rs, Loss(i)) <= 0 <= Sum(rs, Gain(i))
  {
    if rs != [] {
      TotalBetween(rs[..|rs| - 1], i);
      AtPlus(Total(rs[..|rs| - 1]), rs[|rs| - 1].usage, i);
    }
  }

  lemma {:induction false} PartsFitThroughout(rs: seq<Result>)
    requires PartsFit(rs)
    ensures FitsThroughout(rs)
  {
    if rs != [] {
      var rest, last := rs[..|rs| - 1], rs[|rs| - 1];
      forall i | 0 <= i < FIELDS
        ensures Sum(rest, Gain(i)) <= I64_MAX && I64_MIN <= Sum(rest, Loss(i))
        ensures I64_MIN <= At(Total(rs), i) <= I64_MAX
      {
        TotalBetween(rs, i);
        assert Sum(rs, Gain(i)) == Sum(rest, Gain(i)) + Gain(i)(last);
        assert Sum(rs, Loss(i)) == Sum(rest, Loss(i)) + Loss(i)(last);
      }
      PartsFitThroughout(rest);
      FitsAt(Total(rs));
    }
  }

  lemma PartsPermute(rs: seq<Result>, ss: seq<Result>)
    requires multiset(rs) == multiset(ss)
    ensures PartsFit(rs) == PartsFit(ss)
  {
    forall i | 0 <= i < FIELDS
      ensures Sum(rs, Gain(i)) == Sum(ss, Gain(i)) && Sum(rs, Loss(i)) == Sum(ss, Loss(i))
    {
      SumPermutes(rs, ss, Gain(i));
      SumPermutes(rs, ss, Loss(i));
    }
  }

  /** The results that satisfy `p`, in order. */
  function Those(rs: seq<Result>, p: Result -> bool): seq<Result> {
    if rs == [] then []
    else Those(rs[..|rs| - 1], p) + if p(rs[|rs| - 1]) then [rs[|rs| - 1]] else []
  }

  /** The results that gain, or that lose, in field `i`. */
  function Moves(i: nat, up: bool): Result -> bool
    requires i < FIELDS
  {
    (r: Result) => if up then At(r.usage, i) > 0 else At(r.usage, i) < 0
  }

  function Rest(i: nat, up: bool): Result -> bool
    requires i < FIELDS
  {
    (r: Result) => !Moves(i, up)(r)
  }

  /** All that move field `i` one way, first. */
  function Sorted(rs: seq<Result>, i: nat, up: bool): seq<Result>
    requires i < FIELDS
  {
    Those(rs, Moves(i, up)) + Those(rs, Rest(i, up))
  }

  lemma {:induction false} SortedPermutes(rs: seq<Result>, i: nat, up: bool)
    requires i < FIELDS
    ensures multiset(Sorted(rs, i, up)) == multiset(rs)
  {
    if rs != [] {
      var rest, last := rs[..|rs| - 1], rs[|rs| - 1];
      SortedPermutes(rest, i, up);
      assert rs == rest + [last];
      assert multiset(rs) == multiset(rest) + multiset{last};
    }
  }

  /** Their total in that field is all the gains, or all the losses. */
  lemma {:induction false} MovesTotal(rs: seq<Result>, i: nat, up: bool)
    requires i < FIELDS
    ensures At(Total(Those(rs, Moves(i, up))), i) == Sum(rs, if up then Gain(i) else Loss(i))
  {
    if rs != [] {
      var rest, last := rs[..|rs| - 1], rs[|rs| - 1];
      MovesTotal(rest, i, up);
      if Moves(i, up)(last) {
        AppendFacts(Those(rest, Moves(i, up)), last);
        AtPlus(Total(Those(rest, Moves(i, up))), last.usage, i);
      } else {
        assert Those(rs, Moves(i, up)) == Those(rest, Moves(i, up));
      }
    }
  }

  lemma {:induction false} ThroughoutPrefix(a: seq<Result>, b: seq<Result>)
    requires FitsThroughout(a + b)
    ensures FitsThroughout(a) && Fits(Total(a))
    decreases |b|
  {
    if b == [] {
      assert a + b == a;
    } else {
      assert (a + b)[..|a + b| - 1] == a + b[..|b| - 1];
      ThroughoutPrefix(a, b[..|b| - 1]);
    }
  }

  /** An order that overflows, if the gains or the losses of a field do not fit. */
  lemma BadOrder(rs: seq<Result>) returns (ss: seq<Result>)
    requires !PartsFit(rs)
    ensures multiset(ss) == multiset(rs) && !FitsThroughout(ss)
  {
    var i :| 0 <= i < FIELDS && !(Sum(rs, Gain(i)) <= I64_MAX && I64_MIN <= Sum(rs, Loss(i)));
    var up := Sum(rs, Gain(i)) > I64_MAX;
    ss := Sorted(rs, i, up);
    SortedPermutes(rs, i, up);
    MovesTotal(rs, i, up);
    FitsAt(Total(Those(rs, Moves(i, up))));
    if FitsThroughout(ss) {
      ThroughoutPrefix(Those(rs, Moves(i, up)), Those(rs, Rest(i, up)));
    }
  }

  /** No order of the children overflows on the way if and only if in every field the gains fit and the losses fit. */
  lemma AnyOrderFitsIff(rs: seq<Result>)
    ensures (forall ss | multiset(ss) == multiset(rs) :: FitsThroughout(ss)) <==> PartsFit(rs)
  {
    if PartsFit(rs) {
      forall ss | multiset(ss) == multiset(rs) ensures FitsThroughout(ss) {
        PartsPermute(rs, ss);
        PartsFitThroughout(ss);
      }
    } else {
      var ss := BadOrder(rs);
    }
  }

  /** Then, and also when the total itself does not fit, a call reports the same for every order in which its children
      complete. */
  lemma MergeIgnoresOrder(own: Result, rs: seq<Result>, ss: seq<Result>, order: Order)
    requires multiset(rs) == multiset(ss) && (PartsFit(rs) || !Fits(Total(rs)))
    ensures Merged(own, rs, order) == Merged(own, ss, order)
  {
    assert |rs| == |multiset(rs)| == |multiset(ss)| == |ss|;
    SumsPermute(rs, ss);
    MembersPermute(rs, ss);
    PartsPermute(rs, ss);
    if PartsFit(rs) {
      PartsFitThroughout(rs);
      PartsFitThroughout(ss);
    }
  }

  /** Where one order reports its usage, all orders report the same if and only if the gains and the losses fit. */
  lemma MergeIgnoresOrderIff(own: Result, rs: seq<Result>, order: Order)
    requires FitsThroughout(rs) && Fits(own.usage) && Fits(Plus(own.usage, Total(rs)))
    ensures (forall ss | multiset(ss) == multiset(rs) :: Merged(own, ss, order) == Merged(own, rs, order))
            <==> PartsFit(rs)
  {
    if PartsFit(rs) {
      forall ss | multiset(ss) == multiset(rs) ensures Merged(own, ss, order) == Merged(own, rs, order) {
        MergeIgnoresOrder(own, rs, ss, order);
      }
    } else {
      var ss := BadOrder(rs);
      SumsPermute(ss, rs);
      BadOrderTotal(rs);
      assert Merged(own, ss, order).0.usage.None?;
    }
  }

  lemma {:induction false} BadOrderTotal(rs: seq<Result>)
    requires !PartsFit(rs)
    ensures rs != [] && Total(rs).Some?
  {
    if Total(rs).None? {
      NoneReported(rs);
    }
  }

  lemma {:induction false} NoneReported(rs: seq<Result>)
    requires Total(rs).None?
    ensures PartsFit(rs)
    ensures forall i | 0 <= i < FIELDS :: Sum(rs, Gain(i)) == 0 == Sum(rs, Loss(i))
  {
    if rs != [] {
      NoneReported(rs[..|rs| - 1]);
    }
  }

  /** With nothing negative the condition is that the total fits, and so the order never matters. */
  lemma NonNegativeMergeIgnoresOrder(own: Result, rs: seq<Result>, ss: seq<Result>, order: Order)
    requires multiset(rs) == multiset(ss) && AllNonNegative(rs)
    ensures Merged(own, rs, order) == Merged(own, ss, order)
  {
    if Fits(Total(rs)) {
      FitsAt(Total(rs));
      forall i | 0 <= i < FIELDS ensures Sum(rs, Gain(i)) <= I64_MAX && I64_MIN <= Sum(rs, Loss(i)) {
        OnlyGains(rs, i);
      }
    }
    MergeIgnoresOrder(own, rs, ss, order);
  }

  lemma {:induction false} OnlyGains(rs: seq<Result>, i: nat)
    requires AllNonNegative(rs) && i < FIELDS
    ensures Sum(rs, Gain(i)) == At(Total(rs), i) && Sum(rs, Loss(i)) == 0
  {
    if rs != [] {
      var rest, last := rs[..|rs| - 1], rs[|rs| - 1];
      assert last in rs && forall r | r in rest :: r in rs;
      OnlyGains(rest, i);
      AtPlus(Total(rest), last.usage, i);
    }
  }

  function Only(count: int): Result {
    Result(Some(seq(FIELDS, i => if i == 0 then Some(count) else if i < PLAIN then Some(0) else None)), [], false)
  }

  lemma OnlyAdds(a: int, b: int)
    ensures Plus(Only(a).usage, Only(b).usage) == Only(a + b).usage
    ensures Fits(Only(a).usage) == FitsCount(Some(a))
  {
    assert AddUsage(Only(a).usage.value, Only(b).usage.value) == Only(a + b).usage.value;
    assert Only(a).usage.value[0] == Some(a);
  }

  lemma OnlyThree(a: int, b: int, c: int)
    ensures Total([Only(a), Only(b), Only(c)]) == Only(a + b + c).usage
    ensures FitsThroughout([Only(a), Only(b), Only(c)])
            == (FitsCount(Some(a)) && FitsCount(Some(a + b)) && FitsCount(Some(a + b + c)))
    ensures AllNames([Only(a), Only(b), Only(c)]) == {}
  {
    PairFacts(Only(a), Only(b));
    AppendFacts([Only(a), Only(b)], Only(c));
    assert [Only(a), Only(b)] + [Only(c)] == [Only(a), Only(b), Only(c)];
    OnlyAdds(a, b);
    OnlyAdds(a + b, c);
    OnlyAdds(a + b + c, 0);
  }

  /** An example: the largest count, one more and minus one overflow in this order only. */
  lemma NegativeCountsOrder(order: Order)
    ensures
      var own, late, early := Result(None, [], false), [Only(I64_MAX), Only(1), Only(-1)],
                              [Only(I64_MAX), Only(-1), Only(1)];
      multiset(late) == multiset(early) && !Merged(own, late, order).1 && Merged(own, early, order).1
  {
    OnlyThree(I64_MAX, 1, -1);
    OnlyThree(I64_MAX, -1, 1);
    OnlyAdds(I64_MAX, 0);
    SilentOwn([Only(I64_MAX), Only(1), Only(-1)], order);
    SilentOwn([Only(I64_MAX), Only(-1), Only(1)], order);
  }

  lemma SilentOwn(children: seq<Result>, order: Order)
    requires children != [] && AllNames(children) == {}
    ensures Merged(Result(None, [], false), children, order).1 == (FitsThroughout(children) && Fits(Total(children)))
  {
  }
}
