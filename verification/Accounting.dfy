/** Checked accounting of `tool_program_accounting.rs`: what a containing tool call reports for itself and the
    calls it made. Costs are left out. */
module Accounting {
  import opened Collections
  import opened JsonValues
  import ResultPaging

  const I64_MAX := 0x7FFF_FFFF_FFFF_FFFF
  const I64_MIN := -0x8000_0000_0000_0000
  const NAMES := 256
  const NAME_BYTES := 256

  const FIELDS := 7
  const PLAIN := 5

  /** input, output, cache read, cache write and total, always present; then one-hour cache write and reasoning. */
  type Usage = counts: seq<Option<int>> |
    |counts| == FIELDS && forall i | 0 <= i < PLAIN :: counts[i].Some?
    witness seq(FIELDS, _ => Some(0))

  datatype Result = Result(usage: Option<Usage>, names: seq<string>, terminate: bool)

  /** The iteration order of the name set. */
  type Order = set<string> -> seq<string>

  ghost predicate Enumerates(order: Order) {
    forall s: set<string> :: NamesIn(order(s)) == s
  }

  function NamesIn(names: seq<string>): set<string> {
    set x | x in names
  }

  // ----- sums -----

  function Zero(): Usage {
    seq(FIELDS, i => if i < PLAIN then Some(0) else None)
  }

  function Add(a: Option<int>, b: Option<int>): Option<int> {
    if b.None? then a else if a.None? then b else Some(a.value + b.value)
  }

  function AddUsage(a: Usage, b: Usage): Usage {
    seq(FIELDS, i requires 0 <= i < FIELDS => Add(a[i], b[i]))
  }

  function Plus(a: Option<Usage>, b: Option<Usage>): Option<Usage> {
    if b.None? then a else if a.None? then b else Some(AddUsage(a.value, b.value))
  }

  predicate FitsCount(c: Option<int>) {
    c.Some? ==> I64_MIN <= c.value <= I64_MAX
  }

  predicate FitsUsage(u: Usage) {
    forall i | 0 <= i < FIELDS :: FitsCount(u[i])
  }

  predicate Fits(u: Option<Usage>) {
    u.Some? ==> FitsUsage(u.value)
  }

  predicate NonNegative(u: Option<Usage>) {
    u.Some? ==> forall i | 0 <= i < FIELDS && u.value[i].Some? :: u.value[i].value >= 0
  }

  /** What a list of results used in all. */
  function Total(rs: seq<Result>): Option<Usage> {
    if rs == [] then None else Plus(Total(rs[..|rs| - 1]), rs[|rs| - 1].usage)
  }

  predicate FitsThroughout(rs: seq<Result>) {
    if rs == [] then true else FitsThroughout(rs[..|rs| - 1]) && Fits(Total(rs))
  }

  function AllNames(rs: seq<Result>): set<string> {
    if rs == [] then {} else AllNames(rs[..|rs| - 1]) + NamesIn(rs[|rs| - 1].names)
  }

  predicate Terminates(rs: seq<Result>) {
    exists r | r in rs :: r.terminate
  }

  predicate Long(name: string) {
    |ResultPaging.Encode(name)| > NAME_BYTES
  }

  predicate NamesFit(names: set<string>) {
    |names| <= NAMES && forall name | name in names :: !Long(name)
  }

  // ----- algebra -----

  lemma PlusAssociates(a: Option<Usage>, b: Option<Usage>, c: Option<Usage>)
    ensures Plus(Plus(a, b), c) == Plus(a, Plus(b, c))
  {
    if a.Some? && b.Some? && c.Some? {
      assert AddUsage(AddUsage(a.value, b.value), c.value) == AddUsage(a.value, AddUsage(b.value, c.value));
    }
  }

  lemma PlusCommutes(a: Option<Usage>, b: Option<Usage>)
    ensures Plus(a, b) == Plus(b, a)
  {
    if a.Some? && b.Some? {
      assert AddUsage(a.value, b.value) == AddUsage(b.value, a.value);
    }
  }

  /** With nothing negative, a part of a sum fits if the sum does. */
  lemma PartFits(a: Option<Usage>, b: Option<Usage>)
    requires NonNegative(a) && NonNegative(b)
    ensures NonNegative(Plus(a, b))
    ensures Fits(Plus(a, b)) ==> Fits(a) && Fits(b)
  {
    if a.Some? && b.Some? && Fits(Plus(a, b)) {
      forall i | 0 <= i < FIELDS ensures FitsCount(a.value[i]) && FitsCount(b.value[i]) {
        assert FitsCount(AddUsage(a.value, b.value)[i]);
      }
    }
  }

  predicate AllNonNegative(rs: seq<Result>) {
    forall r | r in rs :: NonNegative(r.usage)
  }

  /** So with nothing negative, every partial sum fits exactly when the total does. */
  lemma {:induction false} TotalDecides(rs: seq<Result>)
    requires AllNonNegative(rs)
    ensures NonNegative(Total(rs)) && (FitsThroughout(rs) <==> Fits(Total(rs)))
  {
    if rs != [] {
      assert forall r | r in rs[..|rs| - 1] :: r in rs;
      assert rs[|rs| - 1] in rs;
      TotalDecides(rs[..|rs| - 1]);
      PartFits(Total(rs[..|rs| - 1]), rs[|rs| - 1].usage);
    }
  }

  /** One more result. */
  lemma AppendFacts(rs: seq<Result>, r: Result)
    ensures Total(rs + [r]) == Plus(Total(rs), r.usage)
    ensures FitsThroughout(rs + [r]) == (FitsThroughout(rs) && Fits(Total(rs + [r])))
    ensures AllNames(rs + [r]) == AllNames(rs) + NamesIn(r.names)
    ensures Terminates(rs + [r]) == (Terminates(rs) || r.terminate)
  {
    assert (rs + [r])[..|rs|] == rs;
    assert r in rs + [r];
    assert forall x | x in rs :: x in rs + [r];
  }

  /** Two results. */
  lemma PairFacts(a: Result, b: Result)
    ensures Total([a, b]) == Plus(a.usage, b.usage)
    ensures FitsThroughout([a, b]) == (Fits(a.usage) && Fits(Plus(a.usage, b.usage)))
    ensures AllNames([a, b]) == NamesIn(a.names) + NamesIn(b.names)
    ensures Terminates([a, b]) == (a.terminate || b.terminate)
  {
    AppendFacts([], a);
    AppendFacts([a], b);
    assert [] + [a] == [a] && [a] + [b] == [a, b];
  }

  // ----- retaining and merging -----

  /** `checked_add`: field by field, stopping at the first overflow. */
  method CheckedAdd(sum: Usage, value: Usage) returns (r: Option<Usage>)
    requires FitsUsage(sum)
    ensures r == if FitsUsage(AddUsage(sum, value)) then Some(AddUsage(sum, value)) else None
  {
    ghost var whole := AddUsage(sum, value);
    var next: seq<Option<int>> := sum;
    for i := 0 to FIELDS
      invariant |next| == FIELDS
      invariant forall j | 0 <= j < FIELDS :: next[j] == if j < i then whole[j] else sum[j]
      invariant forall j | 0 <= j < i :: FitsCount(whole[j])
    {
      if value[i].Some? {
        var a := if next[i].Some? then next[i].value else 0;
        var b := a + value[i].value;
        if b < I64_MIN || b > I64_MAX {
          assert !FitsCount(whole[i]);
          return None;
        }
        next := next[i := Some(b)];
      }
    }
    assert next == whole;
    r := Some(next);
  }

  /** `Accounting`, with the results it has retained. */
  class Book {
    var hasChildren: bool
    var usage: Option<Usage>
    var names: set<string>
    var terminate: bool
    var invalidUsage: bool
    var invalidNames: bool
    ghost var retained: seq<Result>

    /** The fields say of the retained results what can be said of them without their order, but for the names
        kept once the names are invalid. */
    ghost predicate Valid()
      reads this
    {
      && hasChildren == (retained != [])
      && terminate == Terminates(retained)
      && UsageKept(FitsThroughout(retained), Total(retained))
      && NamesKept(AllNames(retained))
    }

    ghost predicate UsageKept(fits: bool, total: Option<Usage>)
      reads this
    {
      && invalidUsage == !fits
      && usage == (if fits then total else None)
      && Fits(usage)
    }

    ghost predicate NamesKept(all: set<string>)
      reads this
    {
      && NamesFit(names) && names <= all
      && invalidNames == !NamesFit(all)
      && (!invalidNames ==> names == all)
    }

    constructor ()
      ensures Valid() && retained == []
    {
      hasChildren, usage, names, terminate, invalidUsage, invalidNames := false, None, {}, false, false, false;
      retained := [];
    }

    method Retain(r: Result)
      requires Valid()
      modifies this
      ensures Valid() && retained == old(retained) + [r]
    {
      ghost var more := retained + [r];
      ghost var fits, total, all := FitsThroughout(retained), Total(retained), AllNames(retained);
      AppendFacts(retained, r);
      hasChildren := true;
      terminate := terminate || r.terminate;
      RetainUsage(r.usage, fits, total);
      assert UsageKept(FitsThroughout(more), Total(more));
      RetainNames(r.names, all);
      assert NamesKept(AllNames(more));
      retained := more;
    }

    /** The first overflow makes the usage invalid for good. */
    method RetainUsage(added: Option<Usage>, ghost fits: bool, ghost total: Option<Usage>)
      requires UsageKept(fits, total)
      modifies this`usage, this`invalidUsage
      ensures UsageKept(fits && Fits(Plus(total, added)), Plus(total, added))
    {
      if added.Some? {
        var sum := CheckedAdd(if usage.Some? then usage.value else Zero(), added.value);
        assert AddUsage(Zero(), added.value) == added.value;
        if sum.Some? && !invalidUsage {
          usage := sum;
        } else {
          invalidUsage := true;
          usage := None;
        }
      }
    }

    /** A long name, or a new one when the set is full, makes the names invalid for good. */
    method RetainNames(added: seq<string>, ghost all: set<string>)
      requires NamesKept(all)
      modifies this`names, this`invalidNames
      ensures NamesKept(all + NamesIn(added))
    {
      ghost var done := all;
      for i := 0 to |added|
        invariant NamesKept(done) && done == all + NamesIn(added[..i])
      {
        RetainName(added[i], done);
        done := done + {added[i]};
        assert NamesIn(added[..i + 1]) == NamesIn(added[..i]) + {added[i]};
      }
      assert added[..|added|] == added;
    }

    method RetainName(name: string, ghost all: set<string>)
      requires NamesKept(all)
      modifies this`names, this`invalidNames
      ensures NamesKept(all + {name})
    {
      if |ResultPaging.Encode(name)| > 256 || (name !in names && |names| >= 256) {
        ghost var more := all + {name};
        assert name in more;
        SubsetSize(names + {name}, more);
        invalidNames := true;
      } else {
        if invalidNames {
          SubsetSize(all, all + {name});
        }
        names := names + {name};
      }
    }

    /** `merge`: the containing call's own result together with what its children reported; fails exactly when a
        total or the names do not fit, and then reports nothing of that kind. */
    method Merge(own: Result, order: Order) returns (merged: Result, ok: bool)
      requires Valid() && Enumerates(order)
      ensures (merged, ok) == Merged(own, retained, order)
    {
      if !hasChildren {
        return own, true;
      }
      var carried := Result(usage, order(names), terminate);
      PairFacts(own, carried);
      var combined := new Book();
      combined.Retain(own);
      combined.Retain(carried);
      assert combined.retained == [own, carried];
      var badUsage := invalidUsage || combined.invalidUsage;
      var badNames := invalidNames || combined.invalidNames;
      MergedNames(own, order, names, AllNames(retained));
      merged := Result(if badUsage then None else combined.usage,
                       if badNames then [] else order(combined.names),
                       combined.terminate);
      ok := !badUsage && !badNames;
    }
  }

  /** The names that were kept decide as all of them would. */
  lemma MergedNames(own: Result, order: Order, kept: set<string>, all: set<string>)
    requires Enumerates(order) && kept <= all && (NamesFit(all) ==> kept == all)
    ensures NamesIn(order(kept)) == kept
    ensures NamesFit(NamesIn(own.names) + all) ==> NamesFit(all)
  {
    if NamesFit(NamesIn(own.names) + all) {
      SubsetSize(all, NamesIn(own.names) + all);
    }
  }

  /** The report of a call with its own result and its children's. */
  function Merged(own: Result, children: seq<Result>, order: Order): (Result, bool) {
    if children == [] then (own, true)
    else
      var total, names := Plus(own.usage, Total(children)), NamesIn(own.names) + AllNames(children);
      var usageOk := FitsThroughout(children) && Fits(own.usage) && Fits(total);
      (Result(if usageOk then total else None,
              if NamesFit(names) then order(names) else [],
              own.terminate || Terminates(children)),
       usageOk && NamesFit(names))
  }
}
