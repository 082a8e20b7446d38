/** What is reported of a whole invocation tree. */
module AccountingTree {
  import opened Accounting
  import opened Collections
  import opened JsonValues

  /** What an `after_tool_call` hook puts in place of a call's usage and termination. */
  datatype Hook = Hook(usage: Option<Usage>, terminate: Option<bool>)

  /** A tool call with its own result, the calls it made, in the order they completed, and what the hook does to its
      result. */
  datatype Call = Call(own: Result, children: seq<Call>, after: Hook)

  /** The call's result with those of the calls it made. */
  function Merge(call: Call, order: Order): (Result, bool)
    decreases call, 0
  {
    Merged(call.own, Reports(call.children, order), order)
  }

  function Hooked(r: Result, after: Hook): Result {
    r.(usage := if after.usage.Some? then after.usage else r.usage,
       terminate := if after.terminate.Some? then after.terminate.value else r.terminate)
  }

  /** What its caller retains. */
  function Report(call: Call, order: Order): Result
    decreases call, 1
  {
    Hooked(Merge(call, order).0, call.after)
  }

  function Reports(calls: seq<Call>, order: Order): seq<Result>
    decreases calls, 0
  {
    if calls == [] then []
    else Reports(calls[..|calls| - 1], order) + [Report(calls[|calls| - 1], order)]
  }

  /** No merge fails, here or below. */
  predicate AllMerge(call: Call, order: Order) {
    Merge(call, order).1 && forall c | c in call.children :: AllMerge(c, order)
  }

  /** The usage of a call and all below it; where a hook has replaced the usage, it is what the hook says. */
  function TreeTotal(call: Call): Option<Usage>
    decreases call, 1
  {
    if call.after.usage.Some? then call.after.usage else MergeTotal(call)
  }

  function MergeTotal(call: Call): Option<Usage>
    decreases call, 0
  {
    Plus(call.own.usage, TreeTotals(call.children))
  }

  function TreeTotals(calls: seq<Call>): Option<Usage>
    decreases calls, 0
  {
    if calls == [] then None else Plus(TreeTotals(calls[..|calls| - 1]), TreeTotal(calls[|calls| - 1]))
  }

  function TreeNames(call: Call): set<string> {
    NamesIn(call.own.names) + TreesNames(call.children)
  }

  function TreesNames(calls: seq<Call>): set<string> {
    if calls == [] then {} else TreesNames(calls[..|calls| - 1]) + TreeNames(calls[|calls| - 1])
  }

  predicate TreeTerminates(call: Call) {
    if call.after.terminate.Some? then call.after.terminate.value
    else call.own.terminate || exists c | c in call.children :: TreeTerminates(c)
  }

  /** When no merge fails, a call reports exactly the sum, the names and the termination of its whole tree, but for what
      hooks have replaced. */
  lemma {:induction false} ReportIsTree(call: Call, order: Order)
    requires Enumerates(order) && AllMerge(call, order)
    ensures Report(call, order).usage == TreeTotal(call)
    ensures NamesIn(Report(call, order).names) == TreeNames(call)
    ensures Report(call, order).terminate == TreeTerminates(call)
    decreases call
  {
    ReportsAreTrees(call.children, order);
    if call.children != [] {
      assert NamesIn(order(TreeNames(call))) == TreeNames(call);
    }
  }

  lemma {:induction false} ReportsAreTrees(calls: seq<Call>, order: Order)
    requires Enumerates(order) && forall c | c in calls :: AllMerge(c, order)
    ensures |Reports(calls, order)| == |calls|
    ensures Total(Reports(calls, order)) == TreeTotals(calls)
    ensures AllNames(Reports(calls, order)) == TreesNames(calls)
    ensures Terminates(Reports(calls, order)) == exists c | c in calls :: TreeTerminates(c)
    decreases calls
  {
    if calls != [] {
      var rest, last := calls[..|calls| - 1], calls[|calls| - 1];
      assert calls == rest + [last];
      ReportsAreTrees(rest, order);
      ReportIsTree(last, order);
      AppendFacts(Reports(rest, order), Report(last, order));
    }
  }

  predicate TreeNonNegative(call: Call) {
    NonNegative(call.own.usage) && NonNegative(call.after.usage) && forall c | c in call.children :: TreeNonNegative(c)
  }

  lemma {:induction false} TreeTotalNonNegative(call: Call)
    requires TreeNonNegative(call)
    ensures NonNegative(TreeTotal(call)) && NonNegative(MergeTotal(call)) && NonNegative(TreeTotals(call.children))
    decreases call
  {
    TreeTotalsNonNegative(call.children);
    PartFits(call.own.usage, TreeTotals(call.children));
  }

  lemma {:induction false} TreeTotalsNonNegative(calls: seq<Call>)
    requires forall c | c in calls :: TreeNonNegative(c)
    ensures NonNegative(TreeTotals(calls))
    decreases calls
  {
    if calls != [] {
      var rest, last := calls[..|calls| - 1], calls[|calls| - 1];
      assert calls == rest + [last];
      TreeTotalsNonNegative(rest);
      TreeTotalNonNegative(last);
      PartFits(TreeTotals(rest), TreeTotal(last));
    }
  }

  /** What the hooks below a call replaced did fit. */
  predicate ReplacedFits(call: Call) {
    forall c | c in call.children ::
      (c.after.usage.Some? && c.children != [] ==> Fits(MergeTotal(c))) && ReplacedFits(c)
  }

  lemma {:induction false} FittingTreeMerges(call: Call, order: Order)
    requires Enumerates(order) && TreeNonNegative(call) && ReplacedFits(call)
    requires call.children != [] ==> Fits(MergeTotal(call)) && NamesFit(TreeNames(call))
    ensures AllMerge(call, order)
    decreases call
  {
    if call.children != [] {
      TreeTotalNonNegative(call);
      PartFits(call.own.usage, TreeTotals(call.children));
      SubsetSize(TreesNames(call.children), TreeNames(call));
      FittingTreesMerge(call.children, order);
      ReportsAreTrees(call.children, order);
    }
  }

  lemma {:induction false} FittingTreesMerge(calls: seq<Call>, order: Order)
    requires Enumerates(order) && forall c | c in calls :: TreeNonNegative(c) && ReplacedFits(c)
    requires forall c | c in calls && c.after.usage.Some? && c.children != [] :: Fits(MergeTotal(c))
    requires Fits(TreeTotals(calls)) && NamesFit(TreesNames(calls))
    ensures forall c | c in calls :: AllMerge(c, order)
    ensures FitsThroughout(Reports(calls, order))
    decreases calls
  {
    if calls != [] {
      var rest, last := calls[..|calls| - 1], calls[|calls| - 1];
      assert calls == rest + [last];
      TreeTotalsNonNegative(rest);
      TreeTotalNonNegative(last);
      PartFits(TreeTotals(rest), TreeTotal(last));
      SubsetSize(TreesNames(rest), TreesNames(calls));
      SubsetSize(TreeNames(last), TreesNames(calls));
      FittingTreesMerge(rest, order);
      FittingTreeMerges(last, order);
      ReportsAreTrees(rest, order);
      ReportIsTree(last, order);
      AppendFacts(Reports(rest, order), Report(last, order));
    }
  }

  lemma {:induction false} MergedTreeFits(call: Call, order: Order)
    requires Enumerates(order) && TreeNonNegative(call) && AllMerge(call, order)
    ensures call.children != [] ==> Fits(MergeTotal(call)) && NamesFit(TreeNames(call))
    ensures ReplacedFits(call)
    decreases call
  {
    ReportsAreTrees(call.children, order);
    forall c | c in call.children
      ensures (c.after.usage.Some? && c.children != [] ==> Fits(MergeTotal(c))) && ReplacedFits(c)
    {
      MergedTreeFits(c, order);
    }
  }

  /** With no negative counts, every merge of a tree succeeds exactly when the tree's total and names fit, and so did
      every total that a hook has replaced; a call that made no calls reports its own result unchecked. */
  lemma TreeMergesIff(call: Call, order: Order)
    requires Enumerates(order) && TreeNonNegative(call) && call.children != []
    ensures AllMerge(call, order) <==> Fits(MergeTotal(call)) && NamesFit(TreeNames(call)) && ReplacedFits(call)
  {
    if AllMerge(call, order) {
      MergedTreeFits(call, order);
    } else if Fits(MergeTotal(call)) && NamesFit(TreeNames(call)) && ReplacedFits(call) {
      FittingTreeMerges(call, order);
    }
  }
}
