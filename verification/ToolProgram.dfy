/** The invocation tree of `tool_program.rs`: start requests of many programs race with cancellation and with
    `finish` over shared permits and budgets. Every step between two points where another task can run is atomic. */
module ToolProgram {
  import opened Collections
  import opened JsonValues

  const ACTIVE := 8
  const STARTS := 128
  const REQUESTS := 16

  /** `owner` is the request that runs the program, `permits` the free ones of its eight, and `requests` the
      retained ones. */
  datatype Program = Program(owner: Option<nat>, permits: nat, cancelled: bool, terminated: bool,
                             requests: set<nat>, finished: bool)

  /** How far a start has come: past the entry check, with its program's permit, with the tree's as well,
      running, finalized, and over. */
  datatype Stage = Asked | HasPermit | HasBoth | Running | Finalized | Ended | Refused
  {
    predicate Holds() {
      HasPermit? || HasBoth? || Live()
    }

    predicate HoldsTree() {
      HasBoth? || Live()
    }

    predicate Live() {
      Running? || Finalized?
    }

    predicate WasAdmitted() {
      Live() || Ended?
    }
  }

  datatype Request = Request(program: nat, stage: Stage)

  datatype Tree = Tree(programs: seq<Program>, requests: seq<Request>, permits: nat, starts: nat)

  datatype Step =
    | Ask(p: nat) | TakePermit(r: nat) | TakeTreePermit(r: nat) | Decide(r: nat)
    | Open(r: nat) | Finalize(r: nat, terminate: bool) | End(r: nat)
    | Cancel(p: nat) | Dispose(p: nat, r: nat) | Finish(p: nat)

  const ROOT := Program(None, ACTIVE, false, false, {}, false)
  const START := Tree([ROOT], [], ACTIVE, 0)

  // ----- the steps -----

  predicate Enabled(t: Tree, step: Step) {
    match step
    case Ask(p) => p < |t.programs| && !t.programs[p].cancelled && !t.programs[p].terminated
    case TakePermit(r) => At(t, r, Asked)
    case TakeTreePermit(r) => At(t, r, HasPermit)
    case Decide(r) => At(t, r, HasBoth)
    case Open(r) => At(t, r, Running)
    case Finalize(r, _) => At(t, r, Running) && OwnedFinished(t.programs, r)
    case End(r) => r < |t.requests| && Placed(t, r) && t.requests[r].stage.Live() && OwnedFinished(t.programs, r)
    case Cancel(p) => p < |t.programs|
    case Dispose(p, _) => p < |t.programs|
    case Finish(p) => p < |t.programs| && t.programs[p].cancelled && t.programs[p].permits == ACTIVE
  }

  predicate At(t: Tree, r: nat, stage: Stage) {
    r < |t.requests| && Placed(t, r) && t.requests[r].stage == stage
  }

  predicate Placed(t: Tree, r: nat)
    requires r < |t.requests|
  {
    t.requests[r].program < |t.programs|
  }

  /** A tool call returns only when the programs it opened have finished. */
  predicate OwnedFinished(programs: seq<Program>, r: nat) {
    forall q | 0 <= q < |programs| && programs[q].owner == Some(r) :: programs[q].finished
  }

  function At0(t: Tree, r: nat): Program
    requires r < |t.requests| && Placed(t, r)
  {
    t.programs[t.requests[r].program]
  }

  function SetStage(t: Tree, r: nat, stage: Stage): Tree
    requires r < |t.requests|
  {
    t.(requests := t.requests[r := t.requests[r].(stage := stage)])
  }

  function SetProgram(t: Tree, p: nat, program: Program): Tree
    requires p < |t.programs|
  {
    t.(programs := t.programs[p := program])
  }

  /** The request ends, and gives back the permits it holds. */
  function Settle(t: Tree, r: nat, stage: Stage): Tree
    requires r < |t.requests| && Placed(t, r)
  {
    var p, was := t.requests[r].program, t.requests[r].stage;
    var t1 := SetStage(t, r, stage);
    var t2 := if was.Holds() then SetProgram(t1, p, t.programs[p].(permits := t.programs[p].permits + 1)) else t1;
    if was.HoldsTree() then t2.(permits := t2.permits + 1) else t2
  }

  /** The section under the lock: the count, the budget, and only then the second look at the program. */
  function Decided(t: Tree, r: nat): Tree
    requires r < |t.requests| && Placed(t, r)
  {
    var program := At0(t, r);
    if |program.requests| >= REQUESTS || t.starts >= STARTS then Settle(t, r, Refused)
    else
      var counted := t.(starts := t.starts + 1);
      if program.cancelled || program.terminated then Settle(counted, r, Refused)
      else
        SetProgram(SetStage(counted, r, Running), t.requests[r].program,
                   program.(requests := program.requests + {r}))
  }

  function Asking(t: Tree, p: nat): Tree {
    t.(requests := t.requests + [Request(p, Asked)])
  }

  function Opened(t: Tree, r: nat): Tree {
    t.(programs := t.programs + [Program(Some(r), ACTIVE, false, false, {}, false)])
  }

  function TookPermit(t: Tree, r: nat): Tree
    requires r < |t.requests| && Placed(t, r)
  {
    var p := t.requests[r].program;
    if t.programs[p].permits == 0 then Settle(t, r, Refused)
    else SetStage(SetProgram(t, p, t.programs[p].(permits := t.programs[p].permits - 1)), r, HasPermit)
  }

  function TookTreePermit(t: Tree, r: nat): Tree
    requires r < |t.requests| && Placed(t, r)
  {
    if t.permits == 0 then Settle(t, r, Refused) else SetStage(t.(permits := t.permits - 1), r, HasBoth)
  }

  function Apply(t: Tree, step: Step): Tree
    requires Enabled(t, step)
  {
    match step
    case Ask(p) => Asking(t, p)
    case TakePermit(r) => TookPermit(t, r)
    case TakeTreePermit(r) => TookTreePermit(t, r)
    case Decide(r) => Decided(t, r)
    case Open(r) => Opened(t, r)
    case Finalize(r, terminate) =>
      var p := t.requests[r].program;
      SetProgram(SetStage(t, r, Finalized), p,
                 t.programs[p].(terminated := t.programs[p].terminated || terminate))
    case End(r) => Settle(t, r, Ended)
    case Cancel(p) => SetProgram(t, p, t.programs[p].(cancelled := true))
    case Dispose(p, r) => SetProgram(t, p, t.programs[p].(requests := t.programs[p].requests - {r}))
    case Finish(p) => SetProgram(t, p, t.programs[p].(finished := true))
  }

  // ----- counting who holds what -----

  function Count(requests: seq<Request>, f: Request -> bool): nat {
    if requests == [] then 0
    else Count(requests[..|requests| - 1], f) + (if f(requests[|requests| - 1]) then 1 else 0)
  }

  function HoldsIn(p: nat): Request -> bool {
    (x: Request) => x.program == p && x.stage.Holds()
  }

  function HoldsTree(): Request -> bool {
    (x: Request) => x.stage.HoldsTree()
  }

  function Admitted(): Request -> bool {
    (x: Request) => x.stage.WasAdmitted()
  }

  function LiveIn(p: nat): Request -> bool {
    (x: Request) => x.program == p && x.stage.Live()
  }

  lemma {:induction false} CountUpdate(requests: seq<Request>, r: nat, x: Request, f: Request -> bool)
    requires r < |requests|
    ensures Count(requests[r := x], f)
            == Count(requests, f) - (if f(requests[r]) then 1 else 0) + (if f(x) then 1 else 0)
  {
    var last := |requests| - 1;
    if r == last {
      assert requests[r := x][..last] == requests[..last];
    } else {
      assert requests[r := x][..last] == requests[..last][r := x];
      CountUpdate(requests[..last], r, x, f);
    }
  }

  lemma CountAppend(requests: seq<Request>, x: Request, f: Request -> bool)
    ensures Count(requests + [x], f) == Count(requests, f) + (if f(x) then 1 else 0)
  {
    assert (requests + [x])[..|requests|] == requests;
  }

  lemma {:induction false} CountZero(requests: seq<Request>, f: Request -> bool, r: nat)
    requires Count(requests, f) == 0 && r < |requests|
    ensures !f(requests[r])
  {
    if r < |requests| - 1 {
      CountZero(requests[..|requests| - 1], f, r);
    }
  }

  lemma {:induction false} CountAtMost(requests: seq<Request>, f: Request -> bool, g: Request -> bool)
    requires forall x :: f(x) ==> g(x)
    ensures Count(requests, f) <= Count(requests, g)
  {
    if requests != [] {
      CountAtMost(requests[..|requests| - 1], f, g);
    }
  }

  // ----- what every step keeps -----

  /** Every permit is free or held by exactly one request. */
  ghost predicate Conserved(t: Tree) {
    && (forall p | 0 <= p < |t.programs| :: t.programs[p].permits + Count(t.requests, HoldsIn(p)) == ACTIVE)
    && t.permits + Count(t.requests, HoldsTree()) == ACTIVE
  }

  predicate Budgeted(t: Tree) {
    && Count(t.requests, Admitted()) <= t.starts <= STARTS
    && forall p | 0 <= p < |t.programs| :: |t.programs[p].requests| <= REQUESTS
  }

  /** Requests belong to programs, and a nested program to an admitted request of an older program. */
  predicate Formed(t: Tree) {
    && (forall r | 0 <= r < |t.requests| :: t.requests[r].program < |t.programs|)
    && forall q | 0 <= q < |t.programs| && t.programs[q].owner.Some? ::
         var r := t.programs[q].owner.value;
         r < |t.requests| && t.requests[r].program < q && t.requests[r].stage.WasAdmitted()
  }

  /** A finished program is cancelled and runs nothing, and a call that is over has left no program open. */
  predicate Quiet(t: Tree) {
    && (forall p | 0 <= p < |t.programs| && t.programs[p].finished :: t.programs[p].cancelled)
    && (forall r | 0 <= r < |t.requests| && t.requests[r].program < |t.programs| ::
          t.programs[t.requests[r].program].finished ==> !t.requests[r].stage.Live())
    && (forall q | 0 <= q < |t.programs| && t.programs[q].owner.Some? ::
          var r := t.programs[q].owner.value;
          r < |t.requests| && !t.requests[r].stage.Running? ==> t.programs[q].finished)
  }

  ghost predicate Inv(t: Tree) {
    Conserved(t) && Budgeted(t) && Formed(t) && Quiet(t)
  }

  lemma StartHolds()
    ensures Inv(START)
  {
  }

  function One(b: bool): int {
    if b then 1 else 0
  }

  /** What a change of one request's stage does to every count. */
  lemma StageCounts(t: Tree, r: nat, stage: Stage)
    requires r < |t.requests|
    ensures
      var x, after := t.requests[r], SetStage(t, r, stage).requests;
      && (forall p: nat :: Count(after, HoldsIn(p))
                    == Count(t.requests, HoldsIn(p))
                       + (if x.program == p then One(stage.Holds()) - One(x.stage.Holds()) else 0))
      && Count(after, HoldsTree()) == Count(t.requests, HoldsTree()) + One(stage.HoldsTree()) - One(x.stage.HoldsTree())
      && Count(after, Admitted())
         == Count(t.requests, Admitted()) + One(stage.WasAdmitted()) - One(x.stage.WasAdmitted())
  {
    var y := t.requests[r].(stage := stage);
    forall p: nat
      ensures Count(t.requests[r := y], HoldsIn(p))
              == Count(t.requests, HoldsIn(p)) + One(HoldsIn(p)(y)) - One(HoldsIn(p)(t.requests[r]))
    {
      CountUpdate(t.requests, r, y, HoldsIn(p));
    }
    CountUpdate(t.requests, r, y, HoldsTree());
    CountUpdate(t.requests, r, y, Admitted());
  }

  lemma SettleConserves(t: Tree, r: nat, stage: Stage)
    requires r < |t.requests| && Placed(t, r) && Conserved(t) && !stage.Holds()
    ensures Conserved(Settle(t, r, stage))
  {
    StageCounts(t, r, stage);
  }

  lemma AskConserves(t: Tree, p: nat)
    requires Conserved(t)
    ensures Conserved(Asking(t, p))
  {
    var x := Request(p, Asked);
    forall q: nat ensures Count(t.requests + [x], HoldsIn(q)) == Count(t.requests, HoldsIn(q)) {
      CountAppend(t.requests, x, HoldsIn(q));
    }
    CountAppend(t.requests, x, HoldsTree());
  }

  lemma AskBudgeted(t: Tree, p: nat)
    requires Budgeted(t)
    ensures Budgeted(Asking(t, p))
  {
    CountAppend(t.requests, Request(p, Asked), Admitted());
  }

  lemma {:induction false} NoneHold(requests: seq<Request>, p: nat)
    requires forall r | 0 <= r < |requests| :: requests[r].program != p
    ensures Count(requests, HoldsIn(p)) == 0
  {
    if requests != [] {
      NoneHold(requests[..|requests| - 1], p);
    }
  }

  lemma DecideConserves(t: Tree, r: nat)
    requires At(t, r, HasBoth) && Conserved(t)
    ensures Conserved(Decided(t, r))
  {
    SettleConserves(t, r, Refused);
    SettleConserves(t.(starts := t.starts + 1), r, Refused);
    StageCounts(t, r, Running);
  }

  lemma TakeConserves(t: Tree, r: nat)
    requires r < |t.requests| && Placed(t, r) && Conserved(t)
    ensures t.requests[r].stage.Asked? ==> Conserved(TookPermit(t, r))
    ensures t.requests[r].stage.HasPermit? ==> Conserved(TookTreePermit(t, r))
  {
    SettleConserves(t, r, Refused);
    StageCounts(t, r, HasPermit);
    StageCounts(t, r, HasBoth);
  }

  lemma OpenConserves(t: Tree, r: nat)
    requires Conserved(t) && Formed(t)
    ensures Conserved(Opened(t, r))
  {
    NoneHold(t.requests, |t.programs|);
  }

  lemma KeepsConserved(t: Tree, step: Step)
    requires Enabled(t, step) && Conserved(t) && Formed(t)
    ensures Conserved(Apply(t, step))
  {
    match step
    case Ask(p) => AskConserves(t, p);
    case TakePermit(r) => TakeConserves(t, r);
    case TakeTreePermit(r) => TakeConserves(t, r);
    case Decide(r) => DecideConserves(t, r);
    case Open(r) => OpenConserves(t, r);
    case Finalize(r, _) => StageCounts(t, r, Finalized);
    case End(r) => SettleConserves(t, r, Ended);
    case _ =>
  }

  /** A stage change that admits nothing keeps the budgets; so does a program that retains no more. */
  lemma StageBudgeted(t: Tree, r: nat, stage: Stage)
    requires r < |t.requests| && Budgeted(t) && (stage.WasAdmitted() ==> t.requests[r].stage.WasAdmitted())
    ensures Budgeted(SetStage(t, r, stage))
  {
    StageCounts(t, r, stage);
  }

  lemma SettleBudgeted(t: Tree, r: nat, stage: Stage)
    requires r < |t.requests| && Placed(t, r) && Budgeted(t)
    requires stage.WasAdmitted() ==> t.requests[r].stage.WasAdmitted()
    ensures Budgeted(Settle(t, r, stage))
  {
    StageBudgeted(t, r, stage);
  }

  lemma DecideBudgeted(t: Tree, r: nat)
    requires At(t, r, HasBoth) && Budgeted(t)
    ensures Budgeted(Decided(t, r))
  {
    SettleBudgeted(t, r, Refused);
    if t.starts < STARTS {
      SettleBudgeted(t.(starts := t.starts + 1), r, Refused);
    }
    StageCounts(t, r, Running);
  }

  lemma KeepsBudgeted(t: Tree, step: Step)
    requires Enabled(t, step) && Budgeted(t)
    ensures Budgeted(Apply(t, step))
  {
    match step
    case Ask(p) => AskBudgeted(t, p);
    case TakePermit(r) =>
      SettleBudgeted(t, r, Refused);
      StageBudgeted(t, r, HasPermit);
    case TakeTreePermit(r) =>
      SettleBudgeted(t, r, Refused);
      StageBudgeted(t, r, HasBoth);
    case Decide(r) => DecideBudgeted(t, r);
    case Finalize(r, _) => StageBudgeted(t, r, Finalized);
    case End(r) => SettleBudgeted(t, r, Ended);
    case _ =>
  }

  lemma StageFormed(t: Tree, r: nat, stage: Stage)
    requires r < |t.requests| && Formed(t) && (t.requests[r].stage.WasAdmitted() ==> stage.WasAdmitted())
    ensures Formed(SetStage(t, r, stage))
  {
  }

  lemma ProgramFormed(t: Tree, p: nat, program: Program)
    requires p < |t.programs| && Formed(t) && program.owner == t.programs[p].owner
    ensures Formed(SetProgram(t, p, program))
  {
  }

  lemma SettleFormed(t: Tree, r: nat, stage: Stage)
    requires r < |t.requests| && Placed(t, r) && Formed(t)
    requires t.requests[r].stage.WasAdmitted() ==> stage.WasAdmitted()
    ensures Formed(Settle(t, r, stage))
  {
    StageFormed(t, r, stage);
  }

  /** A request that was not admitted, one step on. */
  lemma TakeFormed(t: Tree, r: nat)
    requires r < |t.requests| && Placed(t, r) && Formed(t) && !t.requests[r].stage.WasAdmitted()
    ensures Formed(TookPermit(t, r))
  {
    SettleFormed(t, r, Refused);
    var p := t.requests[r].program;
    if t.programs[p].permits > 0 {
      var fewer := t.programs[p].(permits := t.programs[p].permits - 1);
      ProgramFormed(t, p, fewer);
      StageFormed(SetProgram(t, p, fewer), r, HasPermit);
    }
  }

  lemma TakeTreeFormed(t: Tree, r: nat)
    requires r < |t.requests| && Placed(t, r) && Formed(t) && !t.requests[r].stage.WasAdmitted()
    ensures Formed(TookTreePermit(t, r))
  {
    SettleFormed(t, r, Refused);
    StageFormed(t, r, HasBoth);
  }

  lemma DecideFormed(t: Tree, r: nat)
    requires r < |t.requests| && Placed(t, r) && Formed(t) && !t.requests[r].stage.WasAdmitted()
    ensures Formed(Decided(t, r))
  {
    SettleFormed(t, r, Refused);
    StageFormed(t, r, Running);
  }

  lemma GrowFormed(t: Tree, p: nat, r: nat)
    requires Formed(t)
    ensures p < |t.programs| ==> Formed(Asking(t, p))
    ensures At(t, r, Running) ==> Formed(Opened(t, r))
  {
  }

  lemma FinalizeFormed(t: Tree, r: nat, terminate: bool)
    requires Enabled(t, Finalize(r, terminate)) && Formed(t)
    ensures Formed(Apply(t, Finalize(r, terminate)))
  {
    StageFormed(t, r, Finalized);
  }

  lemma KeepsFormed(t: Tree, step: Step)
    requires Enabled(t, step) && Formed(t)
    ensures Formed(Apply(t, step))
  {
    match step
    case Ask(p) => GrowFormed(t, p, 0);
    case TakePermit(r) => TakeFormed(t, r);
    case TakeTreePermit(r) => TakeTreeFormed(t, r);
    case Decide(r) => DecideFormed(t, r);
    case Open(r) => GrowFormed(t, 0, r);
    case Finalize(r, terminate) => FinalizeFormed(t, r, terminate);
    case End(r) => SettleFormed(t, r, Ended);
    case Cancel(p) => ProgramFormed(t, p, t.programs[p].(cancelled := true));
    case Dispose(p, r) => ProgramFormed(t, p, t.programs[p].(requests := t.programs[p].requests - {r}));
    case Finish(p) => ProgramFormed(t, p, t.programs[p].(finished := true));
  }

  /** When all eight permits are free, no request of the program runs. */
  lemma AllFree(t: Tree, p: nat, r: nat)
    requires Conserved(t) && p < |t.programs| && t.programs[p].permits == ACTIVE
    requires r < |t.requests| && t.requests[r].program == p
    ensures !t.requests[r].stage.Live()
  {
    CountZero(t.requests, HoldsIn(p), r);
  }

  /** A request that was never admitted opened nothing. */
  lemma OwnsNothing(t: Tree, r: nat)
    requires r < |t.requests| && Formed(t) && !t.requests[r].stage.WasAdmitted()
    ensures OwnedFinished(t.programs, r)
  {
  }

  lemma StageQuiet(t: Tree, r: nat, stage: Stage)
    requires r < |t.requests| && Placed(t, r) && Quiet(t) && OwnedFinished(t.programs, r)
    requires stage.Live() ==> !At0(t, r).finished
    ensures Quiet(SetStage(t, r, stage))
  {
  }

  lemma ProgramQuiet(t: Tree, p: nat, program: Program)
    requires p < |t.programs| && Quiet(t) && program.owner == t.programs[p].owner
    requires program.finished == t.programs[p].finished && (t.programs[p].cancelled ==> program.cancelled)
    ensures Quiet(SetProgram(t, p, program))
  {
  }

  lemma SettleQuiet(t: Tree, r: nat, stage: Stage)
    requires r < |t.requests| && Placed(t, r) && Quiet(t) && OwnedFinished(t.programs, r) && !stage.Live()
    ensures Quiet(Settle(t, r, stage))
  {
    var t1 := SetStage(t, r, stage);
    StageQuiet(t, r, stage);
    var p := t.requests[r].program;
    ProgramQuiet(t1, p, t.programs[p].(permits := t.programs[p].permits + 1));
  }

  lemma FinishQuiet(t: Tree, p: nat)
    requires Enabled(t, Finish(p)) && Quiet(t) && Conserved(t)
    ensures Quiet(Apply(t, Finish(p)))
  {
    forall r | 0 <= r < |t.requests| && t.requests[r].program == p ensures !t.requests[r].stage.Live() {
      AllFree(t, p, r);
    }
  }

  lemma AskedQuiet(t: Tree, r: nat)
    requires r < |t.requests| && Placed(t, r) && Quiet(t) && Formed(t) && !t.requests[r].stage.WasAdmitted()
    ensures Quiet(TookPermit(t, r)) && Quiet(TookTreePermit(t, r))
  {
    OwnsNothing(t, r);
    SettleQuiet(t, r, Refused);
    StageQuiet(t, r, HasBoth);
    var p := t.requests[r].program;
    if t.programs[p].permits > 0 {
      var fewer := t.programs[p].(permits := t.programs[p].permits - 1);
      var t1 := SetProgram(t, p, fewer);
      ProgramQuiet(t, p, fewer);
      assert OwnedFinished(t1.programs, r);
      StageQuiet(t1, r, HasPermit);
    }
  }

  lemma GrowQuiet(t: Tree, p: nat, r: nat)
    requires Quiet(t) && Formed(t)
    ensures p < |t.programs| ==> Quiet(Asking(t, p))
    ensures At(t, r, Running) ==> Quiet(Opened(t, r))
  {
  }

  /** The second look is what keeps a finished program from admitting: finishing cancelled it. */
  lemma DecideQuiet(t: Tree, r: nat)
    requires At(t, r, HasBoth) && Quiet(t) && Formed(t)
    ensures Quiet(Decided(t, r))
  {
    OwnsNothing(t, r);
    SettleQuiet(t, r, Refused);
    SettleQuiet(t.(starts := t.starts + 1), r, Refused);
    var program := At0(t, r);
    if !program.cancelled {
      var t1 := SetStage(t, r, Running);
      StageQuiet(t, r, Running);
      ProgramQuiet(t1, t.requests[r].program, program.(requests := program.requests + {r}));
    }
  }

  lemma FinalizeQuiet(t: Tree, r: nat, terminate: bool)
    requires Enabled(t, Finalize(r, terminate)) && Quiet(t)
    ensures Quiet(Apply(t, Finalize(r, terminate)))
  {
    var p := t.requests[r].program;
    StageQuiet(t, r, Finalized);
    ProgramQuiet(SetStage(t, r, Finalized), p,
                 t.programs[p].(terminated := t.programs[p].terminated || terminate));
  }

  lemma KeepsQuiet(t: Tree, step: Step)
    requires Enabled(t, step) && Formed(t) && Quiet(t) && Conserved(t)
    ensures Quiet(Apply(t, step))
  {
    match step
    case Ask(p) => GrowQuiet(t, p, 0);
    case TakePermit(r) => AskedQuiet(t, r);
    case TakeTreePermit(r) => AskedQuiet(t, r);
    case Decide(r) => DecideQuiet(t, r);
    case Open(r) => GrowQuiet(t, 0, r);
    case Finalize(r, terminate) => FinalizeQuiet(t, r, terminate);
    case End(r) => SettleQuiet(t, r, Ended);
    case Cancel(p) => ProgramQuiet(t, p, t.programs[p].(cancelled := true));
    case Dispose(p, r) => ProgramQuiet(t, p, t.programs[p].(requests := t.programs[p].requests - {r}));
    case Finish(p) => FinishQuiet(t, p);
  }

  lemma Keeps(t: Tree, step: Step)
    requires Enabled(t, step) && Inv(t)
    ensures Inv(Apply(t, step))
  {
    var t' := Apply(t, step);
    assert Conserved(t') by { KeepsConserved(t, step); }
    assert Budgeted(t') by { KeepsBudgeted(t, step); }
    assert Formed(t') by { KeepsFormed(t, step); }
    assert Quiet(t') by { KeepsQuiet(t, step); }
  }

  // ----- whole runs -----

  predicate Legal(t: Tree, steps: seq<Step>)
    decreases |steps|
  {
    steps == [] || (Enabled(t, steps[0]) && Legal(Apply(t, steps[0]), steps[1..]))
  }

  function After(t: Tree, steps: seq<Step>): Tree
    requires Legal(t, steps)
    decreases |steps|
  {
    if steps == [] then t else After(Apply(t, steps[0]), steps[1..])
  }

  lemma {:induction false} RunKeeps(t: Tree, steps: seq<Step>)
    requires Inv(t) && Legal(t, steps)
    ensures Inv(After(t, steps))
    decreases |steps|
  {
    if steps != [] {
      Keeps(t, steps[0]);
      RunKeeps(Apply(t, steps[0]), steps[1..]);
    }
  }

  function Live(): Request -> bool {
    (x: Request) => x.stage.Live()
  }

  /** In every reachable state at most eight requests run in a program and at most eight in the whole tree, at
      most 128 were ever admitted, and a program retains at most sixteen. */
  lemma RunWithinLimits(steps: seq<Step>, p: nat)
    requires Legal(START, steps) && p < |After(START, steps).programs|
    ensures
      var t := After(START, steps);
      && Count(t.requests, LiveIn(p)) <= ACTIVE
      && Count(t.requests, Live()) <= ACTIVE
      && Count(t.requests, Admitted()) <= STARTS
      && |t.programs[p].requests| <= REQUESTS
  {
    StartHolds();
    RunKeeps(START, steps);
    var t := After(START, steps);
    CountAtMost(t.requests, LiveIn(p), HoldsIn(p));
    CountAtMost(t.requests, Live(), HoldsTree());
  }

  // ----- what cannot be undone -----

  /** Requests stay with their program and keep having been admitted; programs keep their owner, and stay
      cancelled, terminated and finished. */
  predicate Onward(t: Tree, t': Tree) {
    && |t.programs| <= |t'.programs| && |t.requests| <= |t'.requests|
    && (forall p | 0 <= p < |t.programs| :: ProgramOnward(t.programs[p], t'.programs[p]))
    && forall r | 0 <= r < |t.requests| :: t'.requests[r].program == t.requests[r].program
  }

  predicate ProgramOnward(p: Program, p': Program) {
    && p'.owner == p.owner
    && (p.cancelled ==> p'.cancelled) && (p.terminated ==> p'.terminated) && (p.finished ==> p'.finished)
  }

  /** Requests of `p` that are admitted afterwards had been admitted before. */
  predicate AdmitsNone(t: Tree, t': Tree, p: nat) {
    forall r | 0 <= r < |t'.requests| && t'.requests[r].program == p && t'.requests[r].stage.WasAdmitted() ::
      r < |t.requests| && t.requests[r].stage.WasAdmitted()
  }

  predicate Closed(t: Tree, p: nat) {
    p < |t.programs| && (t.programs[p].cancelled || t.programs[p].terminated)
  }

  lemma StepIsOnward(t: Tree, step: Step)
    requires Enabled(t, step)
    ensures Onward(t, Apply(t, step))
  {
  }

  lemma StepAdmitsNone(t: Tree, step: Step, p: nat)
    requires Enabled(t, step) && Closed(t, p)
    ensures AdmitsNone(t, Apply(t, step), p)
  {
  }

  lemma {:induction false} RunIsOnward(t: Tree, steps: seq<Step>)
    requires Legal(t, steps)
    ensures Onward(t, After(t, steps))
    decreases |steps|
  {
    if steps != [] {
      var t1 := Apply(t, steps[0]);
      StepIsOnward(t, steps[0]);
      RunIsOnward(t1, steps[1..]);
    }
  }

  /** Once a program is cancelled, or has kept a terminating result, it admits nothing more on any run. */
  lemma {:induction false} ClosedAdmitsNothing(t: Tree, steps: seq<Step>, p: nat)
    requires Legal(t, steps) && Closed(t, p)
    ensures AdmitsNone(t, After(t, steps), p)
    decreases |steps|
  {
    if steps != [] {
      var t1 := Apply(t, steps[0]);
      StepIsOnward(t, steps[0]);
      StepAdmitsNone(t, steps[0], p);
      ClosedAdmitsNothing(t1, steps[1..], p);
      RunIsOnward(t1, steps[1..]);
    }
  }

  lemma TerminatingResultCloses(t: Tree, r: nat, steps: seq<Step>)
    requires Enabled(t, Finalize(r, true)) && Legal(Apply(t, Finalize(r, true)), steps)
    ensures AdmitsNone(t, After(Apply(t, Finalize(r, true)), steps), t.requests[r].program)
  {
    var t1 := Apply(t, Finalize(r, true));
    ClosedAdmitsNothing(t1, steps, t.requests[r].program);
    assert forall x | 0 <= x < |t.requests| && t1.requests[x].stage.WasAdmitted() :: t.requests[x].stage.WasAdmitted();
  }

  // ----- shutdown of a subtree -----

  /** `q` is `p`, or a program opened under it. */
  predicate Below(t: Tree, q: nat, p: nat)
    requires q < |t.programs|
    decreases q
  {
    || q == p
    || (&& t.programs[q].owner.Some?
        && var r := t.programs[q].owner.value;
        && r < |t.requests| && t.requests[r].program < q
        && Below(t, t.requests[r].program, p))
  }

  /** A finished program has nothing running anywhere below it. */
  lemma {:induction false} SubtreeQuiet(t: Tree, q: nat, p: nat)
    requires Inv(t) && p < |t.programs| && t.programs[p].finished && q < |t.programs| && Below(t, q, p)
    ensures t.programs[q].finished
    ensures forall r | 0 <= r < |t.requests| && t.requests[r].program == q :: !t.requests[r].stage.Live()
    decreases q
  {
    if q != p {
      SubtreeQuiet(t, t.requests[t.programs[q].owner.value].program, p);
    }
  }

  /** Once `finish` has returned, nothing runs below the program and nothing ever starts there again, whatever
      the rest of the tree goes on to do. */
  lemma ShutdownIsFinal(t: Tree, p: nat, steps: seq<Step>, q: nat)
    requires Inv(t) && p < |t.programs| && t.programs[p].finished && Legal(t, steps)
    requires q < |After(t, steps).programs| && Below(After(t, steps), q, p)
    ensures
      var t' := After(t, steps);
      && t'.programs[q].finished
      && (forall r | 0 <= r < |t'.requests| && t'.requests[r].program == q :: !t'.requests[r].stage.Live())
      && AdmitsNone(t, t', p)
  {
    RunKeeps(t, steps);
    RunIsOnward(t, steps);
    ClosedAdmitsNothing(t, steps, p);
    SubtreeQuiet(After(t, steps), q, p);
  }

  lemma {:induction false} SomeHolder(requests: seq<Request>, f: Request -> bool) returns (r: nat)
    requires Count(requests, f) > 0
    ensures r < |requests| && f(requests[r])
  {
    r := |requests| - 1;
    if !f(requests[r]) {
      r := SomeHolder(requests[..r], f);
    }
  }

  /** A step of the programs in `below` that brings their shutdown forward. */
  predicate Advances(t: Tree, step: Step, below: set<nat>) {
    match step
    case TakeTreePermit(r) => Among(t, r, below)
    case Decide(r) => Among(t, r, below)
    case End(r) => Among(t, r, below)
    case Cancel(q) => q in below && q < |t.programs| && !t.programs[q].cancelled
    case Finish(q) => q in below && q < |t.programs| && !t.programs[q].finished
    case _ => false
  }

  /** A step that adds a request or a program to them. */
  predicate Grows(t: Tree, step: Step, below: set<nat>) {
    match step
    case Ask(q) => q in below
    case Open(r) => Among(t, r, below)
    case _ => false
  }

  predicate Among(t: Tree, r: nat, below: set<nat>) {
    r < |t.requests| && t.requests[r].program in below
  }

  /** With a program, all that its requests opened. */
  predicate ClosedBelow(t: Tree, below: set<nat>) {
    && (forall q | q in below :: q < |t.programs|)
    && forall q | 0 <= q < |t.programs| && t.programs[q].owner.Some? && Among(t, t.programs[q].owner.value, below) ::
         q in below
  }

  /** A `finish` that waits is never stuck: itself, or something it waits for below the program, can go on. */
  lemma {:induction false} FinishNotStuck(t: Tree, p: nat, below: set<nat>) returns (step: Step)
    requires Inv(t) && ClosedBelow(t, below) && p in below
    requires t.programs[p].cancelled && !t.programs[p].finished
    ensures Enabled(t, step) && Advances(t, step, below)
    decreases |t.programs| - p
  {
    step := Finish(p);
    if t.programs[p].permits != ACTIVE {
      var r := SomeHolder(t.requests, HoldsIn(p));
      if t.requests[r].stage.HasPermit? {
        step := TakeTreePermit(r);
      } else if t.requests[r].stage.HasBoth? {
        step := Decide(r);
      } else if OwnedFinished(t.programs, r) {
        step := End(r);
      } else {
        var q :| 0 <= q < |t.programs| && t.programs[q].owner == Some(r) && !t.programs[q].finished;
        if t.programs[q].cancelled {
          step := FinishNotStuck(t, q, below);
        } else {
          step := Cancel(q);
        }
      }
    }
  }

  // ----- and it ends -----

  function StepsLeft(stage: Stage): nat {
    match stage
    case Asked => 5
    case HasPermit => 4
    case HasBoth => 3
    case Running => 2
    case Finalized => 1
    case _ => 0
  }

  function LeftIn(below: set<nat>): Request -> int {
    (x: Request) => if x.program in below then StepsLeft(x.stage) else 0
  }

  function Uncancelled(t: Tree, below: set<nat>): set<nat> {
    set q | q in below && q < |t.programs| && !t.programs[q].cancelled
  }

  function Unfinished(t: Tree, below: set<nat>): set<nat> {
    set q | q in below && q < |t.programs| && !t.programs[q].finished
  }

  /** What the programs in `below` have left to do. */
  function Work(t: Tree, below: set<nat>): int {
    Sum(t.requests, LeftIn(below)) + |Uncancelled(t, below)| + |Unfinished(t, below)|
  }

  lemma {:induction false} LeftNonNegative(requests: seq<Request>, below: set<nat>)
    ensures Sum(requests, LeftIn(below)) >= 0
  {
    if requests != [] {
      LeftNonNegative(requests[..|requests| - 1], below);
    }
  }

  /** A request's own step brings it forward. */
  lemma StageWork(t: Tree, r: nat, stage: Stage, below: set<nat>)
    requires r < |t.requests|
    ensures Sum(SetStage(t, r, stage).requests, LeftIn(below))
            == Sum(t.requests, LeftIn(below))
               + if Among(t, r, below) then StepsLeft(stage) - StepsLeft(t.requests[r].stage) else 0
  {
    SumUpdate(t.requests, r, t.requests[r].(stage := stage), LeftIn(below));
  }

  /** Programs that are cancelled and finished at least where they were. */
  lemma FlagsWork(t: Tree, t': Tree, below: set<nat>)
    requires forall q | q in below :: q < |t.programs| <= |t'.programs| && ProgramOnward(t.programs[q], t'.programs[q])
    ensures Uncancelled(t', below) <= Uncancelled(t, below) && Unfinished(t', below) <= Unfinished(t, below)
    ensures |Uncancelled(t', below)| <= |Uncancelled(t, below)| && |Unfinished(t', below)| <= |Unfinished(t, below)|
  {
    SubsetSize(Uncancelled(t', below), Uncancelled(t, below));
    SubsetSize(Unfinished(t', below), Unfinished(t, below));
  }

  lemma SettleWork(t: Tree, r: nat, stage: Stage, below: set<nat>)
    requires r < |t.requests| && Placed(t, r) && StepsLeft(stage) == 0
    ensures Sum(Settle(t, r, stage).requests, LeftIn(below))
            == Sum(t.requests, LeftIn(below))
               - if Among(t, r, below) then StepsLeft(t.requests[r].stage) else 0
  {
    StageWork(t, r, stage, below);
  }

  lemma AskWork(t: Tree, p: nat, below: set<nat>)
    requires p !in below
    ensures Sum(Asking(t, p).requests, LeftIn(below)) == Sum(t.requests, LeftIn(below))
  {
    SumSplits(t.requests, [Request(p, Asked)], LeftIn(below));
    SumOne(Request(p, Asked), LeftIn(below));
  }

  /** Work below after a request of its own has moved. */
  predicate Lowers(t: Tree, t': Tree, r: nat, below: set<nat>) {
    var left, left' := Sum(t.requests, LeftIn(below)), Sum(t'.requests, LeftIn(below));
    left' <= left && (Among(t, r, below) ==> left' < left)
  }

  lemma TakeWork(t: Tree, r: nat, below: set<nat>)
    requires At(t, r, Asked)
    ensures Lowers(t, TookPermit(t, r), r, below)
  {
    SettleWork(t, r, Refused, below);
    StageWork(t, r, HasPermit, below);
  }

  lemma TakeTreeWork(t: Tree, r: nat, below: set<nat>)
    requires At(t, r, HasPermit)
    ensures Lowers(t, TookTreePermit(t, r), r, below)
  {
    SettleWork(t, r, Refused, below);
    StageWork(t, r, HasBoth, below);
  }

  lemma DecideWork(t: Tree, r: nat, below: set<nat>)
    requires At(t, r, HasBoth)
    ensures Lowers(t, Decided(t, r), r, below)
  {
    SettleWork(t, r, Refused, below);
    StageWork(t, r, Running, below);
  }

  lemma RequestWork(t: Tree, step: Step, below: set<nat>)
    requires Enabled(t, step) && !Grows(t, step, below)
    ensures Sum(Apply(t, step).requests, LeftIn(below)) <= Sum(t.requests, LeftIn(below))
    ensures Advances(t, step, below) && !step.Cancel? && !step.Finish? ==>
              Sum(Apply(t, step).requests, LeftIn(below)) < Sum(t.requests, LeftIn(below))
  {
    match step
    case Ask(p) => AskWork(t, p, below);
    case TakePermit(r) => TakeWork(t, r, below);
    case TakeTreePermit(r) => TakeTreeWork(t, r, below);
    case Decide(r) => DecideWork(t, r, below);
    case Finalize(r, _) => StageWork(t, r, Finalized, below);
    case End(r) => SettleWork(t, r, Ended, below);
    case _ =>
  }

  lemma StepStaysClosed(t: Tree, step: Step, below: set<nat>)
    requires Enabled(t, step) && ClosedBelow(t, below) && Formed(t) && !Grows(t, step, below)
    ensures ClosedBelow(Apply(t, step), below)
  {
    StepIsOnward(t, step);
    var t' := Apply(t, step);
    forall q | 0 <= q < |t'.programs| && t'.programs[q].owner.Some? && Among(t', t'.programs[q].owner.value, below)
      ensures q in below
    {
      if q < |t.programs| {
        assert t'.programs[q].owner == t.programs[q].owner;
        assert Among(t, t.programs[q].owner.value, below);
      }
    }
  }

  lemma FlagWork(t: Tree, step: Step, below: set<nat>)
    requires Enabled(t, step) && Advances(t, step, below) && (step.Cancel? || step.Finish?)
    ensures |Uncancelled(Apply(t, step), below)| + |Unfinished(Apply(t, step), below)|
            < |Uncancelled(t, below)| + |Unfinished(t, below)|
  {
    var t' := Apply(t, step);
    if step.Cancel? {
      assert Uncancelled(t', below) == Uncancelled(t, below) - {step.p};
      assert Unfinished(t', below) == Unfinished(t, below);
    } else {
      assert Unfinished(t', below) == Unfinished(t, below) - {step.p};
      assert Uncancelled(t', below) == Uncancelled(t, below);
    }
  }

  /** No step but a growing one adds to the work, and every advancing one takes from it. */
  lemma StepWork(t: Tree, step: Step, below: set<nat>)
    requires Enabled(t, step) && ClosedBelow(t, below) && !Grows(t, step, below)
    ensures Work(Apply(t, step), below) <= Work(t, below)
    ensures Advances(t, step, below) ==> Work(Apply(t, step), below) < Work(t, below)
  {
    StepIsOnward(t, step);
    RequestWork(t, step, below);
    FlagsWork(t, Apply(t, step), below);
    if Advances(t, step, below) && (step.Cancel? || step.Finish?) {
      FlagWork(t, step, below);
    }
  }

  /** So a `finish` that waits does return: whenever nothing more is asked or opened below the program, the steps that
      bring the shutdown forward end it, after no more of them than the work that is left. */
  lemma {:induction false} FinishCompletes(t: Tree, p: nat, below: set<nat>) returns (steps: seq<Step>)
    requires Inv(t) && ClosedBelow(t, below) && p in below && t.programs[p].cancelled
    ensures Legal(t, steps) && |steps| <= Work(t, below)
    ensures p < |After(t, steps).programs| && After(t, steps).programs[p].finished
    decreases Work(t, below)
  {
    LeftNonNegative(t.requests, below);
    steps := [];
    if !t.programs[p].finished {
      var step := FinishNotStuck(t, p, below);
      Keeps(t, step);
      StepWork(t, step, below);
      StepStaysClosed(t, step, below);
      StepIsOnward(t, step);
      var rest := FinishCompletes(Apply(t, step), p, below);
      steps := [step] + rest;
      assert steps[1..] == rest;
    }
  }

  // ----- the operations, with anything other tasks do in between -----

  /** The request a step belongs to. */
  predicate Concerns(step: Step, r: nat) {
    match step
    case TakePermit(x) => x == r
    case TakeTreePermit(x) => x == r
    case Decide(x) => x == r
    case Open(x) => x == r
    case Finalize(x, _) => x == r
    case End(x) => x == r
    case _ => false
  }

  /** The steps that bring a start from one stage to the next. */
  predicate Leads(step: Step, r: nat, from: Stage, next: Stage) {
    match step
    case TakePermit(x) => x == r && from.Asked? && next.HasPermit?
    case TakeTreePermit(x) => x == r && from.HasPermit? && next.HasBoth?
    case Decide(x) => x == r && from.HasBoth? && next.Running?
    case _ => false
  }

  /** What another task leaves alone: where this request stands, and what program `p` cannot take back. */
  predicate Undisturbed(t: Tree, t': Tree, r: Option<nat>, p: nat) {
    && (r.Some? && r.value < |t.requests| ==> r.value < |t'.requests| && t'.requests[r.value] == t.requests[r.value])
    && (p < |t.programs| ==> p < |t'.programs| && ProgramOnward(t.programs[p], t'.programs[p]))
  }

  lemma OtherStep(t: Tree, step: Step, r: Option<nat>, p: nat)
    requires Enabled(t, step) && (r.Some? ==> !Concerns(step, r.value))
    ensures Undisturbed(t, Apply(t, step), r, p)
  {
  }

  class ProgramTree {
    var now: Tree

    constructor ()
      ensures now == START && Inv(now)
    {
      now := START;
      new;
      StartHolds();
    }

    method Take(step: Step)
      requires Inv(now) && Enabled(now, step)
      modifies this
      ensures now == Apply(old(now), step) && Inv(now)
    {
      Keeps(now, step);
      now := Apply(now, step);
    }

    /** A step that is not the request's. */
    method TakeOther(step: Step, r: Option<nat>, p: nat)
      requires Inv(now) && Enabled(now, step) && (r.Some? ==> !Concerns(step, r.value))
      modifies this
      ensures Inv(now) && Undisturbed(old(now), now, r, p)
    {
      OtherStep(now, step, r, p);
      Take(step);
    }

    /** Everything runs for a while, but for the request `r` if there is one. */
    method OthersRun(r: Option<nat>, p: nat)
      requires Inv(now)
      modifies this
      ensures Inv(now) && Undisturbed(old(now), now, r, p)
    {
      var n: nat :| true;
      for i := 0 to n
        invariant Inv(now) && Undisturbed(old(now), now, r, p)
      {
        var step: Step :| true;
        if Enabled(now, step) && (r.Some? ==> !Concerns(step, r.value)) {
          TakeOther(step, r, p);
        }
      }
    }

    method Enter(p: nat) returns (r: nat)
      requires Inv(now) && Enabled(now, Ask(p))
      modifies this
      ensures Inv(now) && At(now, r, Asked) && now.requests[r].program == p
    {
      r := |now.requests|;
      Take(Ask(p));
    }

    /** Past the entry check a start can be refused for want of a permit of its program, for want of one of the
        tree, and in the section under the lock. */
    method Proceed(step: Step, r: nat, next: Stage) returns (ok: bool)
      requires Inv(now) && r < |now.requests| && Placed(now, r) && Leads(step, r, now.requests[r].stage, next)
      modifies this
      ensures Inv(now) && At(now, r, if ok then next else Refused)
      ensures now.requests[r].program == old(now).requests[r].program
      ensures ok && next == Running ==>
                !Closed(old(now), now.requests[r].program) && !Closed(now, now.requests[r].program)
    {
      Take(step);
      ok := !now.requests[r].stage.Refused?;
    }

    /** `start`: refused on entry, for want of a permit or budget, or by the second look under the lock. */
    method Start(p: nat) returns (started: Option<nat>)
      requires Inv(now) && p < |now.programs|
      modifies this
      ensures Inv(now)
      // open at the entry check, and open under the lock, which is where the method ends
      ensures started.Some? ==> !Closed(old(now), p) && !Closed(now, p)
      ensures started.Some? ==> At(now, started.value, Running) && now.requests[started.value].program == p
    {
      if now.programs[p].cancelled || now.programs[p].terminated {
        return None;
      }
      var r := Enter(p);
      OthersRun(Some(r), p);
      var ok := Proceed(TakePermit(r), r, HasPermit);
      if ok {
        OthersRun(Some(r), p);
        ok := Proceed(TakeTreePermit(r), r, HasBoth);
      }
      if ok {
        OthersRun(Some(r), p);
        ok := Proceed(Decide(r), r, Running);
      }
      started := if ok then Some(r) else None;
    }

    method CancelAll(p: nat)
      requires Inv(now) && p < |now.programs|
      modifies this
      ensures Inv(now) && p < |now.programs| && now.programs[p].cancelled
    {
      Take(Cancel(p));
    }

    /** `finish`: cancel, then wait for all eight permits. */
    method FinishProgram(p: nat) returns (done: bool)
      requires Inv(now) && p < |now.programs|
      modifies this
      ensures Inv(now) && p < |now.programs| && now.programs[p].cancelled
      ensures done ==> now.programs[p].finished
    {
      CancelAll(p);
      var patience: nat :| true;
      for i := 0 to patience
        invariant Inv(now) && p < |now.programs| && now.programs[p].cancelled
      {
        if now.programs[p].permits == ACTIVE {
          Take(Finish(p));
          return true;
        }
        OthersRun(None, p);
      }
      done := false;
    }
  }
}
